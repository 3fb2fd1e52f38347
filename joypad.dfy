/** The input encoder: the job's ten logical buttons as a libretro joypad
    bitmask, the answer the worker gives to the engine's input-polling
    callback. libretro's callback returns an `int16_t`; the mask is modelled
    as that 16-bit value. */
module Joypad {

  /** libretro's joypad device ids: the bit position of each button in the mask. */
  const JoypadB: nat := 0
  const JoypadY: nat := 1
  const JoypadSelect: nat := 2
  const JoypadStart: nat := 3
  const JoypadUp: nat := 4
  const JoypadDown: nat := 5
  const JoypadLeft: nat := 6
  const JoypadRight: nat := 7
  const JoypadA: nat := 8
  const JoypadX: nat := 9

  /** The polling id that asks for all buttons at once, as a bitmask. */
  const JoypadMaskId: int := 256

  datatype Button = A | B | X | Y | Select | Start | Up | Down | Left | Right

  /** The controller state of a job: one flag per button. */
  datatype InputState = InputState(
    a: bool, b: bool, x: bool, y: bool, select: bool, start: bool,
    up: bool, down: bool, left: bool, right: bool)

  const NoButtons := InputState(false, false, false, false, false, false, false, false, false, false)

  function Held(input: InputState, button: Button): bool
  {
    match button
    case A => input.a
    case B => input.b
    case X => input.x
    case Y => input.y
    case Select => input.select
    case Start => input.start
    case Up => input.up
    case Down => input.down
    case Left => input.left
    case Right => input.right
  }

  function Position(button: Button): nat
  {
    match button
    case B => JoypadB
    case Y => JoypadY
    case Select => JoypadSelect
    case Start => JoypadStart
    case Up => JoypadUp
    case Down => JoypadDown
    case Left => JoypadLeft
    case Right => JoypadRight
    case A => JoypadA
    case X => JoypadX
  }

  /** The input state in which exactly `button` is held. */
  function Only(button: Button): InputState
  {
    InputState(button == A, button == B, button == X, button == Y, button == Select,
               button == Start, button == Up, button == Down, button == Left, button == Right)
  }

  function Weight(flag: bool): bv16
  {
    if flag then 1 else 0
  }

  /** The joypad bitmask of an input state: bit `Position(b)` is set when `b` is held. */
  function Mask(input: InputState): bv16
  {
    Weight(input.b) | (Weight(input.y) << 1) | (Weight(input.select) << 2) | (Weight(input.start) << 3)
    | (Weight(input.up) << 4) | (Weight(input.down) << 5) | (Weight(input.left) << 6)
    | (Weight(input.right) << 7) | (Weight(input.a) << 8) | (Weight(input.x) << 9)
  }

  /** Bit `k` of `m`. */
  function Bit(m: bv16, k: nat): bool
    requires k < 16
  {
    (m >> k) & 1 == 1
  }

  /** `m` has, at each button's position, the bit that says whether the button
      is held, and no bit at position 10 or above. */
  predicate Encodes(m: bv16, input: InputState)
  {
    && (m & 0x100 != 0) == input.a && (m & 0x1 != 0) == input.b
    && (m & 0x200 != 0) == input.x && (m & 0x2 != 0) == input.y
    && (m & 0x4 != 0) == input.select && (m & 0x8 != 0) == input.start
    && (m & 0x10 != 0) == input.up && (m & 0x20 != 0) == input.down
    && (m & 0x40 != 0) == input.left && (m & 0x80 != 0) == input.right
    && m & 0xFC00 == 0
  }

  /** The answer to one input-polling query: the mask for the mask id, 0 for any other id. */
  function Poll(input: InputState, id: int): bv16
  {
    if id == JoypadMaskId then Mask(input) else 0
  }

  /** The buttons a mask holds. */
  function Decode(m: bv16): InputState
  {
    InputState(Bit(m, JoypadA), Bit(m, JoypadB), Bit(m, JoypadX), Bit(m, JoypadY),
               Bit(m, JoypadSelect), Bit(m, JoypadStart), Bit(m, JoypadUp),
               Bit(m, JoypadDown), Bit(m, JoypadLeft), Bit(m, JoypadRight))
  }

  /** Different buttons have different ids. */
  lemma PositionInjective(b1: Button, b2: Button)
    ensures Position(b1) < 10
    ensures Position(b1) == Position(b2) <==> b1 == b2
  {
  }

  /** The mask encodes the input state. */
  lemma MaskEncodes(input: InputState)
    ensures Encodes(Mask(input), input)
  {
  }

  /** The mask is the only value that encodes the input state. */
  lemma EncodesOnlyMask(m: bv16, input: InputState)
    requires Encodes(m, input)
    ensures m == Mask(input)
  {
  }

  /** Bit `Position(b)` of the mask is set exactly when `b` is held. */
  lemma MaskBit(input: InputState, button: Button)
    ensures Position(button) < 16 && (Bit(Mask(input), Position(button)) <==> Held(input, button))
  {
    match button
    case A => case B => case X => case Y => case Select =>
    case Start => case Up => case Down => case Left => case Right =>
  }

  /** The mask is below 1024: no bit at or above position 10 is ever set. */
  lemma MaskBound(input: InputState)
    ensures Mask(input) < 1024
  {
  }

  /** Decoding the mask gives back the input state. */
  lemma DecodeMask(input: InputState)
    ensures Decode(Mask(input)) == input
  {
  }

  /** No two input states share a mask. */
  lemma MaskInjective(i1: InputState, i2: InputState)
    ensures Mask(i1) == Mask(i2) <==> i1 == i2
  {
    DecodeMask(i1);
    DecodeMask(i2);
  }

  /** With nothing held the mask is 0. */
  lemma NoButtonsMask()
    ensures Mask(NoButtons) == 0
  {
  }

  /** With one button held the mask is exactly `1 << Position(b)`. */
  lemma SingleButtonMask(button: Button)
    ensures Position(button) < 16 && Mask(Only(button)) == 1 << Position(button)
  {
    match button
    case A => case B => case X => case Y => case Select =>
    case Start => case Up => case Down => case Left => case Right =>
  }

  /** 1 for a held button, 0 otherwise. */
  function Held01(flag: bool): int
  {
    if flag then 1 else 0
  }

  /** The bits never overlap, so the mask, read as an integer, is the sum of
      `2^Position(b)` over the held buttons. */
  lemma MaskIsSum(input: InputState)
    ensures Mask(input) as int ==
      Held01(input.b) + 2 * Held01(input.y) + 4 * Held01(input.select) + 8 * Held01(input.start)
      + 16 * Held01(input.up) + 32 * Held01(input.down) + 64 * Held01(input.left)
      + 128 * Held01(input.right) + 256 * Held01(input.a) + 512 * Held01(input.x)
  {
  }

  /** The input-state callback as the worker writes it: only the mask query
      is answered, and the mask is built by one `mask |= 1 << id` per held
      button, in the order A, B, X, Y, SELECT, START, UP, DOWN, LEFT, RIGHT
      (the ids written out: A 8, B 0, X 9, Y 1, SELECT 2, START 3, UP 4,
      DOWN 5, LEFT 6, RIGHT 7). */
  method InputStateCallback(input: InputState, port: int, device: int, index: int, id: int)
    returns (r: bv16)
    ensures r == Poll(input, id)
  {
    if id == JoypadMaskId {
      var mask: bv16 := 0;
      if input.a { mask := mask | (1 << 8); }
      if input.b { mask := mask | (1 << 0); }
      if input.x { mask := mask | (1 << 9); }
      if input.y { mask := mask | (1 << 1); }
      if input.select { mask := mask | (1 << 2); }
      if input.start { mask := mask | (1 << 3); }
      if input.up { mask := mask | (1 << 4); }
      if input.down { mask := mask | (1 << 5); }
      if input.left { mask := mask | (1 << 6); }
      if input.right { mask := mask | (1 << 7); }
      EncodesOnlyMask(mask, input);
      return mask;
    }
    return 0;
  }
}
