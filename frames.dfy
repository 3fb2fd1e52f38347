/** Frame capture: what the worker keeps from each `video_refresh`
    callback, the run of `duration` engine steps that produces the frames,
    and the list of buffers the result hands over to the pool. */
module Frames {
  import opened Joypad
  import opened Cores

  /** A captured frame: a copy of the engine's 16-bit pixels, or none when
      the engine passed a null pointer. */
  datatype Frame = Frame(buffer: Option<seq<bv16>>, width: nat, height: nat, pitch: nat)

  /** The 16-bit word stored little-endian in the bytes `lo`, `hi`. */
  function Word(lo: bv8, hi: bv8): bv16
  {
    (lo as bv16) | ((hi as bv16) << 8)
  }

  /** `HEAPU16`: the heap read as 16-bit words; a trailing odd byte is not part of it. */
  function Words(memory: Bytes): seq<bv16>
  {
    seq(|memory| / 2, k requires 0 <= k < |memory| / 2 => Word(memory[2 * k], memory[2 * k + 1]))
  }

  /** A typed array's `subarray` clamps each bound to its length. */
  function Clamp(i: nat, length: nat): nat
  {
    if i <= length then i else length
  }

  /** For a non-null `data`, a copy of `HEAPU16.subarray(data / 2, (data + bytes) / 2)`. */
  function Pixels(data: nat, bytes: nat, memory: Bytes): Option<seq<bv16>>
  {
    var heap := Words(memory);
    var first := Clamp(data / 2, |heap|);
    var last := Clamp((data + bytes) / 2, |heap|);
    if data == 0 then None else Some(heap[first..if first <= last then last else first])
  }

  /** The frame built from one `video_refresh(data, width, height, pitch)`. */
  function FrameOf(refresh: VideoRefresh, memory: Bytes): Frame
  {
    Frame(Pixels(refresh.data, refresh.pitch * refresh.height, memory), refresh.width, refresh.height, refresh.pitch)
  }

  /** One `executeFrame`: install the input callback, run the engine once
      and capture the frame it refreshes; the heap moves on to after the run. */
  function Step(core: Core, input: InputState, memory: Bytes): (Frame, Bytes)
  {
    var result := core.run(memory, Callback(input));
    (FrameOf(result.refresh, result.atRefresh), result.after)
  }

  /** `n` steps from `memory`: the frames in order and the heap after the last step. */
  function RunFrames(core: Core, input: InputState, memory: Bytes, n: nat): (seq<Frame>, Bytes)
  {
    if n == 0 then ([], memory)
    else
      var (frames, before) := RunFrames(core, input, memory, n - 1);
      var (frame, after) := Step(core, input, before);
      (frames + [frame], after)
  }

  /** The heap after `n` steps. */
  function After(core: Core, input: InputState, memory: Bytes, n: nat): Bytes
  {
    RunFrames(core, input, memory, n).1
  }

  // Properties of a captured frame

  /** The refresh's size and pitch are passed through, and the buffer is null exactly for a null pointer. */
  lemma FrameFields(refresh: VideoRefresh, memory: Bytes)
    ensures FrameOf(refresh, memory).width == refresh.width
    ensures FrameOf(refresh, memory).height == refresh.height
    ensures FrameOf(refresh, memory).pitch == refresh.pitch
    ensures FrameOf(refresh, memory).buffer.None? <==> refresh.data == 0
  {
  }

  /** For an even, non-null pointer whose `bytes` bytes lie inside the heap,
      the copy holds `bytes / 2` words, and word `k` is the little-endian word
      at heap bytes `data + 2k` and `data + 2k + 1`. */
  lemma PixelsInHeap(data: nat, bytes: nat, memory: Bytes)
    requires data != 0 && data % 2 == 0 && data + bytes <= |memory|
    ensures Pixels(data, bytes, memory).Some?
    ensures var words := Pixels(data, bytes, memory).value;
      && words == Words(memory)[data / 2 .. data / 2 + bytes / 2]
      && |words| == bytes / 2
      && forall k :: 0 <= k < |words| ==> words[k] == Word(memory[data + 2 * k], memory[data + 2 * k + 1])
  {
    var heap := Words(memory);
    assert (data + bytes) / 2 == data / 2 + bytes / 2;
    var words := heap[data / 2 .. data / 2 + bytes / 2];
    forall k | 0 <= k < |words|
      ensures words[k] == Word(memory[data + 2 * k], memory[data + 2 * k + 1])
    {
      assert words[k] == heap[data / 2 + k];
    }
  }

  /** The frame of a refresh whose `pitch * height` bytes at an even, non-null
      pointer lie inside the heap: `pitch * height / 2` words, word `k` read
      little-endian from heap bytes `data + 2k` and `data + 2k + 1`. */
  lemma FrameBuffer(refresh: VideoRefresh, memory: Bytes)
    requires refresh.data != 0 && refresh.data % 2 == 0
    requires refresh.data + refresh.pitch * refresh.height <= |memory|
    ensures FrameOf(refresh, memory).buffer.Some?
    ensures var words := FrameOf(refresh, memory).buffer.value;
      && |words| == refresh.pitch * refresh.height / 2
      && forall k :: 0 <= k < |words| ==>
           words[k] == Word(memory[refresh.data + 2 * k], memory[refresh.data + 2 * k + 1])
  {
    PixelsInHeap(refresh.data, refresh.pitch * refresh.height, memory);
  }

  // Properties of the frame loop

  lemma {:induction false} RunFramesLength(core: Core, input: InputState, memory: Bytes, n: nat)
    ensures |RunFrames(core, input, memory, n).0| == n
  {
    if n > 0 {
      RunFramesLength(core, input, memory, n - 1);
    }
  }

  /** The first `i` of `n` frames are the frames of the first `i` steps. */
  lemma {:induction false} RunFramesPrefix(core: Core, input: InputState, memory: Bytes, i: nat, n: nat)
    requires i <= n
    ensures |RunFrames(core, input, memory, n).0| == n
    ensures RunFrames(core, input, memory, n).0[..i] == RunFrames(core, input, memory, i).0
  {
    RunFramesLength(core, input, memory, n);
    if i < n {
      RunFramesPrefix(core, input, memory, i, n - 1);
      RunFramesLength(core, input, memory, n - 1);
      var frames := RunFrames(core, input, memory, n - 1).0;
      assert RunFrames(core, input, memory, n).0[..i] == frames[..i];
    }
  }

  /** Frame `i` is what step `i` captures, run from the heap the earlier steps left. */
  lemma FrameIsStep(core: Core, input: InputState, memory: Bytes, i: nat, n: nat)
    requires i < n
    ensures |RunFrames(core, input, memory, n).0| == n
    ensures RunFrames(core, input, memory, n).0[i] == Step(core, input, After(core, input, memory, i)).0
  {
    RunFramesPrefix(core, input, memory, i + 1, n);
    RunFramesLength(core, input, memory, i);
    assert RunFrames(core, input, memory, n).0[i] == RunFrames(core, input, memory, n).0[..i + 1][i];
  }

  /** Running `a` steps and then `b` more is running `a + b` steps. */
  lemma {:induction false} RunFramesSplit(core: Core, input: InputState, memory: Bytes, a: nat, b: nat)
    ensures RunFrames(core, input, memory, a + b).0
         == RunFrames(core, input, memory, a).0 + RunFrames(core, input, After(core, input, memory, a), b).0
    ensures After(core, input, memory, a + b) == After(core, input, After(core, input, memory, a), b)
  {
    if b > 0 {
      RunFramesSplit(core, input, memory, a, b - 1);
      var head := RunFrames(core, input, memory, a).0;
      var tail := RunFrames(core, input, After(core, input, memory, a), b - 1).0;
      var step := Step(core, input, After(core, input, memory, a + b - 1));
      assert head + (tail + [step.0]) == (head + tail) + [step.0];
    }
  }

  // The transfer list

  /** An `ArrayBuffer` handed to the pool: the saved state's, or a frame copy's. */
  datatype Transferable = StateBuffer(bytes: Bytes) | PixelBuffer(words: seq<bv16>)

  /** `frames.map(frame => frame.buffer.buffer)`: `None` when a frame has a
      null buffer, where reading `.buffer` of null throws. */
  function PixelBuffers(frames: seq<Frame>): Option<seq<Transferable>>
  {
    if frames == [] then Some([])
    else if frames[0].buffer.None? then None
    else match PixelBuffers(frames[1..])
      case None => None
      case Some(rest) => Some([PixelBuffer(frames[0].buffer.value)] + rest)
  }

  /** The transfer list: the saved state's buffer, then each frame's buffer. */
  function TransferList(state: Bytes, frames: seq<Frame>): Option<seq<Transferable>>
  {
    match PixelBuffers(frames)
    case None => None
    case Some(buffers) => Some([StateBuffer(state)] + buffers)
  }

  lemma {:induction false} PixelBuffersShape(frames: seq<Frame>)
    ensures PixelBuffers(frames).Some? <==> forall i :: 0 <= i < |frames| ==> frames[i].buffer.Some?
    ensures PixelBuffers(frames).Some? ==>
      && |PixelBuffers(frames).value| == |frames|
      && forall i :: 0 <= i < |frames| ==> PixelBuffers(frames).value[i] == PixelBuffer(frames[i].buffer.value)
  {
    if frames != [] {
      PixelBuffersShape(frames[1..]);
      assert forall i :: 1 <= i < |frames| ==> frames[i] == frames[1..][i - 1];
    }
  }

  /** The list exists exactly when every frame has a buffer; it then is the
      state's buffer followed by the frames' buffers in order, `1 + |frames|` long. */
  lemma TransferListShape(state: Bytes, frames: seq<Frame>)
    ensures TransferList(state, frames).Some? <==> forall i :: 0 <= i < |frames| ==> frames[i].buffer.Some?
    ensures TransferList(state, frames).Some? ==>
      && |TransferList(state, frames).value| == 1 + |frames|
      && TransferList(state, frames).value[0] == StateBuffer(state)
      && forall i :: 0 <= i < |frames| ==>
           TransferList(state, frames).value[i + 1] == PixelBuffer(frames[i].buffer.value)
  {
    PixelBuffersShape(frames);
  }
}
