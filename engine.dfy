/** One instantiated engine as the worker drives it: its heap, the
    environment handler `setup` installs, and the entry points the job
    calls, each recorded in a log of calls. */
module Engines {
  import opened Joypad
  import opened Cores
  import opened Frames

  /** libretro's `RETRO_ENVIRONMENT_GET_CAN_DUPE`: the handler answers by writing 1 to `data`. */
  const GetCanDupe: int := 3
  /** libretro's `RETRO_ENVIRONMENT_SET_PIXEL_FORMAT`. */
  const SetPixelFormat: int := 10
  /** libretro's `RETRO_ENVIRONMENT_GET_INPUT_BITMASKS`, command 51 with the
      experimental flag 0x10000 or-ed in. */
  const GetInputBitmasks: int := ((51 as bv32) | 0x10000) as int

  /** The commands the environment handler accepts. */
  predicate Accepted(cmd: int)
  {
    cmd == GetCanDupe || cmd == GetInputBitmasks || cmd == SetPixelFormat
  }

  /** The heap after the handler has seen `cmd` with argument `data`: a
      typed-array store `HEAPU8[data] = 1` for command 3, which does nothing
      outside the array. */
  function EnvironmentWrite(memory: Bytes, cmd: int, data: int): Bytes
  {
    if cmd == GetCanDupe && 0 <= data < |memory| then memory[data := 1] else memory
  }

  lemma GetInputBitmasksValue()
    ensures GetInputBitmasks == 65587
  {
  }

  /** The handler accepts exactly the commands 3, 65587 and 10. */
  lemma AcceptedCommands(cmd: int)
    ensures Accepted(cmd) <==> cmd == 3 || cmd == 65587 || cmd == 10
  {
    GetInputBitmasksValue();
  }

  /** Only command 3 touches the heap, and then only the byte at `data`, which becomes 1. */
  lemma EnvironmentWriteEffect(memory: Bytes, cmd: int, data: int)
    ensures |EnvironmentWrite(memory, cmd, data)| == |memory|
    ensures forall i :: 0 <= i < |memory| ==>
      EnvironmentWrite(memory, cmd, data)[i] == if cmd == 3 && i == data then 1 else memory[i]
  {
  }

  /** The calls of `n` frame steps. */
  function Runs(input: InputState, n: nat): (calls: seq<Call>)
    ensures |calls| == n && forall i :: 0 <= i < n ==> calls[i] == Run(input)
  {
    if n == 0 then [] else Runs(input, n - 1) + [Run(input)]
  }

  class Engine {
    const core: Core
    /** `HEAPU8`. */
    var memory: Bytes
    /** The calls made into this engine so far. */
    ghost var log: seq<Call>

    /** A freshly instantiated engine (`NesCore()`, `SnesCore()` or `GbCore()`). */
    constructor(core: Core)
      ensures this.core == core && memory == core.initialMemory && log == []
    {
      this.core := core;
      memory := core.initialMemory;
      log := [];
    }

    /** `setup`: install the environment handler. */
    method Setup()
      modifies this
      ensures memory == old(memory) && log == old(log) + [Call.SetEnvironment]
    {
      log := log + [Call.SetEnvironment];
    }

    /** The environment handler: accept commands 3, 51 | 0x10000 and 10, and
        for command 3 store the byte 1 at heap address `data`. */
    method Environment(cmd: int, data: int) returns (accepted: bool)
      modifies this
      ensures accepted == Accepted(cmd)
      ensures memory == EnvironmentWrite(old(memory), cmd, data) && log == old(log)
    {
      if cmd == GetCanDupe {
        if 0 <= data < |memory| {
          memory := memory[data := 1];
        }
        return true;
      }
      if cmd == GetInputBitmasks {
        return true;
      }
      if cmd == SetPixelFormat {
        return true;
      }
      return false;
    }

    method LoadRom(game: Bytes)
      modifies this
      ensures memory == core.loadRom(old(memory), game) && log == old(log) + [Call.LoadRom(game)]
    {
      memory := core.loadRom(memory, game);
      log := log + [Call.LoadRom(game)];
    }

    method GetAvInfo() returns (info: AvInfo)
      modifies this
      ensures info == core.getAvInfo(memory)
      ensures memory == old(memory) && log == old(log) + [Call.GetAvInfo]
    {
      info := core.getAvInfo(memory);
      log := log + [Call.GetAvInfo];
    }

    method LoadState(state: Bytes)
      modifies this
      ensures memory == core.loadState(old(memory), state) && log == old(log) + [Call.LoadState(state)]
    {
      memory := core.loadState(memory, state);
      log := log + [Call.LoadState(state)];
    }

    method SaveState() returns (state: Bytes)
      modifies this
      ensures state == core.saveState(memory)
      ensures memory == old(memory) && log == old(log) + [Call.SaveState]
    {
      state := core.saveState(memory);
      log := log + [Call.SaveState];
    }

    /** `executeFrame`: install the input and video callbacks, run once and
        return the frame the video callback captured. */
    method ExecuteFrame(input: InputState) returns (frame: Frame)
      modifies this
      ensures (frame, memory) == Step(core, input, old(memory))
      ensures log == old(log) + [Run(input)]
    {
      var result := core.run(memory, Callback(input));
      frame := FrameOf(result.refresh, result.atRefresh);
      memory := result.after;
      log := log + [Run(input)];
    }

    /** The frame loop: `duration` steps, each frame pushed in turn. */
    method ExecuteFrames(input: InputState, duration: nat) returns (frames: seq<Frame>)
      modifies this
      ensures (frames, memory) == RunFrames(core, input, old(memory), duration)
      ensures log == old(log) + Runs(input, duration)
    {
      frames := [];
      for i := 0 to duration
        invariant (frames, memory) == RunFrames(core, input, old(memory), i)
        invariant log == old(log) + Runs(input, i)
      {
        var frame := ExecuteFrame(input);
        frames := frames + [frame];
      }
    }
  }
}
