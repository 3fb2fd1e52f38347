/** The engines as the worker sees them: a byte heap (the WebAssembly
    module's `HEAPU8`) and the handful of libretro entry points the job
    calls. What an entry point does to the heap is the engine's business,
    so each is a function the model is given. */
module Cores {
  import opened Joypad

  type Bytes = seq<bv8>

  datatype Option<T> = None | Some(value: T)

  /** What `retro_get_system_av_info` fills in; it is passed through untouched. */
  datatype AvInfo = AvInfo(baseWidth: nat, baseHeight: nat, maxWidth: nat, maxHeight: nat)

  /** The arguments of one `video_refresh` callback: a heap address (0 for
      "no new frame"), the frame's size and its row pitch in bytes. */
  datatype VideoRefresh = VideoRefresh(data: nat, width: nat, height: nat, pitch: nat)

  /** The input-state callback the worker installs: (port, device, index, id) to a mask. */
  type InputCallback = (int, int, int, int) -> bv16

  /** One `retro_run`: the heap at the moment the engine calls `video_refresh`
      (exactly once per run), that call's arguments, and the heap once the run returns. */
  datatype RunResult = RunResult(atRefresh: Bytes, refresh: VideoRefresh, after: Bytes)

  /** One engine build (quicknes, snes9x2010 or mgba): its heap when
      instantiated and the effect of each entry point. `saveState` gives the
      snapshot and leaves the heap alone. */
  datatype Core = Core(
    initialMemory: Bytes,
    loadRom: (Bytes, Bytes) -> Bytes,
    getAvInfo: Bytes -> AvInfo,
    loadState: (Bytes, Bytes) -> Bytes,
    saveState: Bytes -> Bytes,
    run: (Bytes, InputCallback) -> RunResult)

  /** The calls the worker makes into an engine, as recorded in its log. */
  datatype Call =
    | SetEnvironment
    | LoadRom(game: Bytes)
    | GetAvInfo
    | LoadState(state: Bytes)
    | Run(input: InputState)
    | SaveState

  /** The input-state callback of a job whose buttons are `input`. */
  function Callback(input: InputState): InputCallback
  {
    (port: int, device: int, index: int, id: int) => Poll(input, id)
  }
}
