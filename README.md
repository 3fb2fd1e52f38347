# retrobot job worker — a Dafny model

`src/worker.ts` is the job function that retrobot's worker pool runs. A job names a console (`NES`, `SNES`, `GBA` or `GB`). It also carries a ROM, an optional saved state, an optional ROM hash, the buttons to hold and a number of frames.

The worker keeps one libretro engine per console family. Each engine is built on first use and then memoized; `GBA` and `GB` share the mgba engine. The worker also remembers the hash of the game each engine last loaded, so the ROM is loaded again only when it has to be.

Each job:

1. Resolves the hash: the supplied one, or else the CRC-32 of the ROM.
2. Reloads the ROM when the hash differs from the family's last one, or when the state is present but empty.
3. Reads the av info.
4. Restores the state when it is non-empty.
5. Runs the requested number of frames. The input callback answers the bitmask poll (id 256) with the held buttons as a libretro joypad bitmask, and every other poll with 0. Each frame's pixels are copied as 16-bit words.
6. Saves the state.
7. Returns the av info, the frames, the new state and the hash, together with a transfer list of buffers.

The project has six modules:

- `Joypad` (joypad.dfy) models the joypad encoder: the button ids, the bitmask and the input-state callback.
- `Cores` (cores.dfy) models an engine as the worker sees it. It has a byte heap, and its entry points are functions given to the model (`loadRom`, `getAvInfo`, `loadState`, `saveState`, `run`).
- `Frames` (frames.dfy) models the capture of one frame from `video_refresh`, the frame loop as a function and the transfer list.
- `Engines` (engine.dfy) models one instantiated engine as a class. It holds the heap and a ghost log of the calls made into it. It also has the environment handler that `setup` installs, and the frame-loop methods.
- `Jobs` (worker.dfy) contains the job as a function `Job` on a value view of the worker, `WorkerView`. It also contains the class `Worker`, whose fields are the module-level variables of the source: the three memoized engines and the three last-game hashes. Its method `Work` is proved to produce exactly `Job`'s result and new state.
- `JobProperties` (worker.dfy) holds the lemmas about `Job` and about sequences of jobs.

Several functions define the behaviour and carry no contract of their own; the lemmas and methods in the table below are stated in terms of them:

- `Joypad.Mask`, `Joypad.Poll` and `Joypad.Decode`: the mask built at src/worker.ts:148-180 and the callback's answer at src/worker.ts:147-183;
- `Cores.Callback`: the input-state closure installed at src/worker.ts:146;
- `Frames.Words` (`HEAPU16`), `Frames.Clamp` (the bounds of `subarray`), `Frames.Pixels`, `Frames.FrameOf`: the frame copy at src/worker.ts:186-195;
- `Frames.Step`, `Frames.RunFrames` and `Frames.After`: `executeFrame` and the loop at src/worker.ts:145-204;
- `Frames.PixelBuffers`, `Frames.TransferList` and `Jobs.Transfer`: the transfer list at src/worker.ts:214-219;
- `Engines.Accepted` and `Engines.EnvironmentWrite`: the handled commands and the store at src/worker.ts:52-67;
- `Jobs.FamilyOf`: the core-type switch with GBA and GB grouped, src/worker.ts:80-96;
- `Jobs.Ready`: the memoization `init = init || Core().then(setup)`, src/worker.ts:82, 86 and 91;
- `Jobs.Worker.LastGameHash`: the switch at src/worker.ts:104-117;
- `Jobs.ResolveHash` (src/worker.ts:98-100), `Jobs.ShouldReload` (src/worker.ts:119), `Jobs.ShouldRestore` (src/worker.ts:141);
- `Jobs.SessionCalls`, `Jobs.Session`, `Jobs.JobOn` and `Jobs.Job`: the whole job, src/worker.ts:76-231;
- `JobProperties.RunJobs`, `JobProperties.LogOf`, `JobProperties.Saves` and `JobProperties.Named`: jobs one after the other, an engine's calls, the number of state saves in them and the number of jobs naming a family;
- `JobProperties.Restored` (the heap after src/worker.ts:120-143) and `JobProperties.RestoresSaved` (an engine whose `loadState` undoes `saveState`).

An absent state does not force a reload. `state?.byteLength == 0` is false for `undefined` (src/worker.ts:119), so only a present, empty state forces one. `Jobs.ShouldReload` and `JobProperties.ReloadRule` state this.

## Model

| member | source | states |
|---|---|---|
| `Joypad.PositionInjective` | src/worker.ts:6-15 | the ten button ids are below 10 and pairwise distinct |
| `Joypad.MaskBit` | src/worker.ts:148-180 | bit `id(b)` of the mask is set exactly when button `b` is held |
| `Joypad.MaskEncodes` | src/worker.ts:148-180 | the mask has every button's bit as the button's flag, and no bit at position 10 or above |
| `Joypad.EncodesOnlyMask` | src/worker.ts:148-180 | any 16-bit value with those bits is the mask |
| `Joypad.MaskBound` | src/worker.ts:148-180 | the mask is below 1024 |
| `Joypad.DecodeMask` | src/worker.ts:148-180 | reading the held buttons back from the mask gives the input state |
| `Joypad.MaskInjective` | src/worker.ts:148-180 | two input states have the same mask if and only if they are equal |
| `Joypad.NoButtonsMask` | src/worker.ts:148 | with nothing held the mask is 0 |
| `Joypad.SingleButtonMask` | src/worker.ts:150-178 | with one button held the mask is `1 << id` of that button |
| `Joypad.MaskIsSum` | src/worker.ts:148-180 | the or-ed bits never overlap: the mask, read as an integer, is the plain sum of the held buttons' powers of two |
| `Joypad.InputStateCallback` | src/worker.ts:146-184 | the callback, one conditional `mask \|= 1 << id` per button, answers the mask id 256 with the mask and every other id with 0 |
| `Engines.GetInputBitmasksValue` | src/worker.ts:58 | `51 \| 0x10000` is 65587 |
| `Engines.AcceptedCommands` | src/worker.ts:52-67 | the handler accepts exactly commands 3, 65587 and 10 |
| `Engines.EnvironmentWriteEffect` | src/worker.ts:53-56 | command 3 sets the heap byte at `data` to 1, and nothing else changes; other commands leave the heap alone |
| `Engines.Engine.Environment` | src/worker.ts:52-67 | the handler returns whether the command is accepted, and its heap effect is `EnvironmentWrite` |
| `Engines.Engine.constructor` | src/worker.ts:43-45 | a new engine has the build's initial heap and no calls yet |
| `Engines.Engine.Setup` | src/worker.ts:51-70 | `setup` installs the handler: one `SetEnvironment` call, heap unchanged |
| `Engines.Engine.LoadRom` | src/worker.ts:120 | the heap becomes the build's `loadRom` of the old heap and the ROM |
| `Engines.Engine.GetAvInfo` | src/worker.ts:138-139 | the av info is read from the current heap, which is unchanged |
| `Engines.Engine.LoadState` | src/worker.ts:141-143 | the heap becomes the build's `loadState` of the old heap and the state |
| `Engines.Engine.SaveState` | src/worker.ts:206 | the snapshot of the current heap is returned, and the heap is unchanged |
| `Engines.Engine.ExecuteFrame` | src/worker.ts:145-198 | one `retro_run` under the job's input callback gives the captured frame and the heap after the run |
| `Engines.Runs` | src/worker.ts:202-204 | the log of `n` frame steps is `n` `Run` calls with the job's input |
| `Engines.Engine.ExecuteFrames` | src/worker.ts:200-204 | after the loop the frames and the heap are those of `duration` steps from the old heap (`RunFrames`), and the log gains `duration` `Run` calls |
| `Frames.FrameFields` | src/worker.ts:186-194 | the frame keeps the refresh's width, height and pitch; its buffer is null exactly for a null `data` |
| `Frames.PixelsInHeap` | src/worker.ts:189 | for an even non-null pointer inside the heap, the copy is the slice `data/2 .. data/2 + bytes/2` of `HEAPU16`, word `k` coming from bytes `data+2k`, `data+2k+1` |
| `Frames.FrameBuffer` | src/worker.ts:187-190 | a frame whose `pitch * height` bytes lie inside the heap has `pitch * height / 2` words copied from there |
| `Frames.RunFramesLength` | src/worker.ts:200-204 | the loop produces exactly `duration` frames |
| `Frames.RunFramesPrefix` | src/worker.ts:200-204 | the first `i` frames of a longer loop are the frames of `i` steps |
| `Frames.FrameIsStep` | src/worker.ts:200-204 | frame `i` is what step `i` captures from the heap the earlier steps left |
| `Frames.RunFramesSplit` | src/worker.ts:200-204 | `a` steps followed by `b` steps give the frames and heap of `a + b` steps |
| `Frames.PixelBuffersShape` | src/worker.ts:217 | mapping the frames to their buffers succeeds exactly when no buffer is null, and then keeps their order |
| `Frames.TransferListShape` | src/worker.ts:214-219 | the transfer list exists exactly when every frame has a buffer; it is the state's buffer, then each frame's, `1 + frames` long |
| `Jobs.Worker.constructor` | src/worker.ts:47-74 | at module load no engine is built and every last-game hash is `''` |
| `Jobs.Worker.EngineFor` | src/worker.ts:79-92 | the family's memoized engine is reused; when there is none, a fresh engine is built and set up once and memoized; nothing else changes |
| `Jobs.Worker.Reload` | src/worker.ts:102-136 | the reload decision is `ShouldReload` on the family's last hash; on reload exactly that family's hash becomes the incoming one |
| `Jobs.Worker.Play` | src/worker.ts:119-206 | the engine's heap and the output are `Session`'s (optional ROM load, av info, optional restore, frames, save), and the log gains exactly `SessionCalls` |
| `Jobs.Worker.PlayOn` | src/worker.ts:138-206 | the same, on the family's engine, and no other engine changes |
| `Jobs.Worker.Serve` | src/worker.ts:98-231 | for a known family, the new worker state and the output are `JobOn`'s |
| `Jobs.Worker.Work` | src/worker.ts:76-231 | the job handler's result and the worker's new state are exactly `Job`'s |
| `JobProperties.ReloadRule` | src/worker.ts:119-143 | with an absent or non-empty state, the ROM is reloaded if and only if the hash changed; an empty state always reloads; a restored state never forces a reload of the same game |
| `JobProperties.ResolveHashRule` | src/worker.ts:98-100 | a supplied non-empty hash is used; an absent or empty one is replaced by `crc32(game)` |
| `JobProperties.UnknownCoreType` | src/worker.ts:94-95 | an unknown core type fails with `Unknown core type: <type>` and changes nothing |
| `JobProperties.GbaIsGb` | src/worker.ts:89-135 | a GBA job and a GB job with the same data have the same result and effect |
| `JobProperties.JobOutput` | src/worker.ts:138-229 | a known-family job succeeds; its output has the resolved hash, the av info after the optional ROM load, exactly `duration` frames where frame `i` is step `i` from the restored heap, and the snapshot of the heap after the last frame, which is the engine's heap |
| `JobProperties.JobHashes` | src/worker.ts:119-136 | after a job the family's last hash is the job's hash, other families' hashes are untouched, and without a reload none changes |
| `JobProperties.SessionCallsShape` | src/worker.ts:119-206 | the engine sees a ROM load first exactly on reload, then av info, then a state load exactly for a non-empty state, then `duration` runs, then the save last, and never `setup` |
| `JobProperties.JobEngines` | src/worker.ts:79-206 | the job's engine gets the session's calls appended; the other engines are untouched |
| `JobProperties.SameGameNoReload` | src/worker.ts:98-136 | a second job of the same family and hash, with an absent or non-empty state, does not load the ROM again |
| `JobProperties.ResumeFromSavedState` | src/worker.ts:141-206 | on an engine that restores what it saves, `a` frames, then `b` frames resumed from the saved state, give the frames, heap and state of one run of `a + b` frames |
| `JobProperties.JobSetUpOnce` | src/worker.ts:72-92 | a job keeps every built engine set up exactly once; a built engine stays built and its log only grows, so it is never replaced |
| `JobProperties.SessionSaves` | src/worker.ts:206 | every job saves the state exactly once |
| `JobProperties.JobKeepsLog` | src/worker.ts:72-92 | a job never replaces an engine: the old log is a prefix of the new one, which gains one state save for the job's family and none for the others |
| `JobProperties.RunJobsSetUpOnce` | src/worker.ts:72-92 | over any sequence of jobs every engine stays set up exactly once; a family's engine exists exactly when it existed before or some job named the family; its earlier log is a prefix of its final one; and it gains one state save per job naming the family |
| `JobProperties.InitialSetUpOnce` | src/worker.ts:72-92 | from module load, a family's engine exists exactly when some job named that family; its log starts with the one `setup` call; and it holds one state save per job of the family, so one engine, built once, served them all |

## Left out

- The worker pool (Piscina), the promises and `await`. Jobs run one at a time on the worker's state. `Piscina.move` and the value/transfer getters are modelled as the `Output` value and the `Transfer` list.
- Concurrent jobs on one worker, and a memoized promise whose initialisation rejects (the rejected promise would stay memoized). Both are left out because the model has no asynchrony.
- The engines themselves (quicknes, snes9x2010, mgba) and the `loadRom` / `loadState` / `saveState` helpers of `src/util.ts`. `src/util.ts` is not part of this model. Each entry point is a function that the `Core` value supplies.
- `crc32` from hash-wasm is a parameter of the worker.
- When an engine calls the environment handler is the engine's business. The handler is modelled, and so is its heap effect, but it is not placed inside the entry points.
- `Engines.Engine.Environment`: a store at a non-integer or out-of-range `data` is ignored, as a typed array ignores it. JavaScript's loose `==` on non-number commands is not modelled.
- The contents of `av_info` beyond the four sizes, including the timing fields. The object is passed through unchanged.
- `Cores.Core.getAvInfo` and `Cores.Core.saveState` are functions from the heap alone, so in the model `retro_get_system_av_info` and `saveState` can never change the heap. `JobProperties.JobOutput` and `JobProperties.ResumeFromSavedState` rely on this.
- Engine entry points never fail in the model. In the source, a throwing `loadRom`, `loadState`, `retro_run` or `saveState` rejects the job. `Jobs.Worker.Reload` records the family's hash before the ROM load, while the source records it only after `loadRom` returns (src/worker.ts:120-135). The two orders agree because no entry point throws here. In the source, a throwing `loadRom` would leave the old hash, and the next job would load the ROM again.
- `retro_run` calls `video_refresh` exactly once per run. A run with no refresh would leave the source's promise pending forever.
- `Frames.Pixels`: an odd `data` pointer or odd byte count is floored as `subarray` floors it. Non-integer sizes and a non-integer or negative `duration` are not modelled (`duration` is a `nat`).
- `Joypad.InputStateCallback` computes the mask as a 16-bit value, libretro's `int16_t`. JavaScript computes in 32 bits, and the two agree because no bit above 9 is ever set.
- Building the transfer list throws on a frame with a null buffer (`frame.buffer.buffer`). The model gives `None` there and does not model the exception.
- `newState.buffer` is modelled as the state's own bytes. An underlying `ArrayBuffer` larger than the view is not modelled.
