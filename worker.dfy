/** The job function of the worker: pick (and on first use build) the
    engine for the job's console family, decide from the per-family game
    hash whether the ROM must be loaded again, restore the state, run the
    frames, save the state and package the result. */
module Jobs {
  import opened Joypad
  import opened Cores
  import opened Frames
  import opened Engines

  /** The console named by a job; `Other` stands for any value outside the enumeration. */
  datatype CoreType = NES | SNES | GBA | GB | Other(name: string)

  /** The three engine families: NES, SNES, and the one engine GBA and GB share. */
  datatype Family = NesFamily | SnesFamily | GbFamily

  function FamilyOf(coreType: CoreType): Option<Family>
  {
    match coreType
    case NES => Some(NesFamily)
    case SNES => Some(SnesFamily)
    case GBA => Some(GbFamily)
    case GB => Some(GbFamily)
    case Other(_) => None
  }

  /** The three engine builds. */
  datatype CoreSet = CoreSet(nes: Core, snes: Core, gb: Core)

  function CoreOf(cores: CoreSet, family: Family): Core
  {
    match family
    case NesFamily => cores.nes
    case SnesFamily => cores.snes
    case GbFamily => cores.gb
  }

  /** A job: the buttons to hold, how many frames to run, the console, the
      ROM, the saved state to resume from (possibly absent) and the ROM's
      hash when the caller knows it. */
  datatype WorkerData = WorkerData(
    input: InputState, duration: nat, coreType: CoreType, game: Bytes,
    state: Option<Bytes>, gameHash: Option<string>)

  /** The job's result, which is also its value view. */
  datatype Output = Output(avInfo: AvInfo, frames: seq<Frame>, state: Bytes, gameHash: string)

  datatype JobResult = Failed(message: string) | Done(output: Output)

  /** The list of buffers the result hands over; `None` where building it throws. */
  function Transfer(output: Output): Option<seq<Transferable>>
  {
    TransferList(output.state, output.frames)
  }

  /** `gameHash ? gameHash : crc32(game)`: a supplied hash counts only when it is a non-empty string. */
  function ResolveHash(gameHash: Option<string>, game: Bytes, crc32: Bytes -> string): string
  {
    if gameHash.Some? && gameHash.value != "" then gameHash.value else crc32(game)
  }

  /** `incomingGameHash != lastGameHash || state?.byteLength == 0`: an absent state does not count as empty. */
  predicate ShouldReload(incoming: string, last: string, state: Option<Bytes>)
  {
    incoming != last || (state.Some? && |state.value| == 0)
  }

  /** `state?.byteLength > 0`. */
  predicate ShouldRestore(state: Option<Bytes>)
  {
    state.Some? && |state.value| > 0
  }

  /** The three last-game hashes. */
  datatype Hashes = Hashes(nes: string, snes: string, gb: string)
  {
    function Get(family: Family): string
    {
      match family
      case NesFamily => nes
      case SnesFamily => snes
      case GbFamily => gb
    }

    function Set(family: Family, hash: string): Hashes
    {
      match family
      case NesFamily => this.(nes := hash)
      case SnesFamily => this.(snes := hash)
      case GbFamily => this.(gb := hash)
    }
  }

  /** An engine seen from outside: its heap and the calls made into it. */
  datatype EngineView = EngineView(memory: Bytes, log: seq<Call>)

  /** The worker's module-level state: the three memoized engines (absent
      until first used) and the three last-game hashes. */
  datatype WorkerView = WorkerView(nes: Option<EngineView>, snes: Option<EngineView>, gb: Option<EngineView>, hashes: Hashes)
  {
    function Engine(family: Family): Option<EngineView>
    {
      match family
      case NesFamily => nes
      case SnesFamily => snes
      case GbFamily => gb
    }

    function WithEngine(family: Family, engine: EngineView): WorkerView
    {
      match family
      case NesFamily => this.(nes := Some(engine))
      case SnesFamily => this.(snes := Some(engine))
      case GbFamily => this.(gb := Some(engine))
    }

    /** Readying the engine of `family`, then perhaps recording `incoming`
        as its hash, then replacing the engine again, is one replacement and
        one hash update. */
    lemma ReadyRememberPlay(family: Family, ready: EngineView, done: EngineView, reload: bool, incoming: string)
      ensures WithEngine(family, ready).hashes == hashes
      ensures var readied := WithEngine(family, ready);
        var remembered := if reload then readied.(hashes := readied.hashes.Set(family, incoming)) else readied;
        remembered.WithEngine(family, done)
          == WithEngine(family, done).(hashes := if reload then hashes.Set(family, incoming) else hashes)
    {
    }
  }

  const Initial := WorkerView(None, None, None, Hashes("", "", ""))

  /** The calls one job makes into its engine once the engine is ready. */
  function SessionCalls(data: WorkerData, reload: bool): seq<Call>
  {
    (if reload then [Call.LoadRom(data.game)] else [])
    + [Call.GetAvInfo]
    + (if ShouldRestore(data.state) then [Call.LoadState(data.state.value)] else [])
    + Runs(data.input, data.duration)
    + [Call.SaveState]
  }

  /** One job on a ready engine: optional ROM load, av info, optional state
      restore, `duration` frames, state save. Gives the output and the heap after. */
  function Session(core: Core, memory: Bytes, data: WorkerData, reload: bool, hash: string): (Output, Bytes)
  {
    var loaded := if reload then core.loadRom(memory, data.game) else memory;
    var avInfo := core.getAvInfo(loaded);
    var restored := if ShouldRestore(data.state) then core.loadState(loaded, data.state.value) else loaded;
    var run := RunFrames(core, data.input, restored, data.duration);
    (Output(avInfo, run.0, core.saveState(run.1), hash), run.1)
  }

  /** The engine of `family`, built and set up if the worker has none yet. */
  function Ready(cores: CoreSet, w: WorkerView, family: Family): EngineView
  {
    if w.Engine(family).Some? then w.Engine(family).value
    else EngineView(CoreOf(cores, family).initialMemory, [Call.SetEnvironment])
  }

  /** A job for a known family: the worker's state after it and the output. */
  function JobOn(cores: CoreSet, crc32: Bytes -> string, w: WorkerView, family: Family, data: WorkerData): (WorkerView, Output)
  {
    var engine := Ready(cores, w, family);
    var incoming := ResolveHash(data.gameHash, data.game, crc32);
    var reload := ShouldReload(incoming, w.hashes.Get(family), data.state);
    var session := Session(CoreOf(cores, family), engine.memory, data, reload, incoming);
    var hashes := if reload then w.hashes.Set(family, incoming) else w.hashes;
    (w.WithEngine(family, EngineView(session.1, engine.log + SessionCalls(data, reload))).(hashes := hashes),
     session.0)
  }

  /** One job: the worker's state after it and the job's result. */
  function Job(cores: CoreSet, crc32: Bytes -> string, w: WorkerView, data: WorkerData): (WorkerView, JobResult)
  {
    match FamilyOf(data.coreType)
    case None => (w, Failed("Unknown core type: " + data.coreType.name))
    case Some(family) =>
      var (w', output) := JobOn(cores, crc32, w, family, data);
      (w', Done(output))
  }

  /** Appending five pieces one at a time is appending their concatenation. */
  lemma AppendFive<T>(s: seq<T>, a: seq<T>, b: seq<T>, c: seq<T>, d: seq<T>, e: seq<T>)
    ensures s + (a + b + c + d + e) == s + a + b + c + d + e
  {
  }

  class Worker {
    const cores: CoreSet
    const crc32: Bytes -> string
    /** The memoized engines `nesCoreInit`, `snesCoreInit`, `gbCoreInit`. */
    var nesCore: Engine?
    var snesCore: Engine?
    var gbCore: Engine?
    var lastNesGameHash: string
    var lastSnesGameHash: string
    var lastGbGameHash: string

    /** The engines are distinct objects, each built from its family's core. */
    ghost predicate Valid()
      reads this
    {
      && (nesCore != null ==> nesCore.core == cores.nes)
      && (snesCore != null ==> snesCore.core == cores.snes)
      && (gbCore != null ==> gbCore.core == cores.gb)
      && (nesCore != null && snesCore != null ==> nesCore != snesCore)
      && (nesCore != null && gbCore != null ==> nesCore != gbCore)
      && (snesCore != null && gbCore != null ==> snesCore != gbCore)
    }

    ghost function ViewOf(engine: Engine?): Option<EngineView>
      reads engine
    {
      if engine == null then None else Some(EngineView(engine.memory, engine.log))
    }

    ghost function View(): WorkerView
      reads this, nesCore, snesCore, gbCore
    {
      WorkerView(ViewOf(nesCore), ViewOf(snesCore), ViewOf(gbCore),
                 Hashes(lastNesGameHash, lastSnesGameHash, lastGbGameHash))
    }

    constructor(cores: CoreSet, crc32: Bytes -> string)
      ensures this.cores == cores && this.crc32 == crc32
      ensures Valid() && View() == Initial
    {
      this.cores := cores;
      this.crc32 := crc32;
      nesCore, snesCore, gbCore := null, null, null;
      lastNesGameHash, lastSnesGameHash, lastGbGameHash := "", "", "";
    }

    /** The field that memoizes the engine of `family`. */
    function Slot(family: Family): Engine?
      reads this
    {
      match family
      case NesFamily => nesCore
      case SnesFamily => snesCore
      case GbFamily => gbCore
    }

    /** The engine of `family`: the memoized one, or a new one that `setup` has prepared. */
    method EngineFor(family: Family) returns (engine: Engine)
      requires Valid()
      modifies this
      ensures Valid() && Slot(family) == engine && engine.core == CoreOf(cores, family)
      ensures old(Slot(family)) != null ==> engine == old(Slot(family))
      ensures old(Slot(family)) == null ==> fresh(engine)
      ensures EngineView(engine.memory, engine.log) == Ready(cores, old(View()), family)
      ensures View() == old(View()).WithEngine(family, Ready(cores, old(View()), family))
    {
      if Slot(family) != null {
        engine := Slot(family);
        ghost var w := View();
        assert w.WithEngine(family, w.Engine(family).value) == w;
        return;
      }
      engine := new Engine(CoreOf(cores, family));
      engine.Setup();
      assert engine.log == [Call.SetEnvironment];
      match family
      case NesFamily => nesCore := engine;
      case SnesFamily => snesCore := engine;
      case GbFamily => gbCore := engine;
    }

    /** The hash of the game the engine of `family` last loaded. */
    function LastGameHash(family: Family): string
      reads this
    {
      match family
      case NesFamily => lastNesGameHash
      case SnesFamily => lastSnesGameHash
      case GbFamily => lastGbGameHash
    }

    /** The reload decision: reload when the incoming hash differs from the
        family's last one or the state is present and empty, and then record
        the incoming hash as the family's last one. */
    method Reload(family: Family, incoming: string, state: Option<Bytes>) returns (reload: bool)
      requires Valid()
      modifies this
      ensures Valid() && Slot(family) == old(Slot(family))
      ensures reload == ShouldReload(incoming, old(View()).hashes.Get(family), state)
      ensures View() == if reload then old(View()).(hashes := old(View()).hashes.Set(family, incoming)) else old(View())
    {
      var lastGameHash := LastGameHash(family);
      reload := incoming != lastGameHash || (state.Some? && |state.value| == 0);
      if reload {
        match family
        case NesFamily => lastNesGameHash := incoming;
        case SnesFamily => lastSnesGameHash := incoming;
        case GbFamily => lastGbGameHash := incoming;
      }
    }

    /** The part of a job that talks to its ready engine: the ROM load when
        `reload`, av info, the state restore, the frame loop and the state save. */
    method Play(engine: Engine, data: WorkerData, reload: bool, incoming: string) returns (output: Output)
      modifies engine
      ensures (output, engine.memory) == Session(engine.core, old(engine.memory), data, reload, incoming)
      ensures engine.log == old(engine.log) + SessionCalls(data, reload)
    {
      ghost var before := engine.log;
      if reload {
        engine.LoadRom(data.game);
      }
      ghost var romCalls := if reload then [Call.LoadRom(data.game)] else [];
      assert engine.log == before + romCalls;
      var avInfo := engine.GetAvInfo();
      if data.state.Some? && |data.state.value| > 0 {
        engine.LoadState(data.state.value);
      }
      ghost var restored := engine.memory;
      ghost var stateCalls := if ShouldRestore(data.state) then [Call.LoadState(data.state.value)] else [];
      assert engine.log == before + romCalls + [Call.GetAvInfo] + stateCalls;
      var frames := engine.ExecuteFrames(data.input, data.duration);
      assert (frames, engine.memory) == RunFrames(engine.core, data.input, restored, data.duration);
      var newState := engine.SaveState();
      output := Output(avInfo, frames, newState, incoming);
      AppendFive(before, romCalls, [Call.GetAvInfo], stateCalls,
                 Runs(data.input, data.duration), [Call.SaveState]);
    }

    /** `Play` on the engine of `family`: that engine is the only one that changes. */
    method PlayOn(family: Family, engine: Engine, data: WorkerData, reload: bool, incoming: string)
      returns (output: Output)
      requires Valid() && Slot(family) == engine
      modifies engine
      ensures Valid()
      ensures (output, engine.memory) == Session(engine.core, old(engine.memory), data, reload, incoming)
      ensures engine.log == old(engine.log) + SessionCalls(data, reload)
      ensures View() == old(View()).WithEngine(family, EngineView(engine.memory, engine.log))
    {
      output := Play(engine, data, reload, incoming);
    }

    /** Everything the job handler does once it knows the family: engine,
        game hash, reload decision and hash update, then the session. */
    method Serve(family: Family, data: WorkerData) returns (output: Output)
      requires Valid()
      modifies this, nesCore, snesCore, gbCore
      ensures Valid()
      ensures (View(), output) == JobOn(cores, crc32, old(View()), family, data)
    {
      ghost var w := View();
      var engine := EngineFor(family);
      ghost var ready := Ready(cores, w, family);
      var incoming := ResolveHash(data.gameHash, data.game, crc32);
      var reload := Reload(family, incoming, data.state);
      output := PlayOn(family, engine, data, reload, incoming);
      w.ReadyRememberPlay(family, ready, EngineView(engine.memory, engine.log), reload, incoming);
    }

    /** The job handler: the engine family named by the core type, or the
        unknown-core-type error. */
    method Work(data: WorkerData) returns (result: JobResult)
      requires Valid()
      modifies this, nesCore, snesCore, gbCore
      ensures Valid()
      ensures (View(), result) == Job(cores, crc32, old(View()), data)
    {
      var family: Family;
      match data.coreType {
        case NES => family := NesFamily;
        case SNES => family := SnesFamily;
        case GBA => family := GbFamily;
        case GB => family := GbFamily;
        case Other(name) =>
          return Failed("Unknown core type: " + name);
      }
      var output := Serve(family, data);
      result := Done(output);
    }
  }
}

/** Properties of the job function. */
module JobProperties {
  import opened Joypad
  import opened Cores
  import opened Frames
  import opened Engines
  import opened Jobs

  // The reload and restore rules

  /** With the state absent or non-empty the ROM is reloaded exactly when
      the hash differs; with an empty state it always is. */
  lemma ReloadRule(incoming: string, last: string, state: Option<Bytes>)
    ensures state.None? ==> (ShouldReload(incoming, last, state) <==> incoming != last)
    ensures state.Some? && |state.value| > 0 ==> (ShouldReload(incoming, last, state) <==> incoming != last)
    ensures state.Some? && |state.value| == 0 ==> ShouldReload(incoming, last, state)
    ensures ShouldRestore(state) ==> !ShouldReload(incoming, incoming, state)
  {
  }

  /** A supplied non-empty hash is used as is; an absent or empty one is replaced by the CRC-32 of the ROM. */
  lemma ResolveHashRule(gameHash: Option<string>, game: Bytes, crc32: Bytes -> string)
    ensures gameHash.Some? && gameHash.value != "" ==> ResolveHash(gameHash, game, crc32) == gameHash.value
    ensures gameHash.None? || gameHash.value == "" ==> ResolveHash(gameHash, game, crc32) == crc32(game)
  {
  }

  // One job

  /** An unknown core type fails with its message and changes nothing. */
  lemma UnknownCoreType(cores: CoreSet, crc32: Bytes -> string, w: WorkerView, data: WorkerData)
    requires data.coreType.Other?
    ensures Job(cores, crc32, w, data) == (w, Failed("Unknown core type: " + data.coreType.name))
  {
  }

  /** GBA and GB jobs are the same job: they share one engine and one hash. */
  lemma GbaIsGb(cores: CoreSet, crc32: Bytes -> string, w: WorkerView, data: WorkerData)
    ensures Job(cores, crc32, w, data.(coreType := GBA)) == Job(cores, crc32, w, data.(coreType := GB))
  {
  }

  /** The heap a job's frames start from: after the optional ROM load and the optional state restore. */
  function Restored(core: Core, memory: Bytes, data: WorkerData, reload: bool): Bytes
  {
    var loaded := if reload then core.loadRom(memory, data.game) else memory;
    if ShouldRestore(data.state) then core.loadState(loaded, data.state.value) else loaded
  }

  /** A job on a known family succeeds; its output carries the resolved hash,
      the av info read after the optional ROM load, exactly `duration`
      frames, frame `i` being what step `i` captures from the restored heap,
      and the snapshot of the heap after the last frame. */
  lemma JobOutput(cores: CoreSet, crc32: Bytes -> string, w: WorkerView, data: WorkerData)
    requires FamilyOf(data.coreType).Some?
    ensures Job(cores, crc32, w, data).1.Done?
    ensures var family := FamilyOf(data.coreType).value;
      var core := CoreOf(cores, family);
      var engine := Ready(cores, w, family);
      var incoming := ResolveHash(data.gameHash, data.game, crc32);
      var reload := ShouldReload(incoming, w.hashes.Get(family), data.state);
      var start := Restored(core, engine.memory, data, reload);
      var output := Job(cores, crc32, w, data).1.output;
      && output.gameHash == incoming
      && output.avInfo == core.getAvInfo(if reload then core.loadRom(engine.memory, data.game) else engine.memory)
      && |output.frames| == data.duration
      && (forall i :: 0 <= i < data.duration ==>
            output.frames[i] == Step(core, data.input, After(core, data.input, start, i)).0)
      && output.state == core.saveState(After(core, data.input, start, data.duration))
      && Job(cores, crc32, w, data).0.Engine(family).value.memory == After(core, data.input, start, data.duration)
  {
    var family := FamilyOf(data.coreType).value;
    var core := CoreOf(cores, family);
    var engine := Ready(cores, w, family);
    var incoming := ResolveHash(data.gameHash, data.game, crc32);
    var reload := ShouldReload(incoming, w.hashes.Get(family), data.state);
    var start := Restored(core, engine.memory, data, reload);
    RunFramesLength(core, data.input, start, data.duration);
    forall i | 0 <= i < data.duration
      ensures RunFrames(core, data.input, start, data.duration).0[i]
           == Step(core, data.input, After(core, data.input, start, i)).0
    {
      FrameIsStep(core, data.input, start, i, data.duration);
    }
  }

  /** After a job on a known family, that family's last hash is the job's
      hash (set by a reload, or equal already), the other families' hashes
      are untouched, and a hash changes only by a reload. */
  lemma JobHashes(cores: CoreSet, crc32: Bytes -> string, w: WorkerView, data: WorkerData, other: Family)
    requires FamilyOf(data.coreType).Some?
    ensures var family := FamilyOf(data.coreType).value;
      var after := Job(cores, crc32, w, data).0.hashes;
      var incoming := ResolveHash(data.gameHash, data.game, crc32);
      && after.Get(family) == incoming
      && (other != family ==> after.Get(other) == w.hashes.Get(other))
      && (!ShouldReload(incoming, w.hashes.Get(family), data.state) ==> after == w.hashes)
  {
  }

  /** The calls a job makes into its engine: a ROM load exactly on reload,
      first; a state load exactly when the state is non-empty; `duration`
      frame steps; and the state save last. */
  lemma SessionCallsShape(data: WorkerData, reload: bool)
    ensures var calls := SessionCalls(data, reload);
      var r := if reload then 1 else 0;
      var s := if ShouldRestore(data.state) then 1 else 0;
      && |calls| == r + 1 + s + data.duration + 1
      && (reload ==> calls[0] == Call.LoadRom(data.game))
      && calls[r] == Call.GetAvInfo
      && (ShouldRestore(data.state) ==> calls[r + 1] == Call.LoadState(data.state.value))
      && (forall i :: r + 1 + s <= i < r + 1 + s + data.duration ==> calls[i] == Run(data.input))
      && calls[|calls| - 1] == Call.SaveState
      && (forall i :: 0 <= i < |calls| ==> calls[i] != Call.SetEnvironment)
  {
    var calls := SessionCalls(data, reload);
    var r := if reload then 1 else 0;
    var s := if ShouldRestore(data.state) then 1 else 0;
    var runs := Runs(data.input, data.duration);
    forall i | r + 1 + s <= i < r + 1 + s + data.duration
      ensures calls[i] == Run(data.input)
    {
      assert calls[i] == runs[i - (r + 1 + s)];
    }
  }

  /** The engine of the job's family gets the session's calls appended; the others are untouched. */
  lemma JobEngines(cores: CoreSet, crc32: Bytes -> string, w: WorkerView, data: WorkerData, other: Family)
    requires FamilyOf(data.coreType).Some?
    ensures var family := FamilyOf(data.coreType).value;
      var after := Job(cores, crc32, w, data).0;
      var incoming := ResolveHash(data.gameHash, data.game, crc32);
      && after.Engine(family).Some?
      && after.Engine(family).value.log
         == Ready(cores, w, family).log + SessionCalls(data, ShouldReload(incoming, w.hashes.Get(family), data.state))
      && (other != family ==> after.Engine(other) == w.Engine(other))
  {
  }

  // Two jobs in a row

  /** A second job of the same family with the same game hash does not load
      the ROM again unless its state is present and empty. */
  lemma SameGameNoReload(cores: CoreSet, crc32: Bytes -> string, w: WorkerView, first: WorkerData, second: WorkerData)
    requires FamilyOf(first.coreType).Some? && FamilyOf(second.coreType) == FamilyOf(first.coreType)
    requires ResolveHash(second.gameHash, second.game, crc32) == ResolveHash(first.gameHash, first.game, crc32)
    requires second.state.None? || |second.state.value| > 0
    ensures var family := FamilyOf(first.coreType).value;
      var between := Job(cores, crc32, w, first).0;
      && between.Engine(family).Some?
      && !ShouldReload(ResolveHash(second.gameHash, second.game, crc32), between.hashes.Get(family), second.state)
      && Job(cores, crc32, between, second).0.Engine(family).value.log
         == between.Engine(family).value.log + SessionCalls(second, false)
  {
    var family := FamilyOf(first.coreType).value;
    var between := Job(cores, crc32, w, first).0;
    JobHashes(cores, crc32, w, first, family);
    JobEngines(cores, crc32, w, first, family);
    JobEngines(cores, crc32, between, second, family);
  }

  /** The engine gives back, on loading a snapshot, the heap it was saved from. */
  ghost predicate RestoresSaved(core: Core)
  {
    forall memory: Bytes, saved: Bytes :: core.loadState(memory, core.saveState(saved)) == saved
  }

  /** Resuming: a job of `a` frames, then a job of `b` frames on the same game
      and family with the same input, started from the first job's saved
      state, produce together the frames, the heap and the saved state of one
      run of `a + b` frames, when the engine restores what it saves. */
  lemma ResumeFromSavedState(cores: CoreSet, crc32: Bytes -> string, w: WorkerView, first: WorkerData, second: WorkerData)
    requires FamilyOf(first.coreType).Some? && FamilyOf(second.coreType) == FamilyOf(first.coreType)
    requires RestoresSaved(CoreOf(cores, FamilyOf(first.coreType).value))
    requires ResolveHash(second.gameHash, second.game, crc32) == ResolveHash(first.gameHash, first.game, crc32)
    requires second.input == first.input
    requires second.state == Some(Job(cores, crc32, w, first).1.output.state)
    requires |Job(cores, crc32, w, first).1.output.state| > 0
    ensures var family := FamilyOf(first.coreType).value;
      var core := CoreOf(cores, family);
      var engine := Ready(cores, w, family);
      var reload := ShouldReload(ResolveHash(first.gameHash, first.game, crc32), w.hashes.Get(family), first.state);
      var start := Restored(core, engine.memory, first, reload);
      var (between, one) := Job(cores, crc32, w, first);
      var (after, two) := Job(cores, crc32, between, second);
      && one.output.frames + two.output.frames == RunFrames(core, first.input, start, first.duration + second.duration).0
      && after.Engine(family).value.memory == After(core, first.input, start, first.duration + second.duration)
      && two.output.state == core.saveState(After(core, first.input, start, first.duration + second.duration))
  {
    var family := FamilyOf(first.coreType).value;
    var core := CoreOf(cores, family);
    var engine := Ready(cores, w, family);
    var reload := ShouldReload(ResolveHash(first.gameHash, first.game, crc32), w.hashes.Get(family), first.state);
    var start := Restored(core, engine.memory, first, reload);
    var between := Job(cores, crc32, w, first).0;
    JobOutput(cores, crc32, w, first);
    SameGameNoReload(cores, crc32, w, first, second);
    var middle := After(core, first.input, start, first.duration);
    assert between.Engine(family).value.memory == middle;
    var saved := core.saveState(middle);
    assert Restored(core, middle, second, false) == middle;
    RunFramesSplit(core, first.input, start, first.duration, second.duration);
  }

  // Several jobs

  /** Jobs one after the other: the worker's state after the last one and every job's result. */
  function RunJobs(cores: CoreSet, crc32: Bytes -> string, w: WorkerView, jobs: seq<WorkerData>): (WorkerView, seq<JobResult>)
    decreases |jobs|
  {
    if jobs == [] then (w, [])
    else
      var first := Job(cores, crc32, w, jobs[0]);
      var rest := RunJobs(cores, crc32, first.0, jobs[1..]);
      (rest.0, [first.1] + rest.1)
  }

  /** An engine log that starts with the one `setup` call and has no other. */
  predicate SetUpOnce(engine: EngineView)
  {
    |engine.log| > 0 && engine.log[0] == Call.SetEnvironment
    && forall i :: 0 < i < |engine.log| ==> engine.log[i] != Call.SetEnvironment
  }

  /** Every engine the worker has built was set up exactly once. */
  predicate AllSetUpOnce(w: WorkerView)
  {
    forall family: Family :: w.Engine(family).Some? ==> SetUpOnce(w.Engine(family).value)
  }

  /** The calls made so far into the engine of `family`; none while it is not built. */
  function LogOf(w: WorkerView, family: Family): seq<Call>
  {
    if w.Engine(family).Some? then w.Engine(family).value.log else []
  }

  /** The number of state saves in a log: one per job the engine served. */
  function Saves(log: seq<Call>): nat
  {
    if log == [] then 0
    else Saves(log[..|log| - 1]) + if log[|log| - 1] == Call.SaveState then 1 else 0
  }

  /** The number of jobs that name `family`. */
  function Named(jobs: seq<WorkerData>, family: Family): nat
  {
    if jobs == [] then 0
    else (if FamilyOf(jobs[0].coreType) == Some(family) then 1 else 0) + Named(jobs[1..], family)
  }

  lemma {:induction false} SavesAppend(a: seq<Call>, b: seq<Call>)
    ensures Saves(a + b) == Saves(a) + Saves(b)
    decreases |b|
  {
    if b != [] {
      assert (a + b)[..|a + b| - 1] == a + b[..|b| - 1];
      assert (a + b)[|a + b| - 1] == b[|b| - 1];
      SavesAppend(a, b[..|b| - 1]);
    } else {
      assert a + b == a;
    }
  }

  lemma {:induction false} RunsSaves(input: InputState, n: nat)
    ensures Saves(Runs(input, n)) == 0
  {
    if n > 0 {
      RunsSaves(input, n - 1);
      SavesAppend(Runs(input, n - 1), [Run(input)]);
    }
  }

  /** Every job's calls hold exactly one state save. */
  lemma SessionSaves(data: WorkerData, reload: bool)
    ensures Saves(SessionCalls(data, reload)) == 1
  {
    var rom: seq<Call> := if reload then [Call.LoadRom(data.game)] else [];
    var state: seq<Call> := if ShouldRestore(data.state) then [Call.LoadState(data.state.value)] else [];
    var runs := Runs(data.input, data.duration);
    RunsSaves(data.input, data.duration);
    SavesAppend(rom, [Call.GetAvInfo]);
    SavesAppend(rom + [Call.GetAvInfo], state);
    SavesAppend(rom + [Call.GetAvInfo] + state, runs);
    SavesAppend(rom + [Call.GetAvInfo] + state + runs, [Call.SaveState]);
  }

  /** A job never replaces a built engine: its log only grows, by one
      job's calls (one state save) for the job's family and by nothing for the others. */
  lemma JobKeepsLog(cores: CoreSet, crc32: Bytes -> string, w: WorkerView, data: WorkerData, family: Family)
    ensures w.Engine(family).Some? ==> Job(cores, crc32, w, data).0.Engine(family).Some?
    ensures LogOf(w, family) <= LogOf(Job(cores, crc32, w, data).0, family)
    ensures Saves(LogOf(Job(cores, crc32, w, data).0, family))
         == Saves(LogOf(w, family)) + if FamilyOf(data.coreType) == Some(family) then 1 else 0
  {
    if FamilyOf(data.coreType).Some? {
      JobEngines(cores, crc32, w, data, family);
      if FamilyOf(data.coreType) == Some(family) {
        var incoming := ResolveHash(data.gameHash, data.game, crc32);
        var reload := ShouldReload(incoming, w.hashes.Get(family), data.state);
        var ready := Ready(cores, w, family);
        SessionSaves(data, reload);
        SavesAppend(ready.log, SessionCalls(data, reload));
        if w.Engine(family).None? {
          assert Saves(ready.log) == Saves([]) + 0;
        }
      }
    }
  }

  /** A job keeps every engine set up exactly once, and an engine once built
      stays built and keeps its log as a prefix: it is never replaced. */
  lemma JobSetUpOnce(cores: CoreSet, crc32: Bytes -> string, w: WorkerView, data: WorkerData)
    requires AllSetUpOnce(w)
    ensures AllSetUpOnce(Job(cores, crc32, w, data).0)
    ensures forall family: Family :: w.Engine(family).Some? ==> Job(cores, crc32, w, data).0.Engine(family).Some?
    ensures forall family: Family :: LogOf(w, family) <= LogOf(Job(cores, crc32, w, data).0, family)
  {
    forall family: Family
      ensures LogOf(w, family) <= LogOf(Job(cores, crc32, w, data).0, family)
    {
      JobKeepsLog(cores, crc32, w, data, family);
    }
    if FamilyOf(data.coreType).Some? {
      var family := FamilyOf(data.coreType).value;
      var incoming := ResolveHash(data.gameHash, data.game, crc32);
      var reload := ShouldReload(incoming, w.hashes.Get(family), data.state);
      var ready := Ready(cores, w, family);
      var calls := SessionCalls(data, reload);
      SessionCallsShape(data, reload);
      assert SetUpOnce(ready);
      var log := ready.log + calls;
      assert forall i :: 0 < i < |log| ==> log[i] != Call.SetEnvironment by {
        forall i | 0 < i < |log|
          ensures log[i] != Call.SetEnvironment
        {
          if i >= |ready.log| {
            assert log[i] == calls[i - |ready.log|];
          }
        }
      }
      forall other: Family
        ensures Job(cores, crc32, w, data).0.Engine(other)
             == if other == family then Some(EngineView(Job(cores, crc32, w, data).0.Engine(family).value.memory, log))
                else w.Engine(other)
      {
        JobEngines(cores, crc32, w, data, other);
      }
    }
  }

  /** Some job names `family` exactly when the first does or one of the rest does. */
  lemma NamesFirstOrRest(jobs: seq<WorkerData>, family: Family)
    requires jobs != []
    ensures (exists i :: 0 <= i < |jobs| && FamilyOf(jobs[i].coreType) == Some(family))
        <==> FamilyOf(jobs[0].coreType) == Some(family)
             || exists i :: 0 <= i < |jobs[1..]| && FamilyOf(jobs[1..][i].coreType) == Some(family)
  {
    if exists i :: 0 <= i < |jobs| && FamilyOf(jobs[i].coreType) == Some(family) {
      var i :| 0 <= i < |jobs| && FamilyOf(jobs[i].coreType) == Some(family);
      if i > 0 {
        assert FamilyOf(jobs[1..][i - 1].coreType) == Some(family);
      }
    }
  }

  /** Whatever jobs run: every engine stays set up exactly once; the engine
      of a family exists exactly when it did before or some job named the
      family; its earlier log is a prefix of its later one, so it is never
      replaced; and it gains one state save per job naming the family. */
  lemma {:induction false} RunJobsSetUpOnce(cores: CoreSet, crc32: Bytes -> string, w: WorkerView, jobs: seq<WorkerData>, family: Family)
    requires AllSetUpOnce(w)
    ensures AllSetUpOnce(RunJobs(cores, crc32, w, jobs).0)
    ensures RunJobs(cores, crc32, w, jobs).0.Engine(family).Some?
        <==> w.Engine(family).Some? || exists i :: 0 <= i < |jobs| && FamilyOf(jobs[i].coreType) == Some(family)
    ensures LogOf(w, family) <= LogOf(RunJobs(cores, crc32, w, jobs).0, family)
    ensures Saves(LogOf(RunJobs(cores, crc32, w, jobs).0, family)) == Saves(LogOf(w, family)) + Named(jobs, family)
    decreases |jobs|
  {
    if jobs != [] {
      var w1 := Job(cores, crc32, w, jobs[0]).0;
      JobSetUpOnce(cores, crc32, w, jobs[0]);
      JobKeepsLog(cores, crc32, w, jobs[0], family);
      RunJobsSetUpOnce(cores, crc32, w1, jobs[1..], family);
      assert w1.Engine(family).Some? <==> w.Engine(family).Some? || FamilyOf(jobs[0].coreType) == Some(family) by {
        if FamilyOf(jobs[0].coreType).Some? {
          JobEngines(cores, crc32, w, jobs[0], family);
        }
      }
      NamesFirstOrRest(jobs, family);
    }
  }

  /** From module load, whatever jobs run: a family's engine exists exactly
      when some job named the family; it was set up once, at the start of its
      log; and it is the one engine that served every job of the family,
      one state save per job. */
  lemma InitialSetUpOnce(cores: CoreSet, crc32: Bytes -> string, jobs: seq<WorkerData>, family: Family)
    ensures AllSetUpOnce(RunJobs(cores, crc32, Initial, jobs).0)
    ensures RunJobs(cores, crc32, Initial, jobs).0.Engine(family).Some?
        <==> exists i :: 0 <= i < |jobs| && FamilyOf(jobs[i].coreType) == Some(family)
    ensures Saves(LogOf(RunJobs(cores, crc32, Initial, jobs).0, family)) == Named(jobs, family)
  {
    RunJobsSetUpOnce(cores, crc32, Initial, jobs, family);
  }
}
