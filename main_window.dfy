/**
 * MainWindow: picks the text injector from the environment and, once loaded,
 * runs the whole flow: find the sample WAV, make sure the model is cached,
 * initialise the native engine, transcribe, show the text, type it into the
 * focused window, show the ready status and shut down. Any failure is logged,
 * shown as "Error: <message>" and rethrown.
 */
module MainWindow {
  import opened Wrappers
  import opened Unicode
  import Text
  import Host
  import Paths
  import opened Logging
  import TextInjection
  import ModelManager
  import NativeStub
  import NativeGateway
  import WavFinder

  datatype InjectorKind = ClipboardInjector | SendInputInjector

  /** The clipboard injector when WH_INJECTOR is set, not blank and "clipboard" in any case; SendInput otherwise. */
  function SelectInjector(env: Host.Env): InjectorKind {
    var overrideName := Host.GetVariable(env, "WH_INJECTOR");
    if !Text.IsNullOrWhiteSpace(overrideName) && Text.EqualsIgnoreCase(overrideName.value, "clipboard") then ClipboardInjector
    else SendInputInjector
  }

  /** The externally visible effects of the flow, in the order they happen. */
  datatype Step =
    | AcquireModel
    | InitNative(modelPath: string)
    | Transcribe(wav: string)
    | Show(text: Utf16)
    | Inject(text: Utf16)
    | Ready
    | Shutdown(code: int)

  /** How a run of StartTranscriptionAsync ends: completed, returned early without a WAV, or rethrew. */
  datatype Ending = Done | NoInput | Failed(failure: Host.Failure)

  /** The faults the native side can meet during a run. */
  datatype NativeFaults = NativeFaults(initThrows: bool, transcribe: NativeStub.TranscribeFaults, copyFails: bool)

  /** What the flow reads but never changes. */
  datatype Config = Config(
    env: Host.Env,
    baseDir: string,
    parentOf: WavFinder.ParentOf,
    platform: Host.Platform,
    codec: ModelManager.ManifestCodec,
    kind: InjectorKind,
    answer: TextInjection.Acceptance,
    faults: NativeFaults)

  /**
   * The text of the transcript TextBlock: either a transcript as the native
   * layer returned it (UTF-16 units) or a message the window composes.
   */
  datatype Display = Units(units: Utf16) | Notice(message: string)

  /** Everything the flow changes: files, native state, injector, log, window text, status, exit code and the step trace. */
  datatype World = World(
    disk: Host.DiskState,
    stub: NativeStub.StubState,
    injector: TextInjection.InjectorState,
    entries: seq<Entry>,
    transcriptText: Display,
    statusText: string,
    shutdownCode: Option<int>,
    steps: seq<Step>)

  const NoWavText: Display := Notice(Host.Message(Host.NoWavFailure))
  const ReadyStatus: string := " Ready"

  function Count(n: nat): seq<Field> { [Field("chars", Num(n))] }

  /** The catch block: log transcribe.error and show "Error: <message>"; the exception is then rethrown. */
  function Caught(w: World, f: Host.Failure): World {
    w.(entries := w.entries + [Entry(Level.Error, "transcribe.error", [Field("error", Str(Host.Message(f)))])],
       transcriptText := Notice("Error: " + Host.Message(f)))
  }

  function AcquireStage(cfg: Config, w: World, wav: string): (World, Outcome<Host.Failure>) {
    var run := ModelManager.EnsureModelSpec(cfg.env, w.disk, cfg.platform, cfg.codec);
    (w.(disk := run.disk,
        entries := w.entries + [Entry(Level.Info, "startup", [Field("wav", Str(wav))])] + run.entries,
        steps := w.steps + [AcquireModel]),
     run.outcome)
  }

  function InitStage(cfg: Config, w: World, throws: bool): (World, Outcome<Host.Failure>) {
    var model := ModelManager.ModelPath(cfg.env);
    var (stub, o) := NativeGateway.InitSpec(w.stub, Some(model), throws);
    (w.(stub := stub,
        entries := w.entries + [Entry(Level.Info, "native.init", [Field("model", Str(model))])],
        steps := w.steps + [InitNative(model)]),
     o)
  }

  function TranscribeStage(cfg: Config, w: World, wav: string): (World, Result<Utf16, Host.Failure>) {
    var (stub, t) := NativeGateway.TranscribeSpec(w.stub, Some(wav), cfg.faults.transcribe, cfg.faults.copyFails);
    (w.(stub := stub,
        entries := w.entries + [Entry(Level.Info, "transcribe.start", [Field("path", Str(wav))])],
        steps := w.steps + [Transcribe(wav)]),
     t)
  }

  function Finish(w: World, n: nat): World {
    w.(entries := w.entries + [Entry(Level.Info, "inject.done", Count(n))],
       statusText := ReadyStatus,
       shutdownCode := Some(0),
       steps := w.steps + [Ready, Shutdown(0)])
  }

  /** Logs transcribe.done and inject.start, shows the transcript and hands it to the injector. */
  function Shown(w: World, text: Utf16): World {
    w.(entries := w.entries + [Entry(Level.Info, "transcribe.done", Count(|text|)), Entry(Level.Info, "inject.start", Count(|text|))],
       transcriptText := Units(text),
       steps := w.steps + [Show(text), Inject(text)])
  }

  /** Show the text, inject it, then report ready and shut down with code 0. */
  function DeliverStage(cfg: Config, w: World, text: Utf16): (World, Outcome<Host.Failure>) {
    var w1 := Shown(w, text);
    if cfg.kind == ClipboardInjector then (Finish(w1, |text|), Pass)
    else
      var (injector, o) := TextInjection.InsertStep(w1.injector, cfg.answer, Some(text));
      var w2 := w1.(injector := injector);
      if o.Fail? then (w2, o) else (Finish(w2, |text|), Pass)
  }

  /** Where a run of StartTranscriptionAsync stands: the next block to execute, or how it ended. */
  datatype Phase =
    | Locating
    | Acquiring(wav: string)
    | Initialising(wav: string)
    | Transcribing(wav: string)
    | Delivering(text: Utf16)
    | Ended(ending: Ending)

  function Order(p: Phase): nat {
    match p
    case Locating => 0
    case Acquiring(_) => 1
    case Initialising(_) => 2
    case Transcribing(_) => 3
    case Delivering(_) => 4
    case Ended(_) => 5
  }

  /** Searches for the WAV; without one, shows the message, logs transcribe.no_wav and returns. */
  function LocateBlock(cfg: Config, w: World): (r: (World, Phase))
    ensures r.1.Acquiring? || r.1 == Ended(NoInput)
  {
    var wav := WavFinder.Search(cfg.baseDir, cfg.parentOf, w.disk.files, WavFinder.MaxDirectories);
    if wav.None? then (w.(entries := w.entries + [Entry(Level.Warn, "transcribe.no_wav", [])], transcriptText := NoWavText), Ended(NoInput))
    else (w, Acquiring(wav.value))
  }

  function AcquireBlock(cfg: Config, w: World, wav: string): (r: (World, Phase))
    ensures r.1 == Initialising(wav) || (r.1.Ended? && r.1.ending.Failed?)
  {
    var (w1, o) := AcquireStage(cfg, w, wav);
    if o.Fail? then (Caught(w1, o.error), Ended(Failed(o.error))) else (w1, Initialising(wav))
  }

  function InitBlock(cfg: Config, w: World, wav: string): (r: (World, Phase))
    ensures r.1 == Transcribing(wav) || (r.1.Ended? && r.1.ending.Failed?)
  {
    var (w1, o) := InitStage(cfg, w, cfg.faults.initThrows);
    if o.Fail? then (Caught(w1, o.error), Ended(Failed(o.error))) else (w1, Transcribing(wav))
  }

  function TranscribeBlock(cfg: Config, w: World, wav: string): (r: (World, Phase))
    ensures r.1.Delivering? || (r.1.Ended? && r.1.ending.Failed?)
  {
    var (w1, t) := TranscribeStage(cfg, w, wav);
    if t.Err? then (Caught(w1, t.error), Ended(Failed(t.error))) else (w1, Delivering(t.value))
  }

  function DeliverBlock(cfg: Config, w: World, text: Utf16): (r: (World, Phase))
    ensures r.1 == Ended(Done) || (r.1.Ended? && r.1.ending.Failed?)
  {
    var (w1, o) := DeliverStage(cfg, w, text);
    if o.Fail? then (Caught(w1, o.error), Ended(Failed(o.error))) else (w1, Ended(Done))
  }

  /**
   * Executes the blocks from phase p to the end. Each phase has its own
   * driver, so knowing the phase brings in that phase's block and no other.
   */
  function Drive(cfg: Config, w: World, p: Phase): (World, Ending)
    decreases 5 - Order(p), 1
  {
    match p
    case Ended(e) => (w, e)
    case Locating => DriveLocating(cfg, w)
    case Acquiring(wav) => DriveAcquiring(cfg, w, wav)
    case Initialising(wav) => DriveInitialising(cfg, w, wav)
    case Transcribing(wav) => DriveTranscribing(cfg, w, wav)
    case Delivering(text) => DriveDelivering(cfg, w, text)
  }

  function DriveLocating(cfg: Config, w: World): (World, Ending)
    decreases 5, 0
  {
    var (w1, p1) := LocateBlock(cfg, w);
    Drive(cfg, w1, p1)
  }

  function DriveAcquiring(cfg: Config, w: World, wav: string): (World, Ending)
    decreases 4, 0
  {
    var (w1, p1) := AcquireBlock(cfg, w, wav);
    Drive(cfg, w1, p1)
  }

  function DriveInitialising(cfg: Config, w: World, wav: string): (World, Ending)
    decreases 3, 0
  {
    var (w1, p1) := InitBlock(cfg, w, wav);
    Drive(cfg, w1, p1)
  }

  function DriveTranscribing(cfg: Config, w: World, wav: string): (World, Ending)
    decreases 2, 0
  {
    var (w1, p1) := TranscribeBlock(cfg, w, wav);
    Drive(cfg, w1, p1)
  }

  function DriveDelivering(cfg: Config, w: World, text: Utf16): (World, Ending)
    decreases 1, 0
  {
    var (w1, p1) := DeliverBlock(cfg, w, text);
    Drive(cfg, w1, p1)
  }

  // One lemma per phase: driving from it is executing its block, then driving on.

  lemma LocateThenDrive(cfg: Config, w: World)
    ensures var (w1, p1) := LocateBlock(cfg, w); Drive(cfg, w, Locating) == Drive(cfg, w1, p1)
  {
  }

  lemma AcquireThenDrive(cfg: Config, w: World, wav: string)
    ensures var (w1, p1) := AcquireBlock(cfg, w, wav); Drive(cfg, w, Acquiring(wav)) == Drive(cfg, w1, p1)
  {
  }

  lemma InitThenDrive(cfg: Config, w: World, wav: string)
    ensures var (w1, p1) := InitBlock(cfg, w, wav); Drive(cfg, w, Initialising(wav)) == Drive(cfg, w1, p1)
  {
  }

  lemma TranscribeThenDrive(cfg: Config, w: World, wav: string)
    ensures var (w1, p1) := TranscribeBlock(cfg, w, wav); Drive(cfg, w, Transcribing(wav)) == Drive(cfg, w1, p1)
  {
  }

  lemma DeliverThenDrive(cfg: Config, w: World, text: Utf16)
    ensures var (w1, p1) := DeliverBlock(cfg, w, text); Drive(cfg, w, Delivering(text)) == Drive(cfg, w1, p1)
  {
  }

  /** StartTranscriptionAsync as a transition. */
  function Run(cfg: Config, w: World): (World, Ending) {
    Drive(cfg, w, Locating)
  }

  class MainWindow {
    const log: FileLogger
    const kind: InjectorKind
    const injector: TextInjection.SendInputTextInjector
    const lib: NativeStub.WhLibrary
    const disk: Host.Disk
    const env: Host.Env
    const baseDir: string
    const parentOf: WavFinder.ParentOf
    const platform: Host.Platform
    const codec: ModelManager.ManifestCodec
    const faults: NativeFaults
    var transcriptText: Display
    var statusText: string
    var shutdownCode: Option<int>
    var steps: seq<Step>

    function Cfg(): Config {
      Config(env, baseDir, parentOf, platform, codec, kind, injector.os.answer, faults)
    }

    function State(): World
      reads this, disk, lib, injector, injector.os, log
    {
      World(disk.State(), lib.State(), injector.State(), log.entries, transcriptText, statusText, shutdownCode, steps)
    }

    ghost predicate Valid()
      reads this, log, lib
    {
      log.Valid() && NativeStub.Valid(lib.State())
    }

    /**
     * The window's controls start out empty: their initial text comes from the
     * window's XAML markup, which is not part of this model, so the empty start
     * is an assumption.
     */
    constructor (log: FileLogger, injector: TextInjection.SendInputTextInjector, lib: NativeStub.WhLibrary, disk: Host.Disk,
                 env: Host.Env, baseDir: string, parentOf: WavFinder.ParentOf, platform: Host.Platform, codec: ModelManager.ManifestCodec,
                 faults: NativeFaults)
      ensures this.log == log && this.injector == injector && this.lib == lib && this.disk == disk
      ensures this.env == env && this.baseDir == baseDir && this.parentOf == parentOf
      ensures this.platform == platform && this.codec == codec && this.faults == faults
      ensures kind == SelectInjector(env)
      ensures transcriptText == Notice("") && statusText == "" && shutdownCode == None && steps == []
    {
      this.log := log;
      this.kind := SelectInjector(env);
      this.injector := injector;
      this.lib := lib;
      this.disk := disk;
      this.env := env;
      this.baseDir := baseDir;
      this.parentOf := parentOf;
      this.platform := platform;
      this.codec := codec;
      this.faults := faults;
      transcriptText := Notice("");
      statusText := "";
      shutdownCode := None;
      steps := [];
    }

    /** The WAV search written inline in StartTranscriptionAsync. */
    method LocateWav() returns (wav: Option<string>)
      ensures wav == WavFinder.Search(baseDir, parentOf, disk.files, WavFinder.MaxDirectories)
    {
      wav := None;
      var dir := baseDir;
      var i := 0;
      while i < 4 && Text.IsNullOrEmpty(wav)
        invariant 0 <= i <= 4 && wav.None?
        invariant WavFinder.Search(baseDir, parentOf, disk.files, WavFinder.MaxDirectories)
                  == WavFinder.Search(dir, parentOf, disk.files, 4 - i)
      {
        var candidate := WavFinder.Candidate(dir);
        if candidate in disk.files {
          wav := Some(candidate);
          break;
        }
        var parent := parentOf(dir);
        if Text.IsNullOrEmpty(parent) {
          break;
        }
        dir := parent.value;
        i := i + 1;
      }
    }

    method Fail(f: Host.Failure) returns (r: Ending)
      requires log.Valid()
      modifies this, log
      ensures log.Valid()
      ensures State() == Caught(old(State()), f) && r == Failed(f)
    {
      log.Error("transcribe.error", [Field("error", Str(Host.Message(f)))]);
      transcriptText := Notice("Error: " + Host.Message(f));
      r := Failed(f);
    }

    method ShowTranscript(text: Utf16)
      requires log.Valid()
      modifies this, log
      ensures log.Valid()
      ensures State() == Shown(old(State()), text)
    {
      log.Info("transcribe.done", Count(|text|));
      transcriptText := Units(text);
      steps := steps + [Show(text)];
      log.Info("inject.start", Count(|text|));
      steps := steps + [Inject(text)];
    }

    method Conclude(n: nat)
      requires log.Valid()
      modifies this, log
      ensures log.Valid()
      ensures State() == Finish(old(State()), n)
    {
      log.Info("inject.done", Count(n));
      statusText := ReadyStatus;
      shutdownCode := Some(0);
      steps := steps + [Ready, Shutdown(0)];
    }

    method Deliver(text: Utf16) returns (o: Outcome<Host.Failure>)
      requires log.Valid()
      modifies this, log, injector, injector.os
      ensures log.Valid()
      ensures (State(), o) == DeliverStage(Cfg(), old(State()), text)
    {
      ShowTranscript(text);
      o := Pass;
      if kind == SendInputInjector {
        o := injector.Insert(Some(text));
        if o.Fail? {
          return;
        }
      }
      Conclude(|text|);
    }

    /** Searches for the WAV; without one, shows the message and logs transcribe.no_wav. */
    method Locate() returns (next: Phase)
      requires log.Valid()
      modifies this, log
      ensures log.Valid()
      ensures (State(), next) == LocateBlock(Cfg(), old(State()))
    {
      var wav := LocateWav();
      if wav.Some? {
        WavFinder.SearchFindsCandidate(baseDir, parentOf, disk.files, WavFinder.MaxDirectories);
        WavFinder.CandidateNotBlank(wav.value);
      }
      if Text.IsNullOrWhiteSpace(wav) || wav.value !in disk.files {
        transcriptText := NoWavText;
        log.Warn("transcribe.no_wav", []);
        return Ended(NoInput);
      }
      next := Acquiring(wav.value);
    }

    /** Logs startup and makes sure the model is cached. */
    method Acquire(wav: string) returns (next: Phase)
      requires log.Valid()
      modifies this, log, disk
      ensures log.Valid()
      ensures (State(), next) == AcquireBlock(Cfg(), old(State()), wav)
    {
      log.Info("startup", [Field("wav", Str(wav))]);
      steps := steps + [AcquireModel];
      var acquired := ModelManager.EnsureModel(env, disk, platform, codec, log);
      if acquired.Fail? {
        var r := Fail(acquired.error);
        return Ended(r);
      }
      next := Initialising(wav);
    }

    /** Logs native.init and initialises the engine with the cached model. */
    method InitEngine(wav: string) returns (next: Phase)
      requires Valid()
      modifies this, log, lib
      ensures Valid()
      ensures (State(), next) == InitBlock(Cfg(), old(State()), wav)
    {
      var model := ModelManager.ModelPath(env);
      log.Info("native.init", [Field("model", Str(model))]);
      steps := steps + [InitNative(model)];
      NativeGateway.InitFailures(lib.State(), Some(model), faults.initThrows);
      var initialised := NativeGateway.Init(lib, Some(model), faults.initThrows);
      if initialised.Fail? {
        var r := Fail(initialised.error);
        return Ended(r);
      }
      next := Transcribing(wav);
    }

    /** Logs transcribe.start and transcribes the WAV. */
    method TranscribeAudio(wav: string) returns (next: Phase)
      requires Valid()
      modifies this, log, lib
      ensures Valid()
      ensures (State(), next) == TranscribeBlock(Cfg(), old(State()), wav)
    {
      log.Info("transcribe.start", [Field("path", Str(wav))]);
      steps := steps + [Transcribe(wav)];
      NativeGateway.FreedExactlyOnce(lib.State(), Some(wav), faults.transcribe, faults.copyFails);
      var text := NativeGateway.TranscribeWav(lib, Some(wav), faults.transcribe, faults.copyFails);
      if text.Err? {
        var r := Fail(text.error);
        return Ended(r);
      }
      next := Delivering(text.value);
    }

    /** Shows and injects the transcript, then reports ready and shuts down. */
    method DeliverText(text: Utf16) returns (r: Ending)
      requires log.Valid()
      modifies this, log, injector, injector.os
      ensures log.Valid()
      ensures (State(), r) == Drive(Cfg(), old(State()), Delivering(text))
    {
      DeliverThenDrive(Cfg(), State(), text);
      var delivered := Deliver(text);
      if delivered.Fail? {
        r := Fail(delivered.error);
        return;
      }
      r := Done;
    }

    /** StartTranscriptionAsync: the blocks in order, leaving at the first that ends the run. */
    method StartTranscription() returns (r: Ending)
      requires Valid()
      modifies this, log, injector, injector.os, lib, disk
      ensures Valid()
      ensures (State(), r) == Run(Cfg(), old(State()))
    {
      LocateThenDrive(Cfg(), State());
      var p := Locate();
      if p.Ended? {
        return p.ending;
      }
      r := UseModel(p.wav);
    }

    /** The run once the WAV is found: cache the model, then use the engine. */
    method UseModel(wav: string) returns (r: Ending)
      requires Valid()
      modifies this, log, injector, injector.os, lib, disk
      ensures Valid()
      ensures (State(), r) == Drive(Cfg(), old(State()), Acquiring(wav))
    {
      AcquireThenDrive(Cfg(), State(), wav);
      var p := Acquire(wav);
      if p.Ended? {
        return p.ending;
      }
      r := UseEngine(wav);
    }

    /** The run once the model is cached: initialise the engine, then transcribe. */
    method UseEngine(wav: string) returns (r: Ending)
      requires Valid()
      modifies this, log, injector, injector.os, lib
      ensures Valid()
      ensures (State(), r) == Drive(Cfg(), old(State()), Initialising(wav))
    {
      InitThenDrive(Cfg(), State(), wav);
      var p := InitEngine(wav);
      if p.Ended? {
        return p.ending;
      }
      r := TranscribeThenDeliver(wav);
    }

    /** The run once the engine is initialised: transcribe, then deliver the text. */
    method TranscribeThenDeliver(wav: string) returns (r: Ending)
      requires Valid()
      modifies this, log, injector, injector.os, lib
      ensures Valid()
      ensures (State(), r) == Drive(Cfg(), old(State()), Transcribing(wav))
    {
      TranscribeThenDrive(Cfg(), State(), wav);
      var p := TranscribeAudio(wav);
      if p.Ended? {
        return p.ending;
      }
      r := DeliverText(p.text);
    }
  }

  // ---------------------------------------------------------------------------
  // Properties.

  /** The blank check never changes the choice: only a value equal to "clipboard" up to ASCII case selects the clipboard injector. */
  lemma SelectInjectorMeaning(env: Host.Env)
    ensures SelectInjector(env) == ClipboardInjector <==>
      "WH_INJECTOR" in env.vars && Text.EqualsIgnoreCase(env.vars["WH_INJECTOR"], "clipboard")
  {
    var overrideName := Host.GetVariable(env, "WH_INJECTOR");
    if overrideName.Some? && Text.EqualsIgnoreCase(overrideName.value, "clipboard") {
      var s := overrideName.value;
      assert |s| == 9;
      Text.AsciiLowerAt(s, 0);
      assert Text.AsciiLower(s)[0] == 'c';
      assert !Text.IsWhiteSpace(s[0]);
    }
  }

  /** The rank of each step in the fixed order of the flow. */
  function Rank(s: Step): nat {
    match s
    case AcquireModel => 0
    case InitNative(_) => 1
    case Transcribe(_) => 2
    case Show(_) => 3
    case Inject(_) => 4
    case Ready => 5
    case Shutdown(_) => 6
  }

  /** The rank of the first step a phase can record. */
  function FirstRank(p: Phase): nat {
    match p
    case Locating => 0
    case Acquiring(_) => 0
    case Initialising(_) => 1
    case Transcribing(_) => 2
    case Delivering(_) => 3
    case Ended(_) => 7
  }

  /** The steps one block appends: consecutive ranks from FirstRank(p) up to, but not including, FirstRank of the next phase. */
  predicate StepsAppended(w: World, w1: World, p: Phase, p1: Phase) {
    && |w1.steps| >= |w.steps| && w1.steps[..|w.steps|] == w.steps
    && (forall i | |w.steps| <= i < |w1.steps| :: Rank(w1.steps[i]) == FirstRank(p) + i - |w.steps|)
    && (!p1.Ended? ==> |w1.steps| == |w.steps| + FirstRank(p1) - FirstRank(p))
    && (p1 == Ended(Done) <==> |w1.steps| == |w.steps| + 7 - FirstRank(p))
    && (p1 == Ended(NoInput) <==> p == Locating && p1.Ended?)
    && (p == Locating <==> |w1.steps| == |w.steps|)
  }

  /** The catch block's trace on w': the error is shown and logged last, and the status and exit code are those of w. */
  predicate ErrorShown(w: World, w': World, f: Host.Failure) {
    && w'.transcriptText == Notice("Error: " + Host.Message(f))
    && |w'.entries| > 0
    && w'.entries[|w'.entries| - 1] == Entry(Level.Error, "transcribe.error", [Field("error", Str(Host.Message(f)))])
    && w'.statusText == w.statusText && w'.shutdownCode == w.shutdownCode
  }

  /** A block that does not end the run leaves status, exit code and (before delivery) the injector alone; one that fails shows the error. */
  predicate Contained(w: World, w1: World, p: Phase, p1: Phase) {
    && (!p1.Ended? ==> w1.statusText == w.statusText && w1.shutdownCode == w.shutdownCode)
    && (p1.Ended? && p1.ending.Failed? ==> ErrorShown(w, w1, p1.ending.failure))
    && (!p.Delivering? ==> w1.injector == w.injector)
  }

  /** Appending steps of the given ranks, in order, meets StepsAppended. */
  lemma AppendedRanks(w: World, w1: World, p: Phase, p1: Phase, added: seq<Step>)
    requires w1.steps == w.steps + added
    requires forall k | 0 <= k < |added| :: Rank(added[k]) == FirstRank(p) + k
    requires !p1.Ended? ==> |added| == FirstRank(p1) - FirstRank(p)
    requires p1 == Ended(Done) <==> |added| == 7 - FirstRank(p)
    requires p1 == Ended(NoInput) <==> p == Locating && p1.Ended?
    requires p == Locating <==> |added| == 0
    ensures StepsAppended(w, w1, p, p1)
  {
    assert w1.steps[..|w.steps|] == w.steps;
    forall i | |w.steps| <= i < |w1.steps|
      ensures Rank(w1.steps[i]) == FirstRank(p) + i - |w.steps|
    {
      assert w1.steps[i] == added[i - |w.steps|];
    }
  }

  lemma LocateFacts(cfg: Config, w: World)
    ensures var (w1, p1) := LocateBlock(cfg, w); StepsAppended(w, w1, Locating, p1) && Contained(w, w1, Locating, p1)
  {
    var (w1, p1) := LocateBlock(cfg, w);
    AppendedRanks(w, w1, Locating, p1, []);
  }

  lemma AcquireFacts(cfg: Config, w: World, wav: string)
    ensures var (w1, p1) := AcquireBlock(cfg, w, wav); StepsAppended(w, w1, Acquiring(wav), p1) && Contained(w, w1, Acquiring(wav), p1)
  {
    var (w1, p1) := AcquireBlock(cfg, w, wav);
    AppendedRanks(w, w1, Acquiring(wav), p1, [AcquireModel]);
  }

  lemma InitFacts(cfg: Config, w: World, wav: string)
    ensures var (w1, p1) := InitBlock(cfg, w, wav); StepsAppended(w, w1, Initialising(wav), p1) && Contained(w, w1, Initialising(wav), p1)
  {
    var (w1, p1) := InitBlock(cfg, w, wav);
    AppendedRanks(w, w1, Initialising(wav), p1, [InitNative(ModelManager.ModelPath(cfg.env))]);
  }

  lemma TranscribeFacts(cfg: Config, w: World, wav: string)
    ensures var (w1, p1) := TranscribeBlock(cfg, w, wav); StepsAppended(w, w1, Transcribing(wav), p1) && Contained(w, w1, Transcribing(wav), p1)
  {
    var (w1, p1) := TranscribeBlock(cfg, w, wav);
    AppendedRanks(w, w1, Transcribing(wav), p1, [Transcribe(wav)]);
  }

  lemma DeliverFacts(cfg: Config, w: World, text: Utf16)
    ensures var (w1, p1) := DeliverBlock(cfg, w, text); StepsAppended(w, w1, Delivering(text), p1) && Contained(w, w1, Delivering(text), p1)
  {
    var (w1, p1) := DeliverBlock(cfg, w, text);
    if p1 == Ended(Done) {
      AppendedRanks(w, w1, Delivering(text), p1, [Show(text), Inject(text), Ready, Shutdown(0)]);
    } else {
      AppendedRanks(w, w1, Delivering(text), p1, [Show(text), Inject(text)]);
    }
  }


  /**
   * Between w and w' the injector got at most one new batch; when it got one,
   * the steps at index j and j + 1 are Show(t) and Inject(t) for one text t,
   * the batch is the keystrokes of t, and a completed run leaves t on screen.
   */
  predicate TypedOnce(w: World, w': World, r: Ending, j: int) {
    var b := |w.injector.batches|;
    && b <= |w'.injector.batches| <= b + 1
    && w'.injector.batches[..b] == w.injector.batches
    && (|w'.injector.batches| == b + 1 ==>
          && 0 <= j && j + 1 < |w'.steps| && w'.steps[j + 1].Inject?
          && var t := w'.steps[j + 1].text;
             && w'.steps[j] == Show(t)
             && w'.injector.batches[b] == TextInjection.Keystrokes(Scrubbed(t))
             && (r == Done ==> w'.transcriptText == Units(t)))
  }

  /** The delivery block shows the text, then types it as at most one batch; on completion the text stays on screen. */
  lemma DeliveryInjects(cfg: Config, w: World, text: Utf16)
    ensures var (w1, p1) := DeliverBlock(cfg, w, text);
      var n := |w.steps|;
      && |w1.steps| >= n + 2 && w1.steps[n] == Show(text) && w1.steps[n + 1] == Inject(text)
      && (w1.injector.batches == w.injector.batches ||
          w1.injector.batches == w.injector.batches + [TextInjection.Keystrokes(Scrubbed(text))])
      && (p1 == Ended(Done) ==> w1.transcriptText == Units(text))
  {
    var shown := Shown(w, text);
    TextInjection.InsertContract(shown.injector, cfg.answer, Some(text));
  }

  /** The steps a run from phase p appends: consecutive ranks from FirstRank(p), all the rest of them exactly when it completes. */
  predicate StepsFrom(w: World, w': World, r: Ending, p: Phase) {
    && |w'.steps| >= |w.steps| && w'.steps[..|w.steps|] == w.steps
    && (forall i | |w.steps| <= i < |w'.steps| :: Rank(w'.steps[i]) == FirstRank(p) + i - |w.steps|)
    && (r == Done <==> |w'.steps| == |w.steps| + 7 - FirstRank(p))
    && (r == NoInput <==> p == Locating && |w'.steps| == |w.steps|)
    && (p != Locating ==> |w'.steps| > |w.steps|)
  }

  /** What a run from phase p guarantees about the world it leaves. */
  predicate Traced(w: World, w': World, r: Ending, p: Phase) {
    && StepsFrom(w, w', r, p)
    && TypedOnce(w, w', r, |w.steps| + 3 - FirstRank(p))
    && (r.Failed? ==> ErrorShown(w, w', r.failure))
  }

  /** A block that ends the run leaves a traced world. */
  lemma Ends(w: World, w1: World, p: Phase, p1: Phase)
    requires !p.Ended? && p1.Ended?
    requires StepsAppended(w, w1, p, p1) && Contained(w, w1, p, p1)
    requires p.Delivering? ==> TypedOnce(w, w1, p1.ending, |w.steps|)
    ensures Traced(w, w1, p1.ending, p)
  {
    if !p.Delivering? {
      assert w1.injector.batches[..|w.injector.batches|] == w.injector.batches;
    }
  }

  /** A block that hands on to another phase, followed by a traced run from there, is a traced run. */
  lemma Compose(w: World, w1: World, w': World, r: Ending, p: Phase, p1: Phase)
    requires !p.Ended? && !p.Delivering? && !p1.Ended? && p1 != Locating
    requires StepsAppended(w, w1, p, p1) && Contained(w, w1, p, p1)
    requires Traced(w1, w', r, p1)
    ensures Traced(w, w', r, p)
  {
    StepsCompose(w, w1, w', r, p, p1);
    var j := |w.steps| + 3 - FirstRank(p);
    assert j == |w1.steps| + 3 - FirstRank(p1);
    TypedCompose(w, w1, w', r, j);
    assert r.Failed? ==> ErrorShown(w, w', r.failure);
  }

  /** A block that leaves the injector alone keeps what a later run typed. */
  lemma TypedCompose(w: World, w1: World, w': World, r: Ending, j: int)
    requires w1.injector == w.injector && TypedOnce(w1, w', r, j)
    ensures TypedOnce(w, w', r, j)
  {
  }

  /** The steps of a block followed by the steps of a run from the next phase are the steps of a run. */
  lemma StepsCompose(w: World, w1: World, w': World, r: Ending, p: Phase, p1: Phase)
    requires !p.Ended? && !p1.Ended? && p1 != Locating
    requires StepsAppended(w, w1, p, p1) && StepsFrom(w1, w', r, p1)
    ensures StepsFrom(w, w', r, p)
  {
    assert w'.steps[..|w.steps|] == w.steps by {
      assert w'.steps[..|w1.steps|][..|w.steps|] == w'.steps[..|w.steps|];
    }
    forall i | |w.steps| <= i < |w1.steps|
      ensures Rank(w'.steps[i]) == FirstRank(p) + i - |w.steps|
    {
      assert w'.steps[i] == w'.steps[..|w1.steps|][i];
    }
  }

  // One lemma per phase, mutually recursive through TracedFrom.

  lemma {:induction false} TracedFrom(cfg: Config, w: World, p: Phase)
    requires !p.Ended?
    decreases 5 - Order(p), 1
    ensures var (w', r) := Drive(cfg, w, p); Traced(w, w', r, p)
  {
    match p
    case Locating => TracedLocating(cfg, w);
    case Acquiring(wav) => TracedAcquiring(cfg, w, wav);
    case Initialising(wav) => TracedInitialising(cfg, w, wav);
    case Transcribing(wav) => TracedTranscribing(cfg, w, wav);
    case Delivering(text) => TracedDelivering(cfg, w, text);
  }

  lemma {:induction false} TracedLocating(cfg: Config, w: World)
    decreases 5, 0
    ensures var (w', r) := Drive(cfg, w, Locating); Traced(w, w', r, Locating)
  {
    var (w1, p1) := LocateBlock(cfg, w);
    LocateFacts(cfg, w);
    LocateThenDrive(cfg, w);
    if p1.Ended? {
      Ends(w, w1, Locating, p1);
    } else {
      TracedFrom(cfg, w1, p1);
      var (w', r) := Drive(cfg, w1, p1);
      Compose(w, w1, w', r, Locating, p1);
    }
  }

  lemma {:induction false} TracedAcquiring(cfg: Config, w: World, wav: string)
    decreases 4, 0
    ensures var (w', r) := Drive(cfg, w, Acquiring(wav)); Traced(w, w', r, Acquiring(wav))
  {
    var (w1, p1) := AcquireBlock(cfg, w, wav);
    AcquireFacts(cfg, w, wav);
    AcquireThenDrive(cfg, w, wav);
    if p1.Ended? {
      Ends(w, w1, Acquiring(wav), p1);
    } else {
      TracedFrom(cfg, w1, p1);
      var (w', r) := Drive(cfg, w1, p1);
      Compose(w, w1, w', r, Acquiring(wav), p1);
    }
  }

  lemma {:induction false} TracedInitialising(cfg: Config, w: World, wav: string)
    decreases 3, 0
    ensures var (w', r) := Drive(cfg, w, Initialising(wav)); Traced(w, w', r, Initialising(wav))
  {
    var (w1, p1) := InitBlock(cfg, w, wav);
    InitFacts(cfg, w, wav);
    InitThenDrive(cfg, w, wav);
    if p1.Ended? {
      Ends(w, w1, Initialising(wav), p1);
    } else {
      TracedFrom(cfg, w1, p1);
      var (w', r) := Drive(cfg, w1, p1);
      Compose(w, w1, w', r, Initialising(wav), p1);
    }
  }

  lemma {:induction false} TracedTranscribing(cfg: Config, w: World, wav: string)
    decreases 2, 0
    ensures var (w', r) := Drive(cfg, w, Transcribing(wav)); Traced(w, w', r, Transcribing(wav))
  {
    var (w1, p1) := TranscribeBlock(cfg, w, wav);
    TranscribeFacts(cfg, w, wav);
    TranscribeThenDrive(cfg, w, wav);
    if p1.Ended? {
      Ends(w, w1, Transcribing(wav), p1);
    } else {
      TracedFrom(cfg, w1, p1);
      var (w', r) := Drive(cfg, w1, p1);
      Compose(w, w1, w', r, Transcribing(wav), p1);
    }
  }

  lemma {:induction false} TracedDelivering(cfg: Config, w: World, text: Utf16)
    decreases 1, 0
    ensures var (w', r) := Drive(cfg, w, Delivering(text)); Traced(w, w', r, Delivering(text))
  {
    var (w1, p1) := DeliverBlock(cfg, w, text);
    DeliverFacts(cfg, w, text);
    DeliverThenDrive(cfg, w, text);
    DeliveryInjects(cfg, w, text);
    Ends(w, w1, Delivering(text), p1);
  }

  /**
   * The steps run in their fixed order and stop at the first failure: a run
   * appends a prefix of model, init, transcribe, show, inject, ready,
   * shutdown; all seven exactly when it completes, none when there is no WAV.
   */
  lemma StepsInOrder(cfg: Config, w: World)
    ensures var (w', r) := Run(cfg, w);
      && |w'.steps| >= |w.steps| && w'.steps[..|w.steps|] == w.steps
      && (forall i | |w.steps| <= i < |w'.steps| :: Rank(w'.steps[i]) == i - |w.steps|)
      && (r == Done <==> |w'.steps| == |w.steps| + 7)
      && (r == NoInput <==> |w'.steps| == |w.steps|)
  {
    TracedFrom(cfg, w, Locating);
  }

  /** Without a WAV the run only shows the message and logs transcribe.no_wav: no model, no native call, no injection. */
  lemma NoWavStopsEarly(cfg: Config, w: World)
    requires WavFinder.Search(cfg.baseDir, cfg.parentOf, w.disk.files, WavFinder.MaxDirectories).None?
    ensures var (w', r) := Run(cfg, w);
      && r == NoInput
      && w' == w.(entries := w.entries + [Entry(Level.Warn, "transcribe.no_wav", [])], transcriptText := NoWavText)
      && NoWavText == Notice("No WAV found at assets/audio/hello.wav.")
  {
    LocateThenDrive(cfg, w);
  }

  /**
   * The injector receives at most one Insert per run, with exactly the text
   * that was shown just before; that is at most one new batch, the keystrokes
   * of that text, and a completed run leaves that same text in the window.
   */
  lemma InjectsTranscriptOnce(cfg: Config, w: World)
    ensures var (w', r) := Run(cfg, w);
      TypedOnce(w, w', r, |w.steps| + 3)
  {
    TracedFrom(cfg, w, Locating);
  }

  /**
   * A failed run logs transcribe.error last and shows "Error: <message>", so
   * a failure while injecting replaces the transcript that was on screen; the
   * status and the exit code are left alone.
   */
  lemma FailureShowsError(cfg: Config, w: World)
    ensures var (w', r) := Run(cfg, w);
      r.Failed? ==>
        && w'.transcriptText == Notice("Error: " + Host.Message(r.failure))
        && |w'.entries| > 0
        && w'.entries[|w'.entries| - 1] == Entry(Level.Error, "transcribe.error", [Field("error", Str(Host.Message(r.failure)))])
        && w'.statusText == w.statusText && w'.shutdownCode == w.shutdownCode
  {
    TracedFrom(cfg, w, Locating);
  }

  // ---------------------------------------------------------------------------
  // The sample run.

  const Faultless: NativeFaults := NativeFaults(false, NativeStub.NoFaults, false)

  /** A completed run that delivered text: text shown and typed as one batch, ready, exit code 0, no leftover native buffer. */
  predicate Completed(w: World, w': World, r: Ending, text: Utf16) {
    && r == Done
    && w'.transcriptText == Units(text)
    && w'.injector.batches == w.injector.batches + [TextInjection.Keystrokes(text)]
    && w'.injector.lastCount == |text|
    && w'.statusText == ReadyStatus && w'.shutdownCode == Some(0)
    && w'.stub.heap == w.stub.heap
  }

  /**
   * End to end: with the sample WAV in the base directory, the model
   * available, no native fault and an input queue that accepts every batch,
   * the run completes; the window shows Hello (the UTF-16 units of "hello",
   * see NativeStub.HelloLiteral), the target receives the keystrokes of Hello
   * as one batch, the status is " Ready", the exit code is 0 and the native
   * heap holds no leftover buffer.
   */
  lemma HelloEndToEnd(cfg: Config, w: World)
    requires cfg.kind == SendInputInjector && TextInjection.AcceptsAll(cfg.answer) && cfg.faults == Faultless
    requires NativeStub.Valid(w.stub)
    requires WavFinder.Candidate(cfg.baseDir) in w.disk.files
    requires ModelManager.EnsureModelSpec(cfg.env, w.disk, cfg.platform, cfg.codec).outcome == Pass
    ensures var (w', r) := Run(cfg, w);
      && r == Done
      && w'.transcriptText == Units(NativeStub.Hello)
      && w'.injector.batches == w.injector.batches + [TextInjection.Keystrokes(NativeStub.Hello)]
      && w'.injector.lastCount == 5
      && w'.statusText == ReadyStatus && w'.shutdownCode == Some(0)
      && w'.stub.heap == w.stub.heap
  {
    var wav := WavFinder.Candidate(cfg.baseDir);
    HelloLocated(cfg, w);
    LocateThenDrive(cfg, w);
    HelloFromAcquiring(cfg, w, wav);
  }

  lemma HelloFromAcquiring(cfg: Config, w: World, wav: string)
    requires cfg.kind == SendInputInjector && TextInjection.AcceptsAll(cfg.answer) && cfg.faults == Faultless
    requires wav == WavFinder.Candidate(cfg.baseDir) && NativeStub.Valid(w.stub)
    requires ModelManager.EnsureModelSpec(cfg.env, w.disk, cfg.platform, cfg.codec).outcome == Pass
    ensures var (w', r) := Drive(cfg, w, Acquiring(wav)); Completed(w, w', r, NativeStub.Hello)
  {
    HelloAcquired(cfg, w, wav);
    AcquireThenDrive(cfg, w, wav);
    HelloFromInitialising(cfg, AcquireBlock(cfg, w, wav).0, wav);
  }

  lemma HelloFromInitialising(cfg: Config, w: World, wav: string)
    requires cfg.kind == SendInputInjector && TextInjection.AcceptsAll(cfg.answer) && cfg.faults == Faultless
    requires wav == WavFinder.Candidate(cfg.baseDir) && NativeStub.Valid(w.stub)
    ensures var (w', r) := Drive(cfg, w, Initialising(wav)); Completed(w, w', r, NativeStub.Hello)
  {
    HelloInit(cfg, w, wav);
    InitThenDrive(cfg, w, wav);
    HelloFromTranscribing(cfg, InitBlock(cfg, w, wav).0, wav);
  }

  lemma HelloFromTranscribing(cfg: Config, w: World, wav: string)
    requires cfg.kind == SendInputInjector && TextInjection.AcceptsAll(cfg.answer) && cfg.faults == Faultless
    requires wav == WavFinder.Candidate(cfg.baseDir) && NativeStub.Valid(w.stub) && w.stub.initialized
    ensures var (w', r) := Drive(cfg, w, Transcribing(wav)); Completed(w, w', r, NativeStub.Hello)
  {
    HelloTranscribe(cfg, w, wav);
    TranscribeThenDrive(cfg, w, wav);
    HelloWellFormed();
    DeliveringCompletes(cfg, TranscribeBlock(cfg, w, wav).0, NativeStub.Hello);
  }

  /** Delivering well-formed text to a queue that accepts every batch completes the run with that text. */
  lemma DeliveringCompletes(cfg: Config, w: World, text: Utf16)
    requires cfg.kind == SendInputInjector && TextInjection.AcceptsAll(cfg.answer)
    requires text != [] && WellFormed(text)
    ensures var (w', r) := Drive(cfg, w, Delivering(text)); Completed(w, w', r, text)
  {
    Delivered(cfg, w, text);
    DeliverThenDrive(cfg, w, text);
  }

  lemma HelloLocated(cfg: Config, w: World)
    requires WavFinder.Candidate(cfg.baseDir) in w.disk.files
    ensures LocateBlock(cfg, w) == (w, Acquiring(WavFinder.Candidate(cfg.baseDir)))
  {
    WavFinder.SearchFindsCandidate(cfg.baseDir, cfg.parentOf, w.disk.files, WavFinder.MaxDirectories);
  }

  lemma HelloAcquired(cfg: Config, w: World, wav: string)
    requires ModelManager.EnsureModelSpec(cfg.env, w.disk, cfg.platform, cfg.codec).outcome == Pass
    ensures var (w', p') := AcquireBlock(cfg, w, wav);
      p' == Initialising(wav) && w'.stub == w.stub && w'.injector == w.injector
  {
  }

  lemma HelloInit(cfg: Config, w: World, wav: string)
    requires NativeStub.Valid(w.stub) && !cfg.faults.initThrows
    ensures var (w', p') := InitBlock(cfg, w, wav);
      && p' == Transcribing(wav)
      && NativeStub.Valid(w'.stub) && w'.stub.initialized && w'.stub.heap == w.stub.heap
      && w'.injector == w.injector
  {
    var m := ModelManager.ModelPath(cfg.env);
    NativeGateway.InitFailures(w.stub, Some(m), false);
    NativeStub.InitCodes(w.stub, Some(Utf16Of(m)), false);
  }

  lemma HelloTranscribe(cfg: Config, w: World, wav: string)
    requires wav == WavFinder.Candidate(cfg.baseDir)
    requires NativeStub.Valid(w.stub) && w.stub.initialized
    requires cfg.faults == Faultless
    ensures var (w', p') := TranscribeBlock(cfg, w, wav);
      && p' == Delivering(NativeStub.Hello)
      && w'.stub.heap == w.stub.heap && w'.injector == w.injector
  {
    HelloTranscript(cfg.baseDir, w.stub);
    NativeGateway.FreedExactlyOnce(w.stub, Some(wav), NativeStub.NoFaults, false);
  }

  /** The stub transcribes the sample WAV found under any base directory as Hello. */
  lemma HelloTranscript(baseDir: string, st: NativeStub.StubState)
    requires NativeStub.Valid(st) && st.initialized
    ensures NativeGateway.TranscribeSpec(st, Some(WavFinder.Candidate(baseDir)), NativeStub.NoFaults, false).1 == Ok(NativeStub.Hello)
  {
    var wav := WavFinder.Candidate(baseDir);
    WavFinder.CandidateEndsWithHello(baseDir);
    var pre := wav[..|wav| - 9];
    assert pre + "hello.wav" + "" == wav;
    NativeGateway.TranscribeSuccess(st, wav);
    NativeStub.HelloPathStrings(pre, "");
    NativeStub.HelloLiteral();
  }

  lemma Delivered(cfg: Config, w: World, text: Utf16)
    requires cfg.kind == SendInputInjector && TextInjection.AcceptsAll(cfg.answer)
    requires text != [] && WellFormed(text)
    ensures var (w', p') := DeliverBlock(cfg, w, text);
      && p' == Ended(Done)
      && w'.transcriptText == Units(text)
      && w'.injector.batches == w.injector.batches + [TextInjection.Keystrokes(text)]
      && w'.injector.lastCount == |text|
      && w'.statusText == ReadyStatus && w'.shutdownCode == Some(0)
      && w'.stub == w.stub
  {
    var w1 := Shown(w, text);
    Typed(w1.injector, cfg.answer, text);
    var injector := TextInjection.InjectorState(w1.injector.batches + [TextInjection.Keystrokes(text)], |text|);
    assert DeliverStage(cfg, w, text) == (Finish(w1.(injector := injector), |text|), Pass);
  }

  /** An input queue that accepts every batch takes well-formed text as one batch of its keystrokes. */
  lemma Typed(st: TextInjection.InjectorState, answer: TextInjection.Acceptance, text: Utf16)
    requires TextInjection.AcceptsAll(answer)
    requires text != [] && WellFormed(text)
    ensures TextInjection.InsertStep(st, answer, Some(text))
      == (TextInjection.InjectorState(st.batches + [TextInjection.Keystrokes(text)], |text|), Pass)
  {
    ScrubbedWellFormed(text);
    TextInjection.InsertContract(st, answer, Some(text));
    TextInjection.WellFormedRoundTrip(text);
  }

  /** Hello holds no surrogate, so it is well-formed UTF-16. */
  lemma HelloWellFormed()
    ensures NativeStub.Hello != [] && WellFormed(NativeStub.Hello)
  {
    var hello := NativeStub.Hello;
    forall k | 0 <= k < |hello| ensures !IsSurrogate(hello[k]) { }
  }
}
