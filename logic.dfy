/**
 * The backend's pipeline state machine (src-tauri/src/logic.rs).
 *
 * The status lives in the data file as a string. A trigger reads it, performs
 * the step's side effects in order and writes the next status through
 * `set_status`, which also emits "status-changed". Sounds, recording and the
 * background pipeline are recorded as actions in an ordered log.
 */
module Logic {
  import opened Wrappers
  import opened Models
  import opened Store

  /** The pipeline status. */
  datatype AppStatus = Idle | Instruction | Content | Processing

  /** An observable side effect of the backend, in the order it happens. */
  datatype Action =
    | PlaySound(name: string)
    | StartRecording(fileName: string, timeoutMinutes: u32)
    | StopRecording
    | RunPipeline
    | Emit(event: string, payload: string)

  /** The event that announces a new status to the frontend. */
  const StatusChangedEvent := "status-changed"

  /** The timeout used when the settings cannot be loaded. */
  const FallbackTimeoutMinutes: u32 := 10

  /** The status string parsed back to a status; anything unknown, "" included, is `Idle`. */
  function ParseStatus(s: string): (st: AppStatus)
    ensures st == Instruction <==> s == "instruction"
    ensures st == Content <==> s == "content"
    ensures st == Processing <==> s == "processing"
    ensures st == Idle <==> s != "instruction" && s != "content" && s != "processing"
  {
    match s
    case "idle" => Idle
    case "instruction" => Instruction
    case "content" => Content
    case "processing" => Processing
    case _ => Idle
  }

  /** `as_str`: the string stored and emitted for a status; parsing it gives the status back. */
  function AsStr(st: AppStatus): (s: string)
    ensures ParseStatus(s) == st
    ensures s != ""
  {
    match st
    case Idle => "idle"
    case Instruction => "instruction"
    case Content => "content"
    case Processing => "processing"
  }

  /** Different statuses are stored as different strings. */
  lemma AsStrInjective(a: AppStatus, b: AppStatus)
    ensures AsStr(a) == AsStr(b) ==> a == b
  {
    if AsStr(a) == AsStr(b) {
      assert ParseStatus(AsStr(a)) == ParseStatus(AsStr(b));
    }
  }

  /** Position of a status in the cycle. */
  function Rank(st: AppStatus): nat {
    match st
    case Idle => 0
    case Instruction => 1
    case Content => 2
    case Processing => 3
  }

  /** The status a trigger moves to; none while processing, where triggers are ignored. */
  function Next(st: AppStatus): (r: Option<AppStatus>)
    ensures r.None? <==> st == Processing
    ensures r.Some? ==> Rank(r.value) == Rank(st) + 1
  {
    match st
    case Idle => Some(Instruction)
    case Instruction => Some(Content)
    case Content => Some(Processing)
    case Processing => None
  }

  /** The side effects of one step before the status is written, in order. */
  function StepActions(st: AppStatus, timeout: u32): seq<Action> {
    match st
    case Idle => [PlaySound("Ping"), StartRecording("instruction.wav", timeout)]
    case Instruction => [PlaySound("Click"), StopRecording, StartRecording("content.wav", timeout)]
    case Content => [PlaySound("Swoosh"), StopRecording, RunPipeline]
    case Processing => []
  }

  /** The timeout passed to recording: the stored setting, or 10 when loading failed. */
  function TimeoutOrFallback(loaded: Result<AppStateData>): u32 {
    if loaded.Success? then loaded.value.settings.recordingTimeoutMinutes else FallbackTimeoutMinutes
  }

  /** Outcomes of the four filesystem accesses one trigger makes, in order. */
  datatype TriggerIo = TriggerIo(statusLoad: Io, settingsLoad: Io, persistLoad: Io, persistSave: Io)

  /** The actions one trigger performs on data file `f`. */
  function TriggerActions(f: DataFile, io: TriggerIo): seq<Action> {
    match LoadResult(f, io.statusLoad)
    case Failure(_) => []
    case Success(d) =>
      var current := ParseStatus(d.status);
      var timeout := TimeoutOrFallback(LoadResult(FileAfterLoad(f, io.statusLoad), io.settingsLoad));
      match Next(current)
      case None => []
      case Some(next) => StepActions(current, timeout) + [Emit(StatusChangedEvent, AsStr(next))]
  }

  /** The data file after one trigger on `f`. */
  function TriggerFile(f: DataFile, io: TriggerIo): DataFile {
    match LoadResult(f, io.statusLoad)
    case Failure(_) => FileAfterLoad(f, io.statusLoad)
    case Success(d) =>
      var loaded := FileAfterLoad(FileAfterLoad(f, io.statusLoad), io.settingsLoad);
      match Next(ParseStatus(d.status))
      case None => loaded
      case Some(next) => UpdateFile(loaded, ReplaceStatus(AsStr(next)), io.persistLoad, io.persistSave)
  }

  /**
   * When the status cannot be read, a trigger does nothing at all: no action, and
   * no write beyond the failed first-run write of the default record inside loading.
   */
  lemma TriggerWithoutStatus(f: DataFile, io: TriggerIo)
    requires LoadResult(f, io.statusLoad).Failure?
    ensures TriggerActions(f, io) == []
    ensures TriggerFile(f, io) == FileAfterLoad(f, io.statusLoad)
    ensures !f.Absent? ==> TriggerFile(f, io) == f
  {
  }

  /** A trigger while processing does nothing: no sound, no event, the file untouched. */
  lemma TriggerWhileProcessing(f: DataFile, io: TriggerIo)
    requires LoadResult(f, io.statusLoad).Success?
    requires ParseStatus(LoadResult(f, io.statusLoad).value.status) == Processing
    ensures TriggerActions(f, io) == []
    ensures TriggerFile(f, io) == f
  {
  }

  /**
   * Otherwise a trigger advances exactly one step. It plays the step's sound, stops and
   * starts recording or starts the pipeline, in the source's order. The recording
   * timeout is the stored setting, or 10 if loading it fails. It then emits the new
   * status, and a reload gives that status when both persistence accesses succeeded.
   */
  lemma {:induction false} TriggerAdvances(f: DataFile, io: TriggerIo)
    requires LoadResult(f, io.statusLoad).Success?
    requires ParseStatus(LoadResult(f, io.statusLoad).value.status) != Processing
    ensures var before := LoadResult(f, io.statusLoad).value;
      var current := ParseStatus(before.status);
      var reread := LoadResult(FileAfterLoad(f, io.statusLoad), io.settingsLoad);
      var timeout := if reread.Success? then reread.value.settings.recordingTimeoutMinutes else 10;
      var next := Next(current).value;
      && Rank(next) == Rank(current) + 1
      && TriggerActions(f, io) == (
        match current
        case Idle => [PlaySound("Ping"), StartRecording("instruction.wav", timeout)]
        case Instruction => [PlaySound("Click"), StopRecording, StartRecording("content.wav", timeout)]
        case Content => [PlaySound("Swoosh"), StopRecording, RunPipeline]
        case Processing => []
      ) + [Emit(StatusChangedEvent, AsStr(next))]
      && (io.persistLoad.Done? && io.persistSave.Done? ==>
            LoadResult(TriggerFile(f, io), Done)
              == Success(AppStateData(before.settings, before.history, AsStr(next))))
  {
    var f1 := FileAfterLoad(f, io.statusLoad);
    var loaded := FileAfterLoad(f1, io.settingsLoad);
    assert loaded == f1;
    var before := LoadResult(f, io.statusLoad).value;
    var next := Next(ParseStatus(before.status)).value;
    if io.persistLoad.Done? && io.persistSave.Done? {
      SetStatusThenLoad(loaded, AsStr(next), io.persistLoad, io.persistSave);
      // the record re-read for persisting has the settings and history read first
      // (only its status may differ: a fresh default file reads back as "idle")
      assert LoadResult(f1, io.persistLoad).value.settings == before.settings;
      assert LoadResult(f1, io.persistLoad).value.history == before.history;
    }
  }

  /**
   * On first run there is no data file. Loading writes the default record, whose status
   * is empty and is not normalised on that path; the empty string parses as `Idle`.
   * So the first trigger behaves as from idle, with the default timeout of 10 minutes.
   */
  lemma FirstRunTrigger(io: TriggerIo)
    requires io == TriggerIo(Done, Done, Done, Done)
    ensures LoadResult(Absent, io.statusLoad).value.status == ""
    ensures TriggerActions(Absent, io)
      == [PlaySound("Ping"), StartRecording("instruction.wav", 10), Emit(StatusChangedEvent, "instruction")]
    ensures LoadResult(TriggerFile(Absent, io), Done)
      == Success(AppStateData(DefaultSettings, [], "instruction"))
  {
    TriggerAdvances(Absent, io);
  }

  /** The storage and the action log of the running backend. */
  class App {
    const store: DataStore
    var actions: seq<Action>

    constructor (store: DataStore)
      ensures this.store == store && actions == []
    {
      this.store := store;
      actions := [];
    }

    /**
     * `set_status`: persist the status string, then emit exactly that string on
     * "status-changed". A failure to persist is only logged: the event is emitted anyway.
     */
    method SetStatus(st: AppStatus, loadIo: Io, saveIo: Io)
      modifies this, store
      ensures actions == old(actions) + [Emit(StatusChangedEvent, AsStr(st))]
      ensures store.file == UpdateFile(old(store.file), ReplaceStatus(AsStr(st)), loadIo, saveIo)
    {
      var statusStr := AsStr(st);
      var persisted := store.SetStatus(statusStr, loadIo, saveIo);
      actions := actions + [Emit(StatusChangedEvent, statusStr)];
    }

    /** `handle_trigger`: read the status, perform the step's effects, write the next status. */
    method HandleTrigger(io: TriggerIo)
      modifies this, store
      ensures actions == old(actions) + TriggerActions(old(store.file), io)
      ensures store.file == TriggerFile(old(store.file), io)
    {
      var currentStatus := store.GetStatus(io.statusLoad);
      if currentStatus.Failure? {
        return;
      }
      var current := ParseStatus(currentStatus.value);
      var data := store.LoadData(io.settingsLoad);
      var timeout := if data.Success? then data.value.settings.recordingTimeoutMinutes else 10;
      var newStatus: AppStatus;
      match current {
        case Idle =>
          actions := actions + [PlaySound("Ping")];
          actions := actions + [StartRecording("instruction.wav", timeout)];
          newStatus := Instruction;
        case Instruction =>
          actions := actions + [PlaySound("Click")];
          actions := actions + [StopRecording];
          actions := actions + [StartRecording("content.wav", timeout)];
          newStatus := Content;
        case Content =>
          actions := actions + [PlaySound("Swoosh")];
          actions := actions + [StopRecording];
          actions := actions + [RunPipeline];
          newStatus := Processing;
        case Processing =>
          return;
      }
      SetStatus(newStatus, io.persistLoad, io.persistSave);
    }

    /**
     * The end of the background pipeline (src-tauri/src/pipeline.rs): whatever its
     * outcome, the status is set back to idle.
     */
    method PipelineFinished(loadIo: Io, saveIo: Io)
      modifies this, store
      ensures actions == old(actions) + [Emit(StatusChangedEvent, "idle")]
      ensures store.file == UpdateFile(old(store.file), ReplaceStatus("idle"), loadIo, saveIo)
    {
      SetStatus(Idle, loadIo, saveIo);
    }
  }

  /** Every filesystem access succeeds. */
  const AllDone := TriggerIo(Done, Done, Done, Done)

  /** With working storage, a trigger on a stored record rewrites only its status. */
  lemma {:induction false} TriggerOnRecord(d: AppStateData, st: AppStatus)
    requires st != Processing && d.status == AsStr(st)
    ensures TriggerFile(Encode(d), AllDone) == Encode(d.(status := AsStr(Next(st).value)))
    ensures TriggerActions(Encode(d), AllDone)
      == StepActions(st, d.settings.recordingTimeoutMinutes) + [Emit(StatusChangedEvent, AsStr(Next(st).value))]
  {
    SaveThenLoad(d);
  }

  /**
   * A full cycle with working storage: three triggers walk idle, instruction, content,
   * processing; a fourth is ignored; and `set_status(Idle)` on its own, without the
   * history item a successful pipeline appends first, restores the starting record.
   * The triggers never touch settings or history, and the status-changed events carry
   * each new status in turn.
   */
  lemma {:induction false} FullCycle(d: AppStateData)
    requires d.status == "idle"
    ensures var f1 := TriggerFile(Encode(d), AllDone);
      var f2 := TriggerFile(f1, AllDone);
      var f3 := TriggerFile(f2, AllDone);
      && f3 == Encode(d.(status := "processing"))
      && TriggerFile(f3, AllDone) == f3
      && TriggerActions(f3, AllDone) == []
      && UpdateFile(f3, ReplaceStatus("idle"), Done, Done) == Encode(d)
      && TriggerActions(Encode(d), AllDone) + TriggerActions(f1, AllDone) + TriggerActions(f2, AllDone)
        == StepActions(Idle, d.settings.recordingTimeoutMinutes) + [Emit(StatusChangedEvent, "instruction")]
         + StepActions(Instruction, d.settings.recordingTimeoutMinutes) + [Emit(StatusChangedEvent, "content")]
         + StepActions(Content, d.settings.recordingTimeoutMinutes) + [Emit(StatusChangedEvent, "processing")]
  {
    TriggerOnRecord(d, Idle);
    var d1 := d.(status := "instruction");
    TriggerOnRecord(d1, Instruction);
    var d2 := d.(status := "content");
    TriggerOnRecord(d2, Content);
    var d3 := d.(status := "processing");
    SaveThenLoad(d3);
    TriggerWhileProcessing(Encode(d3), AllDone);
  }
}
