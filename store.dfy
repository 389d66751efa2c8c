/**
 * The persisted record store (src-tauri/src/store.rs).
 *
 * The JSON file is abstracted to what loading can tell apart: no file, a file
 * that does not parse, or a parsed record whose `status` field may be missing.
 * Every filesystem access (writing the file, opening it) has an outcome `Io`
 * supplied by the environment.
 */
module Store {
  import opened Wrappers
  import opened Models

  /** What the data file holds. */
  datatype DataFile =
    | Absent
    | Unparseable
    | Json(settings: Settings, history: seq<HistoryItem>, status: Option<string>)

  /**
   * The outcome of one filesystem access. `partial` marks a write that failed after
   * `fs::write` had already created or truncated the file, leaving content that does
   * not parse; it has no effect on an access that is not a write.
   */
  datatype Io = Done | Failed(reason: string, partial: bool)

  /** The file after a write that failed: untouched, or left unparseable by a partial write. */
  function AfterFailedWrite(f: DataFile, io: Io): (r: DataFile)
    requires io.Failed?
    ensures r == f || r == Unparseable
    ensures r == Unparseable <==> io.partial || f == Unparseable
  {
    if io.partial then Unparseable else f
  }

  /** One field-level change a command applies between loading and saving. */
  datatype Edit =
    | ReplaceSettings(settings: Settings)
    | AppendHistory(item: HistoryItem)
    | ClearHistory
    | ReplaceStatus(status: string)

  /** What `save_data` writes: every field, the status included. */
  function Encode(d: AppStateData): DataFile {
    Json(d.settings, d.history, Some(d.status))
  }

  /**
   * Reading an existing file: a parse failure falls back to `AppStateData::default()`
   * (`unwrap_or_default`), a missing status field to the serde default "idle".
   */
  function Parse(f: DataFile): AppStateData
    requires !f.Absent?
  {
    match f
    case Unparseable => DefaultAppStateData
    case Json(s, h, st) => AppStateData(s, h, st.GetOr(DefaultStatus))
  }

  /** The patch `load_data` applies on the file-read path: an empty status becomes "idle". */
  function Normalise(d: AppStateData): (r: AppStateData)
    ensures r.status != ""
    ensures d.status != "" ==> r == d
    ensures r.settings == d.settings && r.history == d.history
  {
    if d.status == "" then d.(status := "idle") else d
  }

  /** What `load_data` returns for file `f`, the access it makes having outcome `io`. */
  function LoadResult(f: DataFile, io: Io): (r: Result<AppStateData>)
    ensures r.Success? <==> io.Done?
    ensures io.Failed? ==> r == Failure(io.reason)
    // missing file: the default record, written out and returned without normalisation
    ensures f.Absent? && io.Done? ==> r.value == DefaultAppStateData && r.value.status == ""
    // unparseable file: the default record with its status patched to "idle"
    ensures f.Unparseable? && io.Done? ==> r.value == DefaultAppStateData.(status := "idle")
    // parsed file: the stored fields, a missing or empty status read as "idle"
    ensures f.Json? && io.Done? ==>
      && r.value.settings == f.settings
      && r.value.history == f.history
      && r.value.status == (if f.status.None? || f.status.value == "" then "idle" else f.status.value)
  {
    if f.Absent? then
      if io.Done? then Success(DefaultAppStateData) else Failure(io.reason)
    else if io.Failed? then Failure(io.reason)
    else Success(Normalise(Parse(f)))
  }

  /**
   * The file after `load_data`: only a missing file changes, by the write of the default
   * record; a write that fails part-way leaves an unparseable file behind.
   */
  function FileAfterLoad(f: DataFile, io: Io): (r: DataFile)
    ensures r != f <==> f.Absent? && (io.Done? || io.partial)
    ensures f.Absent? && io.Done? ==> r == Encode(DefaultAppStateData)
    ensures f.Absent? && io.Failed? && io.partial ==> r == Unparseable
    ensures r != Absent || io.Failed?
  {
    if !f.Absent? then f
    else if io.Done? then Encode(DefaultAppStateData)
    else AfterFailedWrite(f, io)
  }

  /** The record after one command's change. */
  function ApplyEdit(d: AppStateData, e: Edit): (r: AppStateData)
    ensures e.ReplaceSettings? ==> r == AppStateData(e.settings, d.history, d.status)
    ensures e.AppendHistory? ==> r == AppStateData(d.settings, d.history + [e.item], d.status)
    ensures e.ClearHistory? ==> r == AppStateData(d.settings, [], d.status)
    ensures e.ReplaceStatus? ==> r == AppStateData(d.settings, d.history, e.status)
  {
    match e
    case ReplaceSettings(s) => d.(settings := s)
    case AppendHistory(item) => d.(history := d.history + [item])
    case ClearHistory => d.(history := [])
    case ReplaceStatus(s) => d.(status := s)
  }

  /** Whether a load-change-save sequence succeeds. */
  function UpdateResult(f: DataFile, loadIo: Io, saveIo: Io): (r: Result<()>)
    ensures r.Success? <==> loadIo.Done? && saveIo.Done?
    ensures loadIo.Failed? ==> r == Failure(loadIo.reason)
    ensures loadIo.Done? && saveIo.Failed? ==> r == Failure(saveIo.reason)
  {
    match LoadResult(f, loadIo)
    case Failure(e) => Failure(e)
    case Success(_) => if saveIo.Done? then Success(()) else Failure(saveIo.reason)
  }

  /** The file after loading, applying `e` and saving. */
  function UpdateFile(f: DataFile, e: Edit, loadIo: Io, saveIo: Io): DataFile {
    match LoadResult(f, loadIo)
    case Failure(_) => FileAfterLoad(f, loadIo)
    case Success(d) =>
      if saveIo.Done? then Encode(ApplyEdit(d, e)) else AfterFailedWrite(FileAfterLoad(f, loadIo), saveIo)
  }

  /** Saving a record and loading it back gives the record, an empty status read as "idle". */
  lemma SaveThenLoad(d: AppStateData)
    ensures LoadResult(Encode(d), Done) == Success(Normalise(d))
    ensures d.status != "" ==> LoadResult(Encode(d), Done) == Success(d)
  {
  }

  /**
   * A failed update writes nothing of the change. When an existing file cannot be
   * opened it is untouched; when the save fails the file is as loading left it, unless
   * the failed write had already truncated it, which leaves it unparseable.
   */
  lemma UpdateFailureWritesNothing(f: DataFile, e: Edit, loadIo: Io, saveIo: Io)
    ensures loadIo.Failed? ==> UpdateFile(f, e, loadIo, saveIo) == FileAfterLoad(f, loadIo)
    ensures loadIo.Failed? && !f.Absent? ==> UpdateFile(f, e, loadIo, saveIo) == f
    ensures loadIo.Done? && saveIo.Failed? && !saveIo.partial ==>
      UpdateFile(f, e, loadIo, saveIo) == FileAfterLoad(f, loadIo)
    ensures loadIo.Done? && saveIo.Failed? && saveIo.partial ==>
      UpdateFile(f, e, loadIo, saveIo) == Unparseable
  {
  }

  /**
   * A save that fails part-way loses the record: the next load falls back to the
   * default settings and an empty history, whatever was stored before.
   */
  lemma PartialSaveLosesRecord(f: DataFile, e: Edit, reason: string)
    ensures LoadResult(UpdateFile(f, e, Done, Failed(reason, true)), Done)
         == Success(AppStateData(DefaultSettings, [], "idle"))
  {
  }

  /** After a successful update, a reload sees the loaded record with the change applied. */
  lemma {:induction false} UpdateThenLoad(f: DataFile, e: Edit, loadIo: Io, saveIo: Io)
    requires UpdateResult(f, loadIo, saveIo).Success?
    ensures LoadResult(UpdateFile(f, e, loadIo, saveIo), Done)
         == Success(Normalise(ApplyEdit(LoadResult(f, loadIo).value, e)))
  {
    SaveThenLoad(ApplyEdit(LoadResult(f, loadIo).value, e));
  }

  /**
   * After a successful `set_status(s)` with `s` non-empty, a reload gives status `s`
   * and the settings and history that were loaded before.
   */
  lemma SetStatusThenLoad(f: DataFile, s: string, loadIo: Io, saveIo: Io)
    requires s != ""
    requires UpdateResult(f, loadIo, saveIo).Success?
    ensures var before := LoadResult(f, loadIo).value;
      LoadResult(UpdateFile(f, ReplaceStatus(s), loadIo, saveIo), Done)
        == Success(AppStateData(before.settings, before.history, s))
  {
    UpdateThenLoad(f, ReplaceStatus(s), loadIo, saveIo);
  }

  /** The JSON data file and the operations of store.rs on it. */
  class DataStore {
    var file: DataFile

    constructor (initial: DataFile)
      ensures file == initial
    {
      file := initial;
    }

    /**
     * `save_data`: writes the whole record, or fails; a failure inside `fs::write` may
     * leave a truncated file behind.
     */
    method SaveData(d: AppStateData, io: Io) returns (r: Result<()>)
      modifies this
      ensures io.Failed? ==> r == Failure(io.reason) && file == AfterFailedWrite(old(file), io)
      ensures io.Done? ==> r == Success(()) && file == Encode(d)
    {
      if io.Failed? {
        if io.partial {
          file := Unparseable;
        }
        return Failure(io.reason);
      }
      file := Encode(d);
      return Success(());
    }

    /**
     * `load_data`: a missing file gets the default record written and returned
     * as is; an existing file is opened, parsed (or defaulted) and its empty
     * status patched to "idle".
     */
    method LoadData(io: Io) returns (r: Result<AppStateData>)
      modifies this
      ensures r == LoadResult(old(file), io)
      ensures file == FileAfterLoad(old(file), io)
    {
      if file.Absent? {
        var defaultData := DefaultAppStateData;
        var saved := SaveData(defaultData, io);
        if saved.Failure? {
          return Failure(saved.error);
        }
        return Success(defaultData);
      }
      if io.Failed? {
        return Failure(io.reason);
      }
      var data := Parse(file);
      if data.status == "" {
        data := data.(status := "idle");
      }
      return Success(data);
    }

    /** `get_status`: the status field of `load_data`, or its error. */
    method GetStatus(io: Io) returns (r: Result<string>)
      modifies this
      ensures var loaded := LoadResult(old(file), io);
        && (r.Success? <==> loaded.Success?)
        && (r.Success? ==> r.value == loaded.value.status)
        && (r.Failure? ==> r.error == loaded.error)
      ensures file == FileAfterLoad(old(file), io)
    {
      var data := LoadData(io);
      if data.Failure? {
        return Failure(data.error);
      }
      return Success(data.value.status);
    }

    /** `set_status`: load, replace the status, save; nothing is written when loading fails. */
    method SetStatus(status: string, loadIo: Io, saveIo: Io) returns (r: Result<()>)
      modifies this
      ensures r == UpdateResult(old(file), loadIo, saveIo)
      ensures file == UpdateFile(old(file), ReplaceStatus(status), loadIo, saveIo)
    {
      var data := LoadData(loadIo);
      if data.Failure? {
        return Failure(data.error);
      }
      var updated := data.value.(status := status);
      r := SaveData(updated, saveIo);
    }
  }
}
