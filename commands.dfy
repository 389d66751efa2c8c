/**
 * The frontend-callable commands on the persisted record (src-tauri/src/commands.rs).
 *
 * Each one loads the record, changes one field and saves it, so each is specified
 * by `Store.UpdateFile` / `Store.UpdateResult` with its own `Edit`.
 */
module Commands {
  import opened Wrappers
  import opened Models
  import opened Store
  import Ollama

  /** The error `save_settings` returns when the new hotkey cannot be registered. */
  function HotkeyError(hotkey: string, reason: string): string {
    "Failed to register hotkey '" + hotkey + "': " + reason
  }

  /** `get_models`: the model names found under the Ollama models directory. */
  method GetModels(dir: Option<Ollama.ModelsDir>) returns (models: seq<string>)
    ensures models == Ollama.ScanResult(dir)
  {
    models := Ollama.ScanModels(dir);
  }

  /** `get_settings`: the stored settings, or the load error. */
  method GetSettings(store: DataStore, io: Io) returns (r: Result<Settings>)
    modifies store
    ensures var loaded := LoadResult(old(store.file), io);
      && (r.Success? <==> loaded.Success?)
      && (r.Success? ==> r.value == loaded.value.settings)
      && (r.Failure? ==> r.error == loaded.error)
    ensures store.file == FileAfterLoad(old(store.file), io)
  {
    var data := store.LoadData(io);
    if data.Failure? {
      return Failure(data.error);
    }
    return Success(data.value.settings);
  }

  /**
   * `save_settings`: unregister every hotkey (a failure is only logged), register the
   * new one (a failure aborts before anything is loaded or written), then store the
   * settings.
   */
  method SaveSettings(store: DataStore, settings: Settings, unregisterIo: Io, registerIo: Io, loadIo: Io, saveIo: Io)
    returns (r: Result<()>)
    modifies store
    ensures registerIo.Failed? ==>
      r == Failure(HotkeyError(settings.hotkey, registerIo.reason)) && store.file == old(store.file)
    ensures registerIo.Done? ==>
      && r == UpdateResult(old(store.file), loadIo, saveIo)
      && store.file == UpdateFile(old(store.file), ReplaceSettings(settings), loadIo, saveIo)
  {
    if unregisterIo.Failed? {
      // logged only
    }
    if registerIo.Failed? {
      return Failure(HotkeyError(settings.hotkey, registerIo.reason));
    }
    var data := store.LoadData(loadIo);
    if data.Failure? {
      return Failure(data.error);
    }
    var updated := data.value.(settings := settings);
    r := store.SaveData(updated, saveIo);
  }

  /** `get_history`: the stored history in stored (chronological) order, or the load error. */
  method GetHistory(store: DataStore, io: Io) returns (r: Result<seq<HistoryItem>>)
    modifies store
    ensures var loaded := LoadResult(old(store.file), io);
      && (r.Success? <==> loaded.Success?)
      && (r.Success? ==> r.value == loaded.value.history)
      && (r.Failure? ==> r.error == loaded.error)
    ensures store.file == FileAfterLoad(old(store.file), io)
  {
    var data := store.LoadData(io);
    if data.Failure? {
      return Failure(data.error);
    }
    return Success(data.value.history);
  }

  /** `add_history_item`: append the item at the end of the stored history. */
  method AddHistoryItem(store: DataStore, item: HistoryItem, loadIo: Io, saveIo: Io) returns (r: Result<()>)
    modifies store
    ensures r == UpdateResult(old(store.file), loadIo, saveIo)
    ensures store.file == UpdateFile(old(store.file), AppendHistory(item), loadIo, saveIo)
  {
    var data := store.LoadData(loadIo);
    if data.Failure? {
      return Failure(data.error);
    }
    var updated := data.value.(history := data.value.history + [item]);
    r := store.SaveData(updated, saveIo);
  }

  /** `clear_history`: empty the stored history. */
  method ClearHistory(store: DataStore, loadIo: Io, saveIo: Io) returns (r: Result<()>)
    modifies store
    ensures r == UpdateResult(old(store.file), loadIo, saveIo)
    ensures store.file == UpdateFile(old(store.file), Edit.ClearHistory, loadIo, saveIo)
  {
    var data := store.LoadData(loadIo);
    if data.Failure? {
      return Failure(data.error);
    }
    var updated := data.value.(history := []);
    r := store.SaveData(updated, saveIo);
  }

  /**
   * After a successful `save_settings`, a reload gives the new settings with the
   * history and status that were stored before.
   */
  lemma {:induction false} SaveSettingsThenLoad(f: DataFile, s: Settings, loadIo: Io, saveIo: Io)
    requires UpdateResult(f, loadIo, saveIo).Success?
    ensures var before := LoadResult(f, loadIo).value;
      LoadResult(UpdateFile(f, ReplaceSettings(s), loadIo, saveIo), Done)
        == Success(AppStateData(s, before.history, Normalise(before).status))
  {
    UpdateThenLoad(f, ReplaceSettings(s), loadIo, saveIo);
  }

  /**
   * After a successful `add_history_item`, a reload gives the earlier history, in
   * order, followed by the new item; settings are unchanged.
   */
  lemma {:induction false} AddHistoryItemThenLoad(f: DataFile, item: HistoryItem, loadIo: Io, saveIo: Io)
    requires UpdateResult(f, loadIo, saveIo).Success?
    ensures var before := LoadResult(f, loadIo).value;
      var after := LoadResult(UpdateFile(f, AppendHistory(item), loadIo, saveIo), Done).value;
      && after.history == before.history + [item]
      && after.history[..|before.history|] == before.history
      && after.history[|before.history|] == item
      && after.settings == before.settings
  {
    UpdateThenLoad(f, AppendHistory(item), loadIo, saveIo);
  }

  /** After a successful `clear_history`, a reload gives an empty history and the same settings. */
  lemma {:induction false} ClearHistoryThenLoad(f: DataFile, loadIo: Io, saveIo: Io)
    requires UpdateResult(f, loadIo, saveIo).Success?
    ensures var before := LoadResult(f, loadIo).value;
      LoadResult(UpdateFile(f, Edit.ClearHistory, loadIo, saveIo), Done)
        == Success(AppStateData(before.settings, [], Normalise(before).status))
  {
    UpdateThenLoad(f, Edit.ClearHistory, loadIo, saveIo);
  }

  /** Reading twice in a row gives the same settings and history: reads are stable. */
  lemma {:induction false} ReadsAreStable(f: DataFile, io1: Io, io2: Io)
    requires io1.Done? && io2.Done?
    ensures var first := LoadResult(f, io1).value;
      var second := LoadResult(FileAfterLoad(f, io1), io2).value;
      first.settings == second.settings && first.history == second.history
  {
  }
}
