# Voice intelligence app: pipeline state machine, persisted record and UI state

This project models the logic core of a desktop voice assistant. A global hotkey or a
button starts a three-step pipeline:

1. record an instruction;
2. record the content;
3. let a local Ollama model enrich the content.

The backend keeps one JSON record holding the settings, the history of enrichments and
the pipeline status. The frontend mirrors parts of it in a store and in three views.

What is modelled:

- **Backend**
  - The persisted record (`Models`) and its store: loading, with the missing-file,
    unparseable-file and empty-status cases; saving; and the status accessors (`Store`).
  - The load-change-save commands (`Commands`).
  - The status state machine `idle → instruction → content → processing`, whose
    triggers perform ordered side effects and emit `status-changed` (`Logic`).
  - Model discovery under Ollama's `manifests` directory (`Ollama`).
- **Frontend**
  - The store, whose actions replace one slice on success and keep the state on
    failure (`UiStore`).
  - The events the views listen to (`Events`) and the lifecycle of their listeners
    (`Listeners`).
  - The dashboard (`Dashboard`), the compact status view (`StateView`), the settings
    editor with its draft (`SettingsView`) and the history list (`HistoryView`).
  - Shared list views (`Sequences`).

Imperative source code is modelled imperatively:

- `Store.DataStore` holds the data file.
- `Logic.App` holds the store and an ordered log of side effects.
- `UiStore.AppStore`, `Dashboard.DashboardView`, `StateView.StatusView` and
  `SettingsView.SettingsPanel` hold the mutable UI state.

Each method is proved against a pure specification function: `LoadResult`,
`UpdateFile`, `TriggerActions`/`TriggerFile`, `Apply`, `React` or `EditDraft`. The
lemmas prove the properties of those functions.

The environment supplies every outcome as an input:

- the result of each filesystem access (`Store.Io`);
- each hotkey registration;
- each settled `invoke` (`UiStore.Response`);
- each `parseInt` (`SettingsView.ParsedInt`);
- the directory walk (`Ollama.ModelsDir`).

## Model

| member | source | states |
|---|---|---|
| Store.Normalise | src-tauri/src/store.rs:36-38 | the patched status is never empty, a non-empty status is kept, settings and history are untouched |
| Store.LoadResult | src-tauri/src/store.rs:25-40 | `load_data`: fails exactly when the file access fails, with its reason. A missing file gives `AppStateData::default()`, whose status is empty and is not patched. An unparseable file gives the default record with status "idle". A parsed file gives its settings and history, with a missing or empty status read as "idle" |
| Store.FileAfterLoad | src-tauri/src/store.rs:27-32 | loading changes the file only when it was missing and the first-run write either succeeded (the default record is written) or failed after truncating (the file is left unparseable); an existing file is never changed |
| Store.AfterFailedWrite | src-tauri/src/store.rs:21 | a failed `fs::write` leaves the file as it was, unless it failed after creating or truncating it, in which case the file is unparseable |
| Store.ApplyEdit | src-tauri/src/commands.rs:47-70 | each command's change replaces settings, appends one item at the end of the history, empties the history, or replaces the status; every other field is copied |
| Store.UpdateResult | src-tauri/src/store.rs:47-52 | a load-change-save succeeds exactly when both accesses succeed; otherwise it returns the first failure's reason |
| Store.SaveThenLoad | src-tauri/src/store.rs:15-39 | loading what `save_data` wrote returns the saved record, except that an empty status reads back as "idle" |
| Store.UpdateFailureWritesNothing | src-tauri/src/store.rs:47-52 | when loading fails, the only write is loading's failed first-run write, and an existing file is untouched; when saving fails cleanly the file is as loading left it; when it fails after truncating, the file is unparseable |
| Store.PartialSaveLosesRecord | src-tauri/src/store.rs:15-39 | a save that fails after truncating loses the record: the next load silently returns the default record with status "idle" |
| Store.UpdateThenLoad | src-tauri/src/store.rs:47-52 | after a successful load-change-save, a reload returns the loaded record with the change applied |
| Store.SetStatusThenLoad | src-tauri/src/store.rs:47-52 | after a successful `set_status(s)` with s non-empty, a reload gives status s and the previously loaded settings and history |
| Store.DataStore.SaveData | src-tauri/src/store.rs:15-23 | on success the file holds the record with all its fields; on failure the reason is returned and the file is unchanged, or unparseable if the write failed after truncating it |
| Store.DataStore.LoadData | src-tauri/src/store.rs:25-40 | returns `LoadResult` of the file and leaves it as `FileAfterLoad` says |
| Store.DataStore.GetStatus | src-tauri/src/store.rs:42-45 | the status field of `load_data`, or its error |
| Store.DataStore.SetStatus | src-tauri/src/store.rs:47-52 | load, replace the status, save: result and new file as `UpdateResult` / `UpdateFile` with `ReplaceStatus` |
| Logic.ParseStatus | src-tauri/src/logic.rs:57-63 | "instruction", "content" and "processing" parse to their variants, in both directions; every other string, "" included, parses to `Idle` |
| Logic.AsStr | src-tauri/src/logic.rs:17-24 | parsing `as_str(s)` gives s back, and the string is never empty |
| Logic.AsStrInjective | src-tauri/src/logic.rs:17-24 | different statuses have different strings |
| Logic.Next | src-tauri/src/logic.rs:69-111 | a trigger has no successor exactly in `Processing`; otherwise the next status is one step further in the cycle |
| Logic.TriggerWithoutStatus | src-tauri/src/logic.rs:49-55 | when the status cannot be read, a trigger performs no action and writes nothing beyond loading's failed first-run write; an existing file is left unchanged |
| Logic.TriggerWhileProcessing | src-tauri/src/logic.rs:106-110 | a trigger while processing performs no action, emits nothing and leaves the file unchanged |
| Logic.TriggerAdvances | src-tauri/src/logic.rs:65-113 | from any other status the trigger advances exactly one step. Each step's side effects run in order: idle plays Ping and starts the instruction recording; instruction plays Click, stops and starts the content recording; content plays Swoosh, stops and runs the pipeline. The recording timeout is the stored one, or 10 when loading fails. The new status is then emitted, and a reload shows it with the same settings and history |
| Logic.FirstRunTrigger | src-tauri/src/store.rs:27-32 | with no data file the loaded status is "" and the first trigger behaves as from idle with the default 10-minute timeout; the file ends as the default record with status "instruction" |
| Logic.TriggerOnRecord | src-tauri/src/logic.rs:69-113 | with working storage, a trigger on a stored record rewrites only its status and performs the step's actions followed by the emit |
| Logic.FullCycle | src-tauri/src/logic.rs:69-113 | three triggers walk idle → instruction → content → processing with the events in order; a fourth trigger is ignored; the triggers leave settings and history untouched, and `set_status(Idle)` alone (without the history item a successful pipeline appends) restores the starting record |
| Logic.App.SetStatus | src-tauri/src/logic.rs:116-124 | persists the status string and then emits exactly that string on "status-changed", even when persisting failed |
| Logic.App.HandleTrigger | src-tauri/src/logic.rs:45-114 | appends exactly `TriggerActions` to the log and leaves the file as `TriggerFile` |
| Logic.App.PipelineFinished | src-tauri/src/pipeline.rs:17-24 | whatever the pipeline's outcome, the status is set to idle and "idle" is emitted |
| Commands.GetModels | src-tauri/src/commands.rs:9-12 | returns the names the model scan yields |
| Commands.GetSettings | src-tauri/src/commands.rs:24-28 | exactly the stored settings, or the load error |
| Commands.SaveSettings | src-tauri/src/commands.rs:30-50 | a failed hotkey registration returns "Failed to register hotkey '…': …" and leaves the file untouched. A failed unregister does not abort the save. Otherwise the settings are replaced by load-change-save |
| Commands.GetHistory | src-tauri/src/commands.rs:52-56 | exactly the stored history in stored order, or the load error |
| Commands.AddHistoryItem | src-tauri/src/commands.rs:59-64 | load-change-save appending the item at the end |
| Commands.ClearHistory | src-tauri/src/commands.rs:66-71 | load-change-save emptying the history |
| Commands.SaveSettingsThenLoad | src-tauri/src/commands.rs:47-49 | after a successful save, a reload gives the new settings with the earlier history and status |
| Commands.AddHistoryItemThenLoad | src-tauri/src/commands.rs:60-63 | after a successful append, the history is the earlier one, in order, followed by the item; settings are unchanged |
| Commands.ClearHistoryThenLoad | src-tauri/src/commands.rs:67-70 | after a successful clear, the history is empty and settings and status are unchanged |
| Commands.ReadsAreStable | src-tauri/src/commands.rs:25-28 | two successful reads in a row return the same settings and history |
| Ollama.ModelTag | src-tauri/src/ollama.rs:54-70 | a path of at least three components yields `components[n-2] + ":" + components[n-1]`; a shorter one yields nothing |
| Ollama.ScanModels | src-tauri/src/ollama.rs:26-77 | the loop collects exactly the names of the walk in order. The result is empty when there is no models directory and when `manifests` does not exist |
| Ollama.ModelNamesAppend | src-tauri/src/ollama.rs:47-74 | scanning two parts of a walk concatenates their names in walk order |
| Ollama.ModelNamesBound | src-tauri/src/ollama.rs:47-74 | at most one name per walk entry |
| Ollama.ModelNamesFromFiles | src-tauri/src/ollama.rs:47-70 | every name comes from a regular file of the walk with at least three components |
| Ollama.FileNamesIncluded | src-tauri/src/ollama.rs:47-70 | every regular file with at least three components contributes its name |
| Ollama.DirectoriesYieldNothing | src-tauri/src/ollama.rs:47-48 | a walk of directories only yields no names |
| Ollama.DuplicatesKept | src-tauri/src/ollama.rs:69-70 | names are not deduplicated: a walk seen twice yields its names twice |
| Sequences.Reverse | src/components/History.tsx:39-41 | the reversed copy has the same length and item i is the i-th item from the end |
| Sequences.ReverseReverse | src/components/History.tsx:39-41 | reversing twice gives the original |
| Sequences.ReverseMultiset | src/components/History.tsx:39-41 | reversal keeps the same items, each as often |
| Sequences.TakeLast | src/components/Dashboard.tsx:108 | `slice(-n)` for n > 0: the last min(n, length) items in their order |
| Sequences.NewestFirst | src/components/Dashboard.tsx:108 | `slice(-3).reverse()`, used by both the dashboard and the status view (src/components/State.tsx:118): length min(3, length), item i is the i-th item from the end, and only items of the history |
| UiStore.Apply | src/lib/store.ts:46-100 | each action writes only its own slice. A rejected backend call changes nothing. Fetches replace their slice with the returned value. Settings are replaced, and history emptied, only after the backend acknowledged. Status and error are overwritten unconditionally |
| UiStore.StatusIsLastWrite | src/lib/store.ts:100 | after any sequence of actions the status is the argument of the last `setStatus`, or the initial status |
| UiStore.UntouchedSliceKept | src/lib/store.ts:46-100 | a slice that no action of a sequence writes keeps its value |
| UiStore.ModelsAndMicrophonesCommute | src/lib/store.ts:82-98 | fetching models and fetching microphones give the same state in either order |
| UiStore.AppStore.constructor | src/lib/store.ts:35-44 | initial state: settings {gemma:4b, default, CommandOrControl+Shift+Space}, empty history, models and microphones, status "idle", no error |
| UiStore.AppStore.FetchSettings | src/lib/store.ts:46-53 | the store moves as `Apply` with `FetchSettings` says |
| UiStore.AppStore.SaveSettings | src/lib/store.ts:55-62 | the store moves as `Apply` with `SaveSettings` says |
| UiStore.AppStore.FetchHistory | src/lib/store.ts:64-71 | the store moves as `Apply` with `FetchHistory` says |
| UiStore.AppStore.ClearHistory | src/lib/store.ts:73-80 | the store moves as `Apply` with `ClearHistory` says |
| UiStore.AppStore.FetchModels | src/lib/store.ts:82-89 | the store moves as `Apply` with `FetchModels` says |
| UiStore.AppStore.FetchMicrophones | src/lib/store.ts:91-98 | the store moves as `Apply` with `FetchMicrophones` says |
| UiStore.AppStore.SetStatus | src/lib/store.ts:100 | the store moves as `Apply` with `SetStatus` says |
| UiStore.AppStore.SetError | src/components/Dashboard.tsx:35 | the store moves as `Apply` with `SetError` says |
| Listeners.Subscribe | src/components/Dashboard.tsx:31-50 | on mounting no handle is assigned yet; the `listen` calls are awaited one after another, so they resolve in topic order |
| Listeners.Cleanup | src/components/Dashboard.tsx:52-56 | cleanup calls exactly the handles that are assigned and live, each once; every live handle becomes disposed; afterwards no listener is live; pending ones are untouched |
| Listeners.ResolveAsWritten | src/components/Dashboard.tsx:31-50 | a `listen` that resolves assigns its handle and registers the listener, even after cleanup: exactly the first pending handle changes, and it becomes live |
| Listeners.Resolve | src/components/Dashboard.tsx:31-50 | with the leak closed: exactly the first pending handle changes; it becomes live while mounted (as written), and after cleanup it is disposed at once |
| Listeners.EarlyCleanupLeaksAsWritten | src/components/Dashboard.tsx:31-56 | a view cleaned up before its first `listen` resolves ends unmounted with all three listeners live |
| Listeners.DisposedStaysDisposed | src/components/Dashboard.tsx:52-56 | a disposed handle stays disposed: no handle is disposed twice or revived |
| Listeners.NothingLiveAfterCleanup | src/components/Dashboard.tsx:52-56 | with the leak closed, from the moment cleanup has run no listener is live |
| Listeners.EverySubscriptionDisposed | src/components/State.tsx:62-66 | with the leak closed, once cleanup has run and every `listen` resolved, every subscription has been disposed |
| Dashboard.Slot | src/components/Dashboard.tsx:31-49 | an event reaches the dashboard only through the subscription of its own topic; "pipeline-complete" has none |
| Dashboard.React | src/components/Dashboard.tsx:32-48 | status-changed(p) sets status p and clears error and message. pipeline-error(m) shows m and clears the message, keeping the status. pipeline-status(m) replaces only the message |
| Dashboard.StatusFollowsLastChange | src/components/Dashboard.tsx:32-37 | the shown status is the payload of the last status-changed event |
| Dashboard.ProgressKeepsStatusAndError | src/components/Dashboard.tsx:45-48 | progress messages never change the status or the error |
| Dashboard.StatusText | src/components/Dashboard.tsx:91-106 | one of five fixed labels; "Ready" exactly for idle and every unknown status; "Done!" exactly for success |
| Dashboard.BackendHeadlines | src/components/Dashboard.tsx:91-106 | the backend's statuses never show "Done!" and each has its own headline |
| Dashboard.TriggerButton | src/components/Dashboard.tsx:149-156 | "Start Recording" with the default variant exactly when idle, otherwise "Next Step / Stop" with the destructive variant |
| Dashboard.StartOnlyWhenReady | src/components/Dashboard.tsx:136-156 | "Start Recording" is only offered under the headline "Ready" |
| Dashboard.DashboardView.constructor | src/components/Dashboard.tsx:22 | the view starts with an empty message and no subscriptions |
| Dashboard.DashboardView.Mount | src/components/Dashboard.tsx:24-50 | the history is fetched and `setupListeners` starts with no handle assigned yet |
| Dashboard.DashboardView.ListenResolved | src/components/Dashboard.tsx:31-49 | the next pending subscription resolves, with the leak closed |
| Dashboard.DashboardView.Unmount | src/components/Dashboard.tsx:52-56 | the cleanup disposes the live subscriptions |
| Dashboard.DashboardView.Deliver | src/components/Dashboard.tsx:32-48 | an event whose listener is live moves the view as `React` says; any other event changes nothing |
| StateView.Slot | src/components/State.tsx:39-59 | an event reaches the view only through its own topic; "pipeline-status" has none |
| StateView.React | src/components/State.tsx:40-58 | status-changed and pipeline-error act as on the dashboard. pipeline-complete clears only the message and leaves status and error |
| StateView.StatusFollowsLastChange | src/components/State.tsx:40-45 | the shown status is the payload of the last status-changed event |
| StateView.MessageStaysEmpty | src/components/State.tsx:29-58 | the view's message starts empty and no callback sets it, so it stays empty |
| StateView.StatusText | src/components/State.tsx:101-116 | one of five fixed labels, total; "Ready" exactly for idle and every unknown status |
| StateView.TriggerButton | src/components/State.tsx:160-166 | the button is shown exactly for idle, instruction and content; it reads "Start Recording" exactly when idle, else "Continue" |
| StateView.ButtonShownIffTriggerAdvances | src/components/State.tsx:160-166 | for every backend status, the button is shown exactly when a backend trigger would advance, so it is hidden only while processing |
| StateView.StatusView.constructor | src/components/State.tsx:29 | the view starts with an empty message and no subscriptions |
| StateView.StatusView.Mount | src/components/State.tsx:31-60 | the history is fetched and `setupListeners` starts with no handle assigned yet |
| StateView.StatusView.ListenResolved | src/components/State.tsx:39-59 | the next pending subscription resolves, with the leak closed |
| StateView.StatusView.Unmount | src/components/State.tsx:62-66 | the cleanup disposes the live subscriptions |
| StateView.StatusView.Deliver | src/components/State.tsx:40-58 | a live event moves the view as `React` says; pipeline-complete also refreshes the history; other events change nothing |
| SettingsView.HasChanges | src/components/Settings.tsx:53-58 | the field-wise comparison is true exactly when draft and committed settings differ |
| SettingsView.TimeoutFromInput | src/components/Settings.tsx:183 | the parsed input with 10 as fallback: NaN and 0 become 10, any other number is kept; never 0 |
| SettingsView.TimeoutNotClamped | src/components/Settings.tsx:176-183 | numbers outside the advertised 1 to 60 range are stored as typed |
| SettingsView.EditDraft | src/components/Settings.tsx:81-184 | each change handler sets its own field and copies the other three |
| SettingsView.EditShowsSave | src/components/Settings.tsx:53-68 | after one edit of a clean draft, Save is shown exactly when the edited field differs from the committed value |
| SettingsView.SettingsPanel.constructor | src/components/Settings.tsx:31 | the draft starts as the committed settings, so Save is hidden |
| SettingsView.SettingsPanel.Mount | src/components/Settings.tsx:34-47 | settings, models and microphones are fetched into their slices; fetched settings reset the draft and hide Save; a rejected fetch keeps the draft |
| SettingsView.SettingsPanel.ResetDraft | src/components/Settings.tsx:45-47 | the draft becomes the committed settings and Save disappears |
| SettingsView.SettingsPanel.Edit | src/components/Settings.tsx:81-184 | the draft changes as `EditDraft` says |
| SettingsView.SettingsPanel.Save | src/components/Settings.tsx:49-51 | the current draft is saved. Once acknowledged it is the committed settings and Save disappears. A rejected save changes neither settings nor draft |
| HistoryView.Displayed | src/components/History.tsx:39-42 | the list is the history reversed: same length, same items each as often, newest first |
| HistoryView.ScreenFor | src/components/History.tsx:33-42 | the empty-state message exactly when the history is empty, the reversed list otherwise |
| HistoryView.ClearAllEnabled | src/components/History.tsx:26 | Clear All is enabled exactly when the history is non-empty |
| HistoryView.ClearAllIffListed | src/components/History.tsx:26-36 | Clear All is enabled exactly when items are listed |
| HistoryView.NewestFirstOldestLast | src/components/History.tsx:39-42 | the newest item is listed first, the oldest last |
| HistoryView.Mount | src/components/History.tsx:14-16 | mounting fetches the history |
| HistoryView.ClickClearAll | src/components/History.tsx:22-29 | once the backend acknowledges, the empty state shows and Clear All is disabled; a rejected clear changes nothing |

## Left out

- src-tauri/src/audio.rs is not part of this model. It does device capture, sound
  playback with generated sine waves and WAV writing on threads, which is hardware I/O
  and concurrency. Sounds and recording appear only as entries of the ordered action
  log. For the same reason the `get_input_devices` and `play_test_sound` commands are
  not modelled.
- The pipeline body in src-tauri/src/pipeline.rs is left out: HTTP calls to Ollama,
  base64, clipboard, and the ids and timestamps of new history items. Only its
  unconditional return to idle is modelled, as `Logic.App.PipelineFinished`.
- The Tauri wiring (src-tauri/src/lib.rs, src-tauri/src/main.rs) is left out: tray
  menu, plugin set-up, logging. The global-shortcut registry is external too. Its
  calls are outcome inputs, so the model does not capture that a failed registration
  leaves no hotkey registered at all (every hotkey was unregistered first).
- The unused `LogicState` mutex is left out.
- JSON (de)serialisation, file paths and `get_ollama_models_dir` are left out. The
  file is abstracted to absent, unparseable or parsed. The directory walk is given as
  a sequence of entries; entries the walk reports as errors are assumed already
  dropped, as the source's `filter_map` does.
- Asynchronous timing is not modelled. A fetch started by a mount effect or by
  pipeline-complete is applied at that point, not when it settles. The three fetches
  of the settings view are applied in one fixed order; they write different slices.
- `get_app_info`, requested on the settings view's mount, is not modelled. It is
  registered in src-tauri/src/lib.rs:38, but src-tauri/src/commands.rs does not
  define it, so its behaviour is absent from the code this model covers.
- The trigger button's click is not modelled; only its label, variant and visibility
  are. The store does not define the `triggerAction` that the views call.
- The store does not declare the `error` slice or `setError`, though the views use
  both. They are modelled as a slice like the others, the way the views use them.
- Colours, icons, helper texts and all other layout are left out.
- UiStore.Settings.recordingTimeoutMinutes: typed as an unbounded optional integer,
  as in the frontend. A value outside `u32` would fail deserialisation in the
  backend, which then rejects the save; the model does not link the two sides.
- The frontend status is a string, because event payloads are passed through
  unchecked. The store's extra value "success" is never produced by the backend
  (`Dashboard.BackendHeadlines`).
- Sequences.TakeLast and Sequences.NewestFirst: require n > 0, because `slice(-0)`
  would return the whole list. The views only call them with 3.
- Logic.App.PipelineFinished: assumes the pipeline thread ends after the trigger
  that started it has set the status to "processing". In the source the thread is
  spawned (src-tauri/src/logic.rs:102) before `set_status(Processing)`
  (src-tauri/src/logic.rs:113). A pipeline that fails at once can run its
  `set_status(Idle)` first; the trigger then writes "processing" and the status
  stays there. One way this happens: `start_recording` failed and its error was
  discarded (src-tauri/src/logic.rs:76, 89), so transcription fails on the missing
  file (src-tauri/src/pipeline.rs:79-81). The model does not capture this race.
- Logic.FullCycle: does not model the history item that a successful pipeline
  appends before returning to idle (src-tauri/src/pipeline.rs:67-69). After a
  successful cycle the history has grown by one item; the lemma covers only the
  return to idle.
- Dashboard.DashboardView.ListenResolved and StateView.StatusView.ListenResolved:
  use the corrected `Listeners.Resolve`, not the as-written behaviour described under
  Findings.

## Findings

| source | as written | input that shows it | evidently intended | confidence | as-written member | corrected member |
|---|---|---|---|---|---|---|
| src/components/Dashboard.tsx:31-56 (likewise src/components/State.tsx:39-66) | the cleanup calls only the unlisten handles already assigned; a `listen` that resolves after cleanup assigns its handle and keeps its listener registered for good | cleanup runs before the first `listen` resolves (for example an unmount right after mount), then the three `listen` calls resolve | every subscription is removed once the view is cleaned up, including those that resolve later | not executed; medium: depends on unmount timing | Listeners.EarlyCleanupLeaksAsWritten | Listeners.NothingLiveAfterCleanup |
