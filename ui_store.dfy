/**
 * The frontend's state container (src/lib/store.ts).
 *
 * Each action awaits one backend command and then overwrites one slice. The
 * settled outcome of the command is an input: `Resolved(value)` or `Rejected`
 * (a rejection is only logged and the state is left as it was).
 *
 * The components also read and write an `error` slice through `setError`;
 * store.ts as shown does not declare it, and it is modelled here as a plain slice
 * next to the declared ones.
 */
module UiStore {
  import opened Wrappers
  import Models

  /**
   * Settings as the frontend holds them: the three fields store.ts declares, plus the
   * recording timeout the settings view reads and writes. The initial value has no
   * timeout (`undefined`), modelled as `None`.
   */
  datatype Settings = Settings(
    model: string,
    microphone: string,
    hotkey: string,
    recordingTimeoutMinutes: Option<int>)

  /** The settled outcome of one backend `invoke`. */
  datatype Response<+T> = Resolved(value: T) | Rejected

  /** The store's data slices. */
  datatype StoreState = StoreState(
    settings: Settings,
    history: seq<Models.HistoryItem>,
    models: seq<string>,
    microphones: seq<string>,
    status: string,
    error: Option<string>)

  const InitialSettings := Settings("gemma:4b", "default", "CommandOrControl+Shift+Space", None)

  /** The state the store is created with. */
  const InitialState := StoreState(InitialSettings, [], [], [], "idle", None)

  /** One store action, together with the outcome of the backend call it awaits. */
  datatype StoreAction =
    | FetchSettings(fetched: Response<Settings>)
    | SaveSettings(newSettings: Settings, ack: Response<()>)
    | FetchHistory(fetchedHistory: Response<seq<Models.HistoryItem>>)
    | ClearHistory(cleared: Response<()>)
    | FetchModels(fetchedModels: Response<seq<string>>)
    | FetchMicrophones(fetchedMicrophones: Response<seq<string>>)
    | SetStatus(newStatus: string)
    | SetError(newError: Option<string>)

  /** The store's slices, by name. */
  datatype Slice = SettingsSlice | HistorySlice | ModelsSlice | MicrophonesSlice | StatusSlice | ErrorSlice

  /** The one slice an action may write. */
  function SliceOf(a: StoreAction): Slice {
    match a
    case FetchSettings(_) => SettingsSlice
    case SaveSettings(_, _) => SettingsSlice
    case FetchHistory(_) => HistorySlice
    case ClearHistory(_) => HistorySlice
    case FetchModels(_) => ModelsSlice
    case FetchMicrophones(_) => MicrophonesSlice
    case SetStatus(_) => StatusSlice
    case SetError(_) => ErrorSlice
  }

  /** `s` and `t` agree on every slice except possibly `written`. */
  predicate SameExcept(s: StoreState, t: StoreState, written: Slice) {
    && (written != SettingsSlice ==> s.settings == t.settings)
    && (written != HistorySlice ==> s.history == t.history)
    && (written != ModelsSlice ==> s.models == t.models)
    && (written != MicrophonesSlice ==> s.microphones == t.microphones)
    && (written != StatusSlice ==> s.status == t.status)
    && (written != ErrorSlice ==> s.error == t.error)
  }

  /** Whether the action's backend call was rejected. */
  predicate Rejects(a: StoreAction) {
    match a
    case FetchSettings(r) => r.Rejected?
    case SaveSettings(_, r) => r.Rejected?
    case FetchHistory(r) => r.Rejected?
    case ClearHistory(r) => r.Rejected?
    case FetchModels(r) => r.Rejected?
    case FetchMicrophones(r) => r.Rejected?
    case SetStatus(_) => false
    case SetError(_) => false
  }

  /** The state after one action. */
  function Apply(s: StoreState, a: StoreAction): (r: StoreState)
    // every action writes a single slice and leaves the others as they were
    ensures SameExcept(s, r, SliceOf(a))
    // a rejected backend call changes nothing
    ensures Rejects(a) ==> r == s
    // a resolved fetch replaces its slice with what the backend returned
    ensures a.FetchSettings? && a.fetched.Resolved? ==> r.settings == a.fetched.value
    ensures a.FetchHistory? && a.fetchedHistory.Resolved? ==> r.history == a.fetchedHistory.value
    ensures a.FetchModels? && a.fetchedModels.Resolved? ==> r.models == a.fetchedModels.value
    ensures a.FetchMicrophones? && a.fetchedMicrophones.Resolved? ==> r.microphones == a.fetchedMicrophones.value
    // settings are replaced, and history emptied, only once the backend acknowledged
    ensures a.SaveSettings? ==> r.settings == (if a.ack.Resolved? then a.newSettings else s.settings)
    ensures a.ClearHistory? ==> r.history == (if a.cleared.Resolved? then [] else s.history)
    // status and error are overwritten unconditionally
    ensures a.SetStatus? ==> r.status == a.newStatus
    ensures a.SetError? ==> r.error == a.newError
  {
    match a
    case FetchSettings(fetched) =>
      if fetched.Resolved? then s.(settings := fetched.value) else s
    case SaveSettings(newSettings, ack) =>
      if ack.Resolved? then s.(settings := newSettings) else s
    case FetchHistory(fetched) =>
      if fetched.Resolved? then s.(history := fetched.value) else s
    case ClearHistory(cleared) =>
      if cleared.Resolved? then s.(history := []) else s
    case FetchModels(fetched) =>
      if fetched.Resolved? then s.(models := fetched.value) else s
    case FetchMicrophones(fetched) =>
      if fetched.Resolved? then s.(microphones := fetched.value) else s
    case SetStatus(status) => s.(status := status)
    case SetError(error) => s.(error := error)
  }

  /** The state after a sequence of actions, applied in order. */
  function Replay(s: StoreState, actions: seq<StoreAction>): StoreState
    decreases |actions|
  {
    if actions == [] then s
    else Apply(Replay(s, actions[..|actions| - 1]), actions[|actions| - 1])
  }

  /** The payload of the last `SetStatus` in `actions`, if there is one. */
  function LastSetStatus(actions: seq<StoreAction>): Option<string>
    decreases |actions|
  {
    if actions == [] then None
    else if actions[|actions| - 1].SetStatus? then Some(actions[|actions| - 1].newStatus)
    else LastSetStatus(actions[..|actions| - 1])
  }

  /**
   * Last write wins: after any sequence of actions the status is the argument of the
   * last `setStatus`, or the starting status if there was none.
   */
  lemma {:induction false} StatusIsLastWrite(s: StoreState, actions: seq<StoreAction>)
    ensures Replay(s, actions).status == LastSetStatus(actions).GetOr(s.status)
    decreases |actions|
  {
    if actions != [] {
      StatusIsLastWrite(s, actions[..|actions| - 1]);
    }
  }

  /**
   * Only an action on a slice changes it: after a sequence of actions none of which
   * writes `slice`, the state agrees with the start on `slice`.
   */
  lemma {:induction false} UntouchedSliceKept(s: StoreState, actions: seq<StoreAction>, slice: Slice)
    requires forall i :: 0 <= i < |actions| ==> SliceOf(actions[i]) != slice
    ensures var t := Replay(s, actions);
      match slice
      case SettingsSlice => t.settings == s.settings
      case HistorySlice => t.history == s.history
      case ModelsSlice => t.models == s.models
      case MicrophonesSlice => t.microphones == s.microphones
      case StatusSlice => t.status == s.status
      case ErrorSlice => t.error == s.error
    decreases |actions|
  {
    if actions != [] {
      UntouchedSliceKept(s, actions[..|actions| - 1], slice);
    }
  }

  /** Fetching models and fetching microphones are independent: either order gives the same state. */
  lemma ModelsAndMicrophonesCommute(s: StoreState, models: Response<seq<string>>, microphones: Response<seq<string>>)
    ensures Apply(Apply(s, FetchModels(models)), FetchMicrophones(microphones))
         == Apply(Apply(s, FetchMicrophones(microphones)), FetchModels(models))
  {
  }

  /** The zustand store: one mutable object whose actions overwrite one slice each. */
  class AppStore {
    var settings: Settings
    var history: seq<Models.HistoryItem>
    var models: seq<string>
    var microphones: seq<string>
    var status: string
    var error: Option<string>

    /** The store's current data, as a value. */
    function Snapshot(): StoreState
      reads this
    {
      StoreState(settings, history, models, microphones, status, error)
    }

    constructor ()
      ensures Snapshot() == InitialState
    {
      settings := InitialSettings;
      history := [];
      models := [];
      microphones := [];
      status := "idle";
      error := None;
    }

    /** `fetchSettings`: replace settings with what `get_settings` returned. */
    method FetchSettings(fetched: Response<Settings>)
      modifies this`settings
      ensures Snapshot() == Apply(old(Snapshot()), StoreAction.FetchSettings(fetched))
    {
      if fetched.Resolved? {
        settings := fetched.value;
      }
    }

    /** `saveSettings`: replace settings only once `save_settings` succeeded. */
    method SaveSettings(newSettings: Settings, ack: Response<()>)
      modifies this`settings
      ensures Snapshot() == Apply(old(Snapshot()), StoreAction.SaveSettings(newSettings, ack))
    {
      if ack.Resolved? {
        settings := newSettings;
      }
    }

    /** `fetchHistory`: replace history with what `get_history` returned. */
    method FetchHistory(fetched: Response<seq<Models.HistoryItem>>)
      modifies this`history
      ensures Snapshot() == Apply(old(Snapshot()), StoreAction.FetchHistory(fetched))
    {
      if fetched.Resolved? {
        history := fetched.value;
      }
    }

    /** `clearHistory`: empty history only once `clear_history` succeeded. */
    method ClearHistory(cleared: Response<()>)
      modifies this`history
      ensures Snapshot() == Apply(old(Snapshot()), StoreAction.ClearHistory(cleared))
    {
      if cleared.Resolved? {
        history := [];
      }
    }

    /** `fetchModels`: replace models with what `get_models` returned. */
    method FetchModels(fetched: Response<seq<string>>)
      modifies this`models
      ensures Snapshot() == Apply(old(Snapshot()), StoreAction.FetchModels(fetched))
    {
      if fetched.Resolved? {
        models := fetched.value;
      }
    }

    /** `fetchMicrophones`: replace microphones with what `get_input_devices` returned. */
    method FetchMicrophones(fetched: Response<seq<string>>)
      modifies this`microphones
      ensures Snapshot() == Apply(old(Snapshot()), StoreAction.FetchMicrophones(fetched))
    {
      if fetched.Resolved? {
        microphones := fetched.value;
      }
    }

    /** `setStatus`: overwrite the status. */
    method SetStatus(newStatus: string)
      modifies this`status
      ensures Snapshot() == Apply(old(Snapshot()), StoreAction.SetStatus(newStatus))
    {
      status := newStatus;
    }

    /** `setError`: overwrite the error. */
    method SetError(newError: Option<string>)
      modifies this`error
      ensures Snapshot() == Apply(old(Snapshot()), StoreAction.SetError(newError))
    {
      error := newError;
    }
  }
}
