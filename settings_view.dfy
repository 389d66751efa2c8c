/**
 * The settings view (src/components/Settings.tsx).
 *
 * The view edits a draft copy of the committed settings held by the store. It
 * offers Save while the two differ, and resets the draft whenever the committed
 * settings are replaced.
 */
module SettingsView {
  import opened Wrappers
  import opened UiStore

  /** Whether the draft differs from the committed settings, compared field by field. */
  function HasChanges(draft: Settings, committed: Settings): (r: bool)
    ensures r <==> draft != committed
  {
    || draft.model != committed.model
    || draft.microphone != committed.microphone
    || draft.hotkey != committed.hotkey
    || draft.recordingTimeoutMinutes != committed.recordingTimeoutMinutes
  }

  /** What `parseInt` made of the timeout input. */
  datatype ParsedInt = NaN | Int(n: int)

  /**
   * The stored timeout for an input, `parseInt(value) || 10`: NaN and 0 fall back to
   * 10, every other number is kept, with no clamping to the field's 1 to 60 range.
   */
  function TimeoutFromInput(p: ParsedInt): (r: int)
    ensures r != 0
    ensures p.Int? && p.n != 0 ==> r == p.n
    ensures p.NaN? || p.n == 0 ==> r == 10
  {
    match p
    case NaN => 10
    case Int(n) => if n == 0 then 10 else n
  }

  /** Numbers outside the 1 to 60 range the input advertises are stored as typed. */
  lemma TimeoutNotClamped(n: int)
    requires n < 1 || n > 60
    requires n != 0
    ensures TimeoutFromInput(Int(n)) == n
    ensures TimeoutFromInput(Int(n)) < 1 || TimeoutFromInput(Int(n)) > 60
  {
  }

  /** One field edit of the draft, as one of the four change handlers performs it. */
  datatype FieldEdit =
    | ModelEdit(model: string)
    | MicrophoneEdit(microphone: string)
    | HotkeyEdit(hotkey: string)
    | TimeoutEdit(input: ParsedInt)

  /** The draft after an edit: the edited field takes the new value, the other three are copied. */
  function EditDraft(draft: Settings, e: FieldEdit): (r: Settings)
    ensures r.model == (if e.ModelEdit? then e.model else draft.model)
    ensures r.microphone == (if e.MicrophoneEdit? then e.microphone else draft.microphone)
    ensures r.hotkey == (if e.HotkeyEdit? then e.hotkey else draft.hotkey)
    ensures r.recordingTimeoutMinutes ==
      (if e.TimeoutEdit? then Some(TimeoutFromInput(e.input)) else draft.recordingTimeoutMinutes)
  {
    match e
    case ModelEdit(m) => draft.(model := m)
    case MicrophoneEdit(m) => draft.(microphone := m)
    case HotkeyEdit(h) => draft.(hotkey := h)
    case TimeoutEdit(p) => draft.(recordingTimeoutMinutes := Some(TimeoutFromInput(p)))
  }

  /**
   * Starting from a clean draft, one edit makes Save appear exactly when the edited
   * field's new value differs from the committed one.
   */
  lemma EditShowsSave(committed: Settings, e: FieldEdit)
    ensures HasChanges(EditDraft(committed, e), committed) <==>
      match e
      case ModelEdit(m) => m != committed.model
      case MicrophoneEdit(m) => m != committed.microphone
      case HotkeyEdit(h) => h != committed.hotkey
      case TimeoutEdit(p) => Some(TimeoutFromInput(p)) != committed.recordingTimeoutMinutes
  {
    var d := EditDraft(committed, e);
    match e
    case ModelEdit(m) =>
      assert d != committed <==> m != committed.model;
    case MicrophoneEdit(m) =>
      assert d != committed <==> m != committed.microphone;
    case HotkeyEdit(h) =>
      assert d != committed <==> h != committed.hotkey;
    case TimeoutEdit(p) =>
      assert d != committed <==> Some(TimeoutFromInput(p)) != committed.recordingTimeoutMinutes;
  }

  /** The mounted settings view: the draft beside the shared store. */
  class SettingsPanel {
    const store: AppStore
    var draft: Settings

    /** Whether the Save button is shown. */
    predicate SaveShown()
      reads this, store
    {
      HasChanges(draft, store.settings)
    }

    /** Rendering: the draft starts as a copy of the committed settings. */
    constructor (store: AppStore)
      ensures this.store == store
      ensures draft == store.settings && !SaveShown()
    {
      this.store := store;
      draft := store.settings;
    }

    /**
     * The mount effect requests settings, models and microphones; each settles on its
     * own slice. Replaced settings reset the draft.
     */
    method Mount(fetchedSettings: Response<Settings>, fetchedModels: Response<seq<string>>,
                 fetchedMicrophones: Response<seq<string>>)
      modifies store`settings, store`models, store`microphones, this`draft
      ensures store.Snapshot() == Apply(Apply(Apply(old(store.Snapshot()),
        StoreAction.FetchSettings(fetchedSettings)),
        StoreAction.FetchModels(fetchedModels)),
        StoreAction.FetchMicrophones(fetchedMicrophones))
      ensures fetchedSettings.Resolved? ==> draft == fetchedSettings.value && !SaveShown()
      ensures fetchedSettings.Rejected? ==> draft == old(draft)
    {
      store.FetchSettings(fetchedSettings);
      if fetchedSettings.Resolved? {
        ResetDraft();
      }
      store.FetchModels(fetchedModels);
      store.FetchMicrophones(fetchedMicrophones);
    }

    /** The effect on `settings`: the draft becomes the committed settings. */
    method ResetDraft()
      modifies this`draft
      ensures draft == store.settings && !SaveShown()
    {
      draft := store.settings;
    }

    /** One of the four change handlers. */
    method Edit(e: FieldEdit)
      modifies this`draft
      ensures draft == EditDraft(old(draft), e)
    {
      match e
      case ModelEdit(m) =>
        draft := draft.(model := m);
      case MicrophoneEdit(m) =>
        draft := draft.(microphone := m);
      case HotkeyEdit(h) =>
        draft := draft.(hotkey := h);
      case TimeoutEdit(p) =>
        draft := draft.(recordingTimeoutMinutes := Some(TimeoutFromInput(p)));
    }

    /**
     * `handleSave`: the draft is sent; once the backend acknowledges it becomes the
     * committed settings, the reset effect runs and Save disappears. A rejected save
     * changes nothing.
     */
    method Save(ack: Response<()>)
      modifies store`settings, this`draft
      ensures store.Snapshot() == Apply(old(store.Snapshot()), StoreAction.SaveSettings(old(draft), ack))
      ensures draft == old(draft)
      ensures ack.Resolved? ==> store.settings == draft && !SaveShown()
      ensures ack.Rejected? ==> store.settings == old(store.settings) && SaveShown() == old(SaveShown())
    {
      store.SaveSettings(draft, ack);
      if ack.Resolved? {
        ResetDraft();
      }
    }
  }
}
