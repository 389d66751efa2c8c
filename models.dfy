/**
 * The records the backend persists (src-tauri/src/models.rs) and their defaults.
 */
module Models {

  /** Rust's `u32`, the type of the recording timeout. */
  newtype u32 = x: int | 0 <= x < 0x1_0000_0000

  /** User settings as the backend stores them. */
  datatype Settings = Settings(
    model: string,
    microphone: string,
    hotkey: string,
    recordingTimeoutMinutes: u32)

  /** One finished capture: its id, when it happened, and the three texts. */
  datatype HistoryItem = HistoryItem(
    id: string,
    timestamp: string,
    instruction: string,
    originalContent: string,
    enrichedContent: string)

  /** The whole persisted record: settings, chronological history, pipeline status string. */
  datatype AppStateData = AppStateData(
    settings: Settings,
    history: seq<HistoryItem>,
    status: string)

  /** `Settings::default()`. */
  const DefaultSettings := Settings("gemma3:4b", "default", "Ctrl+I", 10)

  /** The serde default of the `status` field, used when a stored record has no status. */
  const DefaultStatus := "idle"

  /**
   * `AppStateData::default()`. It is derived, and a derived `Default` takes the
   * `Default` of `String` for `status`, not the serde default: the status is empty.
   */
  const DefaultAppStateData := AppStateData(DefaultSettings, [], "")
}
