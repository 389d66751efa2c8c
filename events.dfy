/**
 * The backend-to-frontend events the views listen to, and the part of the UI
 * state their callbacks write.
 */
module Events {
  import opened Wrappers

  /** One delivered event with its payload. */
  datatype UiEvent =
    | StatusChanged(payload: string)
    | PipelineError(message: string)
    | PipelineStatus(message: string)
    | PipelineComplete

  /** The event's topic name. */
  function Topic(e: UiEvent): string {
    match e
    case StatusChanged(_) => "status-changed"
    case PipelineError(_) => "pipeline-error"
    case PipelineStatus(_) => "pipeline-status"
    case PipelineComplete => "pipeline-complete"
  }

  /**
   * What a view shows of the pipeline: the store's `status` and `error` and the view's
   * own `statusMessage`.
   */
  datatype ViewState = ViewState(status: string, error: Option<string>, statusMessage: string)

  /** The payload of the last "status-changed" event, if any: a reference for last-write-wins. */
  function LastStatusChange(events: seq<UiEvent>): Option<string>
    decreases |events|
  {
    if events == [] then None
    else if events[|events| - 1].StatusChanged? then Some(events[|events| - 1].payload)
    else LastStatusChange(events[..|events| - 1])
  }
}
