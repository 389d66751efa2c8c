/**
 * The compact status view (src/components/State.tsx).
 *
 * Same listener pattern as the dashboard, over "status-changed", "pipeline-error"
 * and "pipeline-complete"; a completed pipeline refreshes the history. The
 * derived `recentHistory` value (computed, never rendered) is
 * `Sequences.NewestFirst(history, 3)`.
 */
module StateView {
  import opened Wrappers
  import opened Events
  import opened Listeners
  import Models
  import UiStore
  import Logic

  /**
   * The topics the view subscribes to, in the order it awaits them. The handle
   * variable declared for "pipeline-status" is never subscribed.
   */
  const Topics := ["status-changed", "pipeline-error", "pipeline-complete"]

  /** The subscription slot that receives an event, if the view subscribes to its topic. */
  function Slot(e: UiEvent): (r: Option<nat>)
    ensures r.Some? ==> r.value < |Topics| && Topics[r.value] == Topic(e)
    ensures r.None? <==> Topic(e) !in Topics
  {
    match e
    case StatusChanged(_) => Some(0)
    case PipelineError(_) => Some(1)
    case PipelineComplete => Some(2)
    case PipelineStatus(_) => None
  }

  /** What one delivered event does to the view state (the history refresh aside). */
  function React(v: ViewState, e: UiEvent): (r: ViewState)
    ensures e.StatusChanged? ==> r == ViewState(e.payload, None, "")
    ensures e.PipelineError? ==> r == ViewState(v.status, Some(e.message), "")
    // completion clears the message only: the status comes back through "status-changed"
    ensures e.PipelineComplete? ==> r == v.(statusMessage := "")
    // the view does not listen to "pipeline-status"
    ensures e.PipelineStatus? ==> r == v
  {
    match e
    case StatusChanged(p) => ViewState(p, None, "")
    case PipelineError(m) => ViewState(v.status, Some(m), "")
    case PipelineComplete => v.(statusMessage := "")
    case PipelineStatus(_) => v
  }

  /** The view state after a sequence of delivered events. */
  function Replay(v: ViewState, events: seq<UiEvent>): ViewState
    decreases |events|
  {
    if events == [] then v else React(Replay(v, events[..|events| - 1]), events[|events| - 1])
  }

  /** The displayed status is the payload of the last "status-changed", or the starting one. */
  lemma {:induction false} StatusFollowsLastChange(v: ViewState, events: seq<UiEvent>)
    ensures Replay(v, events).status == LastStatusChange(events).GetOr(v.status)
    decreases |events|
  {
    if events != [] {
      StatusFollowsLastChange(v, events[..|events| - 1]);
    }
  }

  /** This view never shows a message: it starts empty and no callback sets one. */
  lemma {:induction false} MessageStaysEmpty(v: ViewState, events: seq<UiEvent>)
    requires v.statusMessage == ""
    ensures Replay(v, events).statusMessage == ""
    decreases |events|
  {
    if events != [] {
      MessageStaysEmpty(v, events[..|events| - 1]);
    }
  }

  /** The headline for a status. */
  function StatusText(s: string): (r: string)
    ensures r in {"Ready", "Listening for Instruction", "Listening for Content", "Processing", "Done!"}
    // every unknown status, the empty string included, reads as "Ready"
    ensures r == "Ready" <==> s !in {"instruction", "content", "processing", "success"}
    ensures r == "Done!" <==> s == "success"
  {
    match s
    case "idle" => "Ready"
    case "instruction" => "Listening for Instruction"
    case "content" => "Listening for Content"
    case "processing" => "Processing"
    case "success" => "Done!"
    case _ => "Ready"
  }

  /** The trigger button's caption, when the button is shown. */
  function TriggerButton(status: string): (r: Option<string>)
    ensures r.Some? <==> status in {"idle", "instruction", "content"}
    ensures r.Some? ==> (r.value == "Start Recording" <==> status == "idle")
    ensures r.Some? ==> r.value in {"Start Recording", "Continue"}
  {
    if status == "idle" then Some("Start Recording")
    else if status == "instruction" || status == "content" then Some("Continue")
    else None
  }

  /**
   * For the statuses the backend sends, the button is shown exactly when a trigger
   * would advance the pipeline: it is hidden only while processing.
   */
  lemma ButtonShownIffTriggerAdvances(st: Logic.AppStatus)
    ensures TriggerButton(Logic.AsStr(st)).Some? <==> Logic.Next(st).Some?
  {
    match st
    case Idle =>
    case Instruction =>
    case Content =>
    case Processing =>
  }

  /** One mounted status view over the shared store. */
  class StatusView {
    const store: UiStore.AppStore
    var statusMessage: string
    var listeners: Lifecycle

    /** What the view shows of the pipeline. */
    function View(): ViewState
      reads this, store
    {
      ViewState(store.status, store.error, statusMessage)
    }

    /** Whether an event of this kind currently reaches the view's callback. */
    predicate Listening(e: UiEvent)
      reads this
    {
      var slot := Slot(e);
      slot.Some? && slot.value < |listeners.handles| && listeners.handles[slot.value] == Live
    }

    /** Rendering: an empty message, nothing subscribed yet. */
    constructor (store: UiStore.AppStore)
      ensures this.store == store
      ensures statusMessage == "" && listeners == Lifecycle([], false)
    {
      this.store := store;
      statusMessage := "";
      listeners := Lifecycle([], false);
    }

    /** The mount effect: fetch history, then start `setupListeners`; no handle is assigned yet. */
    method Mount(fetched: UiStore.Response<seq<Models.HistoryItem>>)
      modifies store`history, this`listeners
      ensures store.Snapshot() == UiStore.Apply(old(store.Snapshot()), UiStore.FetchHistory(fetched))
      ensures listeners == Subscribe(|Topics|)
    {
      store.FetchHistory(fetched);
      listeners := Subscribe(|Topics|);
    }

    /** The next pending `listen` resolves. */
    method ListenResolved()
      modifies this`listeners
      ensures listeners == Resolve(old(listeners))
    {
      listeners := Resolve(listeners);
    }

    /** The effect's cleanup: unlisten every assigned handle. */
    method Unmount()
      modifies this`listeners
      ensures listeners == Cleanup(old(listeners))
    {
      listeners := Cleanup(listeners);
    }

    /**
     * The backend emits `e`: the callback runs if its listener is live. On completion
     * the history is fetched again; `refreshed` is what that fetch settles with.
     */
    method Deliver(e: UiEvent, refreshed: UiStore.Response<seq<Models.HistoryItem>>)
      modifies store`status, store`error, store`history, this`statusMessage
      ensures Listening(e) ==> View() == React(old(View()), e)
      ensures !Listening(e) ==> View() == old(View())
      ensures store.history ==
        if Listening(e) && e.PipelineComplete?
        then UiStore.Apply(old(store.Snapshot()), UiStore.FetchHistory(refreshed)).history
        else old(store.history)
    {
      if !Listening(e) {
        return;
      }
      match e
      case StatusChanged(p) =>
        store.SetStatus(p);
        store.SetError(None);
        statusMessage := "";
      case PipelineError(m) =>
        store.SetError(Some(m));
        statusMessage := "";
      case PipelineComplete =>
        store.FetchHistory(refreshed);
        statusMessage := "";
      case PipelineStatus(_) =>
    }
  }
}
