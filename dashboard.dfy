/**
 * The dashboard view (src/components/Dashboard.tsx).
 *
 * Its listeners write the store's `status` and `error` and the view's own
 * `statusMessage`; the status line and the button are derived from the store. The
 * derived `recentHistory` value (computed, never rendered) is
 * `Sequences.NewestFirst(history, 3)`.
 */
module Dashboard {
  import opened Wrappers
  import opened Events
  import opened Listeners
  import Models
  import UiStore
  import Logic

  /** The topics the view subscribes to, in the order it awaits them. */
  const Topics := ["status-changed", "pipeline-error", "pipeline-status"]

  /** The subscription slot that receives an event, if the view subscribes to its topic. */
  function Slot(e: UiEvent): (r: Option<nat>)
    ensures r.Some? ==> r.value < |Topics| && Topics[r.value] == Topic(e)
    ensures r.None? <==> Topic(e) !in Topics
  {
    match e
    case StatusChanged(_) => Some(0)
    case PipelineError(_) => Some(1)
    case PipelineStatus(_) => Some(2)
    case PipelineComplete => None
  }

  /** What one delivered event does to the view state. */
  function React(v: ViewState, e: UiEvent): (r: ViewState)
    // a status change takes the payload and clears both the error and the message
    ensures e.StatusChanged? ==> r == ViewState(e.payload, None, "")
    // an error is shown and clears the message; the status stays
    ensures e.PipelineError? ==> r == ViewState(v.status, Some(e.message), "")
    // a progress message replaces only the message
    ensures e.PipelineStatus? ==> r == v.(statusMessage := e.message)
    // the view does not listen to "pipeline-complete"
    ensures e.PipelineComplete? ==> r == v
  {
    match e
    case StatusChanged(p) => ViewState(p, None, "")
    case PipelineError(m) => ViewState(v.status, Some(m), "")
    case PipelineStatus(m) => v.(statusMessage := m)
    case PipelineComplete => v
  }

  /** The view state after a sequence of delivered events. */
  function Replay(v: ViewState, events: seq<UiEvent>): ViewState
    decreases |events|
  {
    if events == [] then v else React(Replay(v, events[..|events| - 1]), events[|events| - 1])
  }

  /** The displayed status is the payload of the last "status-changed", or the starting one. */
  lemma {:induction false} StatusFollowsLastChange(v: ViewState, events: seq<UiEvent>)
    ensures Replay(v, events).status == LastStatusChange(events).GetOr(v.status)
    decreases |events|
  {
    if events != [] {
      StatusFollowsLastChange(v, events[..|events| - 1]);
    }
  }

  /**
   * Progress messages never touch the status or the error: an error stays on screen
   * until the next status change or error replaces it.
   */
  lemma {:induction false} ProgressKeepsStatusAndError(v: ViewState, events: seq<UiEvent>)
    requires forall i :: 0 <= i < |events| ==> !events[i].StatusChanged? && !events[i].PipelineError?
    ensures Replay(v, events).status == v.status && Replay(v, events).error == v.error
    decreases |events|
  {
    if events != [] {
      ProgressKeepsStatusAndError(v, events[..|events| - 1]);
    }
  }

  /** The headline for a status. */
  function StatusText(s: string): (r: string)
    ensures r in {"Ready", "Listening for Instruction...", "Listening for Content...", "Processing...", "Done!"}
    // every unknown status, the empty string included, reads as "Ready"
    ensures r == "Ready" <==> s !in {"instruction", "content", "processing", "success"}
    ensures r == "Done!" <==> s == "success"
  {
    match s
    case "idle" => "Ready"
    case "instruction" => "Listening for Instruction..."
    case "content" => "Listening for Content..."
    case "processing" => "Processing..."
    case "success" => "Done!"
    case _ => "Ready"
  }

  /**
   * The backend never sends "success", so "Done!" never appears; and each backend
   * status has its own headline.
   */
  lemma BackendHeadlines(a: Logic.AppStatus, b: Logic.AppStatus)
    ensures StatusText(Logic.AsStr(a)) != "Done!"
    ensures StatusText(Logic.AsStr(a)) == StatusText(Logic.AsStr(b)) ==> a == b
  {
    match a
    case Idle =>
    case Instruction =>
    case Content =>
    case Processing =>
  }

  /** The trigger button's caption and variant. */
  datatype Button = Button(caption: string, variant: string)

  /** The button: a default "Start Recording" when idle, a destructive "Next Step / Stop" otherwise. */
  function TriggerButton(status: string): (r: Button)
    ensures r.caption == "Start Recording" <==> status == "idle"
    ensures r.variant == "default" <==> status == "idle"
    ensures r.caption in {"Start Recording", "Next Step / Stop"}
    ensures r.variant in {"default", "destructive"}
  {
    if status == "idle" then Button("Start Recording", "default")
    else Button("Next Step / Stop", "destructive")
  }

  /** "Start Recording" is only offered under the headline "Ready". */
  lemma StartOnlyWhenReady(status: string)
    ensures TriggerButton(status).caption == "Start Recording" ==> StatusText(status) == "Ready"
  {
  }

  /** One mounted dashboard over the shared store. */
  class DashboardView {
    const store: UiStore.AppStore
    var statusMessage: string
    var listeners: Lifecycle

    /** What the view shows of the pipeline. */
    function View(): ViewState
      reads this, store
    {
      ViewState(store.status, store.error, statusMessage)
    }

    /** Whether an event of this kind currently reaches the view's callback. */
    predicate Listening(e: UiEvent)
      reads this
    {
      var slot := Slot(e);
      slot.Some? && slot.value < |listeners.handles| && listeners.handles[slot.value] == Live
    }

    /** Rendering: an empty message, nothing subscribed yet. */
    constructor (store: UiStore.AppStore)
      ensures this.store == store
      ensures statusMessage == "" && listeners == Lifecycle([], false)
    {
      this.store := store;
      statusMessage := "";
      listeners := Lifecycle([], false);
    }

    /** The mount effect: fetch history, then start `setupListeners`; no handle is assigned yet. */
    method Mount(fetched: UiStore.Response<seq<Models.HistoryItem>>)
      modifies store`history, this`listeners
      ensures store.Snapshot() == UiStore.Apply(old(store.Snapshot()), UiStore.FetchHistory(fetched))
      ensures listeners == Subscribe(|Topics|)
    {
      store.FetchHistory(fetched);
      listeners := Subscribe(|Topics|);
    }

    /** The next pending `listen` resolves. */
    method ListenResolved()
      modifies this`listeners
      ensures listeners == Resolve(old(listeners))
    {
      listeners := Resolve(listeners);
    }

    /** The effect's cleanup: unlisten every assigned handle. */
    method Unmount()
      modifies this`listeners
      ensures listeners == Cleanup(old(listeners))
    {
      listeners := Cleanup(listeners);
    }

    /** The backend emits `e`: the callback runs if its listener is live. */
    method Deliver(e: UiEvent)
      modifies store`status, store`error, this`statusMessage
      ensures Listening(e) ==> View() == React(old(View()), e)
      ensures !Listening(e) ==> View() == old(View())
    {
      if !Listening(e) {
        return;
      }
      match e
      case StatusChanged(p) =>
        store.SetStatus(p);
        store.SetError(None);
        statusMessage := "";
      case PipelineError(m) =>
        store.SetError(Some(m));
        statusMessage := "";
      case PipelineStatus(m) =>
        statusMessage := m;
      case PipelineComplete =>
    }
  }
}
