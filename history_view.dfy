/**
 * The history view (src/components/History.tsx): the whole stored history, newest
 * first, or an empty-state message; and a Clear All button.
 */
module HistoryView {
  import Models
  import Sequences
  import UiStore

  /** The listed items: a reversed copy of the history, so the newest comes first. */
  function Displayed(history: seq<Models.HistoryItem>): (r: seq<Models.HistoryItem>)
    ensures |r| == |history|
    ensures forall i :: 0 <= i < |r| ==> r[i] == history[|history| - 1 - i]
    ensures multiset(r) == multiset(history)
  {
    Sequences.ReverseMultiset(history);
    Sequences.Reverse(history)
  }

  /** What the scroll area shows. */
  datatype Screen = EmptyState | Listing(items: seq<Models.HistoryItem>)

  /** The empty-state message exactly when there is no history, the list otherwise. */
  function ScreenFor(history: seq<Models.HistoryItem>): (r: Screen)
    ensures r.EmptyState? <==> |history| == 0
    ensures r.Listing? ==> r.items == Displayed(history) && |r.items| > 0
  {
    if |history| == 0 then EmptyState else Listing(Displayed(history))
  }

  /** Whether Clear All can be clicked: only when there is something to clear. */
  function ClearAllEnabled(history: seq<Models.HistoryItem>): (r: bool)
    ensures r <==> history != []
  {
    |history| != 0
  }

  /** Clear All is enabled exactly when items are listed. */
  lemma ClearAllIffListed(history: seq<Models.HistoryItem>)
    ensures ClearAllEnabled(history) <==> ScreenFor(history).Listing?
  {
  }

  /** The newest item is listed first and the oldest last. */
  lemma NewestFirstOldestLast(history: seq<Models.HistoryItem>)
    requires history != []
    ensures var items := ScreenFor(history).items;
      items[0] == history[|history| - 1] && items[|items| - 1] == history[0]
  {
  }

  /** The mount effect: request the history. */
  method Mount(store: UiStore.AppStore, fetched: UiStore.Response<seq<Models.HistoryItem>>)
    modifies store`history
    ensures store.Snapshot() == UiStore.Apply(old(store.Snapshot()), UiStore.FetchHistory(fetched))
  {
    store.FetchHistory(fetched);
  }

  /**
   * Clicking the enabled Clear All: once the backend acknowledges, the empty state
   * shows and the button is disabled; a rejected clear changes nothing.
   */
  method ClickClearAll(store: UiStore.AppStore, ack: UiStore.Response<()>)
    requires ClearAllEnabled(store.history)
    modifies store`history
    ensures store.Snapshot() == UiStore.Apply(old(store.Snapshot()), UiStore.ClearHistory(ack))
    ensures ack.Resolved? ==> ScreenFor(store.history) == EmptyState && !ClearAllEnabled(store.history)
    ensures ack.Rejected? ==> store.history == old(store.history)
  {
    store.ClearHistory(ack);
  }
}
