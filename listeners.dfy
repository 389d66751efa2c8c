/**
 * The listener lifecycle of a view's effect (src/components/Dashboard.tsx,
 * src/components/State.tsx).
 *
 * On mount the effect starts `setupListeners`, which awaits one `listen` call per
 * topic in turn and stores each unlisten handle in a variable once it resolves. The
 * effect's cleanup calls the handles that are assigned at that moment. A step
 * sequence says in which order "the next `listen` resolved" and "cleanup ran" happen.
 */
module Listeners {

  /** The state of one topic's subscription. */
  datatype Handle =
    | Pending   // `listen` not yet resolved: the handle variable is unassigned
    | Live      // resolved and not disposed: the listener receives events
    | Disposed  // its unlisten function has been called

  /** The subscriptions of one mounted view, in the order `setupListeners` awaits them. */
  datatype Lifecycle = Lifecycle(handles: seq<Handle>, mounted: bool)

  /** What can happen next. */
  datatype Step = Resolved | CleanedUp

  /**
   * Mounting: no handle assigned yet. `setupListeners` awaits the `listen` calls one
   * after another, so they resolve in topic order.
   */
  function Subscribe(topics: nat): (l: Lifecycle)
    ensures |l.handles| == topics && l.mounted
    ensures forall i :: 0 <= i < topics ==> l.handles[i] == Pending
  {
    Lifecycle(seq(topics, _ => Pending), true)
  }

  /** The index of the first unresolved subscription, or the count when all resolved. */
  function FirstPending(hs: seq<Handle>): (k: nat)
    ensures k <= |hs|
    ensures forall i :: 0 <= i < k ==> hs[i] != Pending
    ensures k < |hs| ==> hs[k] == Pending
  {
    if hs == [] then 0
    else if hs[0] == Pending then 0
    else 1 + FirstPending(hs[1..])
  }

  /** How many listeners are receiving events. */
  function LiveCount(hs: seq<Handle>): (n: nat)
    ensures n <= |hs|
    ensures n == 0 <==> forall i :: 0 <= i < |hs| ==> hs[i] != Live
  {
    if hs == [] then 0
    else (if hs[0] == Live then 1 else 0) + LiveCount(hs[1..])
  }

  /**
   * The cleanup as written: call each handle that is assigned and not yet called.
   * Exactly the live handles change, each to disposed; pending ones are untouched.
   */
  function Cleanup(l: Lifecycle): (r: Lifecycle)
    ensures |r.handles| == |l.handles| && !r.mounted
    ensures forall i :: 0 <= i < |l.handles| ==>
      (r.handles[i] != l.handles[i] <==> l.handles[i] == Live)
    ensures forall i :: 0 <= i < |l.handles| ==> r.handles[i] != Live
    ensures forall i :: 0 <= i < |l.handles| && l.handles[i] == Live ==> r.handles[i] == Disposed
  {
    Lifecycle(seq(|l.handles|, i requires 0 <= i < |l.handles| =>
      if l.handles[i] == Live then Disposed else l.handles[i]), false)
  }

  /**
   * The next `listen` resolving, as written: its handle is assigned and the listener
   * is registered, whether or not cleanup has already run.
   */
  function ResolveAsWritten(l: Lifecycle): (r: Lifecycle)
    ensures |r.handles| == |l.handles| && r.mounted == l.mounted
    // exactly the first pending handle changes, and it becomes live, mounted or not
    ensures forall i :: 0 <= i < |l.handles| ==>
      (r.handles[i] != l.handles[i] <==> i == FirstPending(l.handles))
    ensures FirstPending(l.handles) < |l.handles| ==> r.handles[FirstPending(l.handles)] == Live
  {
    var k := FirstPending(l.handles);
    if k == |l.handles| then l else l.(handles := l.handles[k := Live])
  }

  /**
   * The next `listen` resolving, with the leak closed: once cleanup has run, a handle
   * that resolves late is disposed at once.
   */
  function Resolve(l: Lifecycle): (r: Lifecycle)
    ensures |r.handles| == |l.handles| && r.mounted == l.mounted
    ensures l.mounted ==> r == ResolveAsWritten(l)
    // exactly the first pending handle changes: live while mounted, disposed at once after cleanup
    ensures forall i :: 0 <= i < |l.handles| ==>
      (r.handles[i] != l.handles[i] <==> i == FirstPending(l.handles))
    ensures FirstPending(l.handles) < |l.handles| ==>
      r.handles[FirstPending(l.handles)] == (if l.mounted then Live else Disposed)
  {
    var k := FirstPending(l.handles);
    if k == |l.handles| then l
    else l.(handles := l.handles[k := if l.mounted then Live else Disposed])
  }

  /** The lifecycle after a sequence of steps, as written. */
  function RunAsWritten(l: Lifecycle, steps: seq<Step>): Lifecycle
    decreases |steps|
  {
    if steps == [] then l
    else
      var prev := RunAsWritten(l, steps[..|steps| - 1]);
      if steps[|steps| - 1] == Resolved then ResolveAsWritten(prev) else Cleanup(prev)
  }

  /** The lifecycle after a sequence of steps, with the leak closed. */
  function Run(l: Lifecycle, steps: seq<Step>): (r: Lifecycle)
    ensures |r.handles| == |l.handles|
    decreases |steps|
  {
    if steps == [] then l
    else
      var prev := Run(l, steps[..|steps| - 1]);
      if steps[|steps| - 1] == Resolved then Resolve(prev) else Cleanup(prev)
  }

  /**
   * The leak as written: a view that is cleaned up before its first `listen` resolves
   * ends with all three listeners registered and no way left to remove them.
   */
  lemma EarlyCleanupLeaksAsWritten()
    ensures var l := RunAsWritten(Subscribe(3), [CleanedUp, Resolved, Resolved, Resolved]);
      !l.mounted && LiveCount(l.handles) == 3
  {
    var l0 := Subscribe(3);
    assert l0.handles == [Pending, Pending, Pending];
    var l1 := Cleanup(l0);
    assert l1.handles == [Pending, Pending, Pending];
    var l2 := ResolveAsWritten(l1);
    assert l2.handles == [Live, Pending, Pending];
    var l3 := ResolveAsWritten(l2);
    assert l3.handles == [Live, Live, Pending];
    var l4 := ResolveAsWritten(l3);
    assert l4.handles == [Live, Live, Live];
    var steps := [CleanedUp, Resolved, Resolved, Resolved];
    assert steps[..1][..0] == [];
    assert RunAsWritten(l0, steps[..1]) == l1;
    assert steps[..2][..1] == steps[..1];
    assert RunAsWritten(l0, steps[..2]) == l2;
    assert steps[..3][..2] == steps[..2];
    assert RunAsWritten(l0, steps[..3]) == l3;
    assert steps[..3] == steps[..|steps| - 1];
    assert RunAsWritten(l0, steps) == l4;
    assert LiveCount(l4.handles) == 3 by {
      assert l4.handles[1..] == [Live, Live];
      assert l4.handles[1..][1..] == [Live];
      assert l4.handles[1..][1..][1..] == [];
    }
  }

  /** A disposed handle stays disposed: no handle is disposed twice or revived. */
  lemma {:induction false} DisposedStaysDisposed(l: Lifecycle, steps: seq<Step>, i: nat)
    requires i < |l.handles| && l.handles[i] == Disposed
    ensures Run(l, steps).handles[i] == Disposed
    decreases |steps|
  {
    if steps != [] {
      DisposedStaysDisposed(l, steps[..|steps| - 1], i);
    }
  }

  /**
   * With the leak closed: from the moment cleanup has run, no listener is live, however
   * the remaining subscriptions resolve.
   */
  lemma {:induction false} NothingLiveAfterCleanup(topics: nat, steps: seq<Step>)
    ensures var l := Run(Subscribe(topics), steps);
      CleanedUp in steps ==> !l.mounted && LiveCount(l.handles) == 0
    decreases |steps|
  {
    if steps != [] {
      var init := steps[..|steps| - 1];
      NothingLiveAfterCleanup(topics, init);
      assert CleanedUp in steps && steps[|steps| - 1] != CleanedUp ==> CleanedUp in init;
      var prev := Run(Subscribe(topics), init);
      if steps[|steps| - 1] == Resolved && CleanedUp in steps {
        var k := FirstPending(prev.handles);
        if k < |prev.handles| {
          var next := Resolve(prev);
          assert forall i :: 0 <= i < |next.handles| ==> next.handles[i] != Live;
        }
      }
    }
  }

  /**
   * With the leak closed: once cleanup has run and every `listen` has resolved, every
   * subscription has been disposed, so each unsubscribe happened exactly once.
   */
  lemma {:induction false} EverySubscriptionDisposed(topics: nat, steps: seq<Step>)
    requires CleanedUp in steps
    requires FirstPending(Run(Subscribe(topics), steps).handles) == topics
    ensures forall i :: 0 <= i < topics ==> Run(Subscribe(topics), steps).handles[i] == Disposed
  {
    NothingLiveAfterCleanup(topics, steps);
    var hs := Run(Subscribe(topics), steps).handles;
    forall i | 0 <= i < topics
      ensures hs[i] == Disposed
    {
      assert hs[i] != Pending && hs[i] != Live;
    }
  }
}
