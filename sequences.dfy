/** Sequence views shared by the frontend's lists. */
module Sequences {

  /** `xs.slice().reverse()`: a reversed copy. */
  function Reverse<T>(s: seq<T>): (r: seq<T>)
    ensures |r| == |s|
    ensures forall i :: 0 <= i < |s| ==> r[i] == s[|s| - 1 - i]
  {
    if s == [] then [] else [s[|s| - 1]] + Reverse(s[..|s| - 1])
  }

  /** Reversing twice gives the original back. */
  lemma ReverseReverse<T>(s: seq<T>)
    ensures Reverse(Reverse(s)) == s
  {
  }

  /** Reversal keeps the same items, each as often. */
  lemma {:induction false} ReverseMultiset<T>(s: seq<T>)
    ensures multiset(Reverse(s)) == multiset(s)
    decreases |s|
  {
    if s != [] {
      ReverseMultiset(s[..|s| - 1]);
      assert s == s[..|s| - 1] + [s[|s| - 1]];
    }
  }

  /** `xs.slice(-n)` for n > 0: the last n items, or all of them when there are fewer. */
  function TakeLast<T>(s: seq<T>, n: nat): (r: seq<T>)
    requires n > 0
    ensures |r| == if |s| < n then |s| else n
    ensures forall i :: 0 <= i < |r| ==> r[i] == s[|s| - |r| + i]
  {
    if |s| < n then s else s[|s| - n..]
  }

  /** The last items are items of the sequence, each at most as often. */
  lemma TakeLastMultiset<T>(s: seq<T>, n: nat)
    requires n > 0
    ensures multiset(TakeLast(s, n)) <= multiset(s)
  {
    var last := TakeLast(s, n);
    var prefix := s[..|s| - |last|];
    assert s == prefix + last;
    assert multiset(s) == multiset(prefix) + multiset(last);
  }

  /**
   * `xs.slice(-n).reverse()`: the last n items (all when there are fewer), newest first.
   * Item i of the view is the i-th item counted back from the end.
   */
  function NewestFirst<T>(s: seq<T>, n: nat): (r: seq<T>)
    requires n > 0
    ensures |r| == if |s| < n then |s| else n
    ensures forall i :: 0 <= i < |r| ==> r[i] == s[|s| - 1 - i]
    ensures multiset(r) <= multiset(s)
  {
    ReverseMultiset(TakeLast(s, n));
    TakeLastMultiset(s, n);
    Reverse(TakeLast(s, n))
  }
}
