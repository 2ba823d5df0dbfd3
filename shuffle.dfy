/**
 * Fisher-Yates shuffling with the random choices made explicit: the draw for
 * position i is an index in [0, i], and position i is swapped with it, for i
 * running from the last position down to 1.
 */
module Shuffle {
  import opened Schedule

  /** Draws a random source could produce: the one for position i lies in [0, i]. */
  predicate ValidDraws(draws: seq<int>)
  {
    forall i :: 0 <= i < |draws| ==> 0 <= draws[i] <= i
  }

  /** [s[i], s[j]] = [s[j], s[i]]. */
  function Swap<T>(s: seq<T>, i: nat, j: nat): (r: seq<T>)
    requires i < |s| && j < |s|
    ensures |r| == |s| && r[i] == s[j] && r[j] == s[i]
    ensures forall m :: 0 <= m < |s| && m != i && m != j ==> r[m] == s[m]
    ensures multiset(r) == multiset(s)
  {
    var r := s[i := s[j]][j := s[i]];
    assert multiset(r) == multiset(s) by {
      if i != j {
        assert multiset(s[i := s[j]]) == multiset(s) - multiset{s[i]} + multiset{s[j]};
      }
    }
    r
  }

  /** The list after the swaps for positions i, i - 1, ..., 1. */
  function FisherYates<T>(s: seq<T>, draws: seq<int>, i: int): seq<T>
    requires ValidDraws(draws) && |s| <= |draws| && i < |s|
    decreases i
  {
    if i <= 0 then s else FisherYates(s[i := s[draws[i]]][draws[i] := s[i]], draws, i - 1)
  }

  /** The swaps only rearrange: same length, same multiset. */
  lemma {:induction false} FisherYatesPermutes<T>(s: seq<T>, draws: seq<int>, i: int)
    requires ValidDraws(draws) && |s| <= |draws| && i < |s|
    ensures |FisherYates(s, draws, i)| == |s|
    ensures multiset(FisherYates(s, draws, i)) == multiset(s)
    decreases i
  {
    if i > 0 {
      var t := Swap(s, i, draws[i]);
      FisherYatesPermutes(t, draws, i - 1);
    }
  }

  /** One step of the loop: the swap for position i, then the rest. */
  lemma FisherYatesStep<T>(before: seq<T>, after: seq<T>, draws: seq<int>, i: int)
    requires ValidDraws(draws) && |before| <= |draws| && 0 < i < |before|
    requires after == before[i := before[draws[i]]][draws[i] := before[i]]
    ensures FisherYates(after, draws, i - 1) == FisherYates(before, draws, i)
  {
  }

  /** A whole shuffle: every position from the last down to 1. */
  function Shuffled<T>(s: seq<T>, draws: seq<int>): (r: seq<T>)
    requires ValidDraws(draws) && |s| <= |draws|
    ensures |r| == |s|
    ensures multiset(r) == multiset(s)
  {
    FisherYatesPermutes(s, draws, |s| - 1);
    FisherYates(s, draws, |s| - 1)
  }

  /** A shuffled balanced list of n trials has n entries, only configured
      labels and, with distinct labels, label i exactly Share(n, k, i)
      times. */
  lemma ShuffledBalancedFacts<T>(labels: seq<T>, n: nat, draws: seq<int>)
    requires |labels| > 0 && ValidDraws(draws) && n <= |draws|
    ensures |Shuffled(Balanced(labels, n), draws)| == n
    ensures forall x :: x in Shuffled(Balanced(labels, n), draws) ==> x in labels
    ensures Distinct(labels) ==> forall i :: 0 <= i < |labels| ==>
              multiset(Shuffled(Balanced(labels, n), draws))[labels[i]] == Share(n, |labels|, i)
  {
    var b := Balanced(labels, n);
    BalancedFacts(labels, n);
    forall x | x in Shuffled(b, draws) ensures x in labels {
      assert x in multiset(Shuffled(b, draws));
    }
  }

  /** The swap loop of makeTrials in the JavaScript versions: in place,
      position i is exchanged with draws[i] for i from the last position
      down to 1. */
  method SwapLoop<T>(a: array<T>, draws: seq<int>)
    requires ValidDraws(draws) && a.Length <= |draws|
    modifies a
    ensures a[..] == Shuffled(old(a[..]), draws)
  {
    ghost var goal := Shuffled(a[..], draws);
    ghost var cur := a[..];
    var i := a.Length - 1;
    while i > 0
      invariant -1 <= i < a.Length == |cur|
      invariant cur == a[..]
      invariant FisherYates(cur, draws, i) == goal
      decreases i
    {
      SwapAt(a, i, draws[i]);
      FisherYatesStep(cur, a[..], draws, i);
      cur := a[..];
      i := i - 1;
    }
    assert FisherYates(cur, draws, i) == cur;
  }

  /** [trials[i], trials[j]] = [trials[j], trials[i]]. */
  method SwapAt<T>(a: array<T>, i: nat, j: nat)
    requires i < a.Length && j < a.Length
    modifies a
    ensures a[..] == old(a[..])[i := old(a[j])][j := old(a[i])]
  {
    a[i], a[j] := a[j], a[i];
  }
}
