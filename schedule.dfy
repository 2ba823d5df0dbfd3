/**
 * The composition of a block of trials before it is shuffled: the condition
 * labels in configuration order, each repeated a number of times.
 */
module Schedule {
  import opened Numeric

  /** [x] * c in Python, or c pushes of x in JavaScript. */
  function Repeat<T>(x: T, c: nat): (r: seq<T>)
    ensures |r| == c
    ensures forall i :: 0 <= i < c ==> r[i] == x
  {
    seq(c, _ => x)
  }

  predicate Distinct<T(==)>(s: seq<T>)
  {
    forall i, j :: 0 <= i < j < |s| ==> s[i] != s[j]
  }

  /** The first j labels, labels[i] repeated counts[i] times, in order. */
  function Concat<T>(labels: seq<T>, counts: seq<nat>, j: nat): seq<T>
    requires |counts| == |labels| && j <= |labels|
  {
    if j == 0 then [] else Concat(labels, counts, j - 1) + Repeat(labels[j - 1], counts[j - 1])
  }

  function SumTo(counts: seq<nat>, j: nat): nat
    requires j <= |counts|
  {
    if j == 0 then 0 else SumTo(counts, j - 1) + counts[j - 1]
  }

  lemma {:induction false} ConcatLength<T>(labels: seq<T>, counts: seq<nat>, j: nat)
    requires |counts| == |labels| && j <= |labels|
    ensures |Concat(labels, counts, j)| == SumTo(counts, j)
  {
    if j > 0 {
      ConcatLength(labels, counts, j - 1);
    }
  }

  /** With distinct labels, labels[i] occurs counts[i] times among the first
      j groups if i < j, and not at all otherwise. */
  lemma {:induction false} ConcatCount<T>(labels: seq<T>, counts: seq<nat>, j: nat, i: nat)
    requires |counts| == |labels| && j <= |labels| && i < |labels| && Distinct(labels)
    ensures multiset(Concat(labels, counts, j))[labels[i]] == if i < j then counts[i] else 0
  {
    if j > 0 {
      ConcatCount(labels, counts, j - 1, i);
      var r := Repeat(labels[j - 1], counts[j - 1]);
      assert multiset(r)[labels[i]] == if i == j - 1 then counts[j - 1] else 0 by {
        if i == j - 1 {
          assert r == seq(counts[j - 1], _ => labels[i]);
          RepeatCount(labels[i], counts[j - 1]);
        } else {
          assert labels[i] !in r;
        }
      }
    }
  }

  lemma {:induction false} RepeatCount<T>(x: T, c: nat)
    ensures multiset(Repeat(x, c))[x] == c
  {
    if c > 0 {
      RepeatCount(x, c - 1);
      assert Repeat(x, c) == Repeat(x, c - 1) + [x];
    }
  }

  /** Only configured labels occur. */
  lemma {:induction false} ConcatMembers<T>(labels: seq<T>, counts: seq<nat>, j: nat)
    requires |counts| == |labels| && j <= |labels|
    ensures forall x :: x in Concat(labels, counts, j) ==> x in labels[..j]
  {
    if j > 0 {
      ConcatMembers(labels, counts, j - 1);
      assert labels[..j] == labels[..j - 1] + [labels[j - 1]];
    }
  }

  /** The share of condition i when n trials are split over k conditions:
      n div k, plus one for the first n mod k conditions. */
  function Share(n: nat, k: nat, i: nat): (c: nat)
    requires k > 0
  {
    n / k + (if i < n % k then 1 else 0)
  }

  function BalancedCounts(n: nat, k: nat): (cs: seq<nat>)
    requires k > 0
    ensures |cs| == k
    ensures forall i :: 0 <= i < k ==> cs[i] == Share(n, k, i)
  {
    seq(k, i requires 0 <= i < k => Share(n, k, i))
  }

  /** The pre-shuffle list of a block of n trials over the given labels. */
  function Balanced<T>(labels: seq<T>, n: nat): (r: seq<T>)
    requires |labels| > 0
    ensures |r| == n
  {
    var k := |labels|;
    ConcatLength(labels, BalancedCounts(n, k), k);
    BalancedSum(n, k, k);
    assert n == k * (n / k) + n % k;
    Concat(labels, BalancedCounts(n, k), k)
  }

  lemma MulStep(a: int, q: int)
    ensures a * q + q == (a + 1) * q
  {
  }

  lemma {:induction false} BalancedSum(n: nat, k: nat, j: nat)
    requires k > 0 && j <= k
    ensures SumTo(BalancedCounts(n, k), j) == j * (n / k) + Min(j, n % k)
  {
    if j > 0 {
      BalancedSum(n, k, j - 1);
      var q := n / k;
      var cs := BalancedCounts(n, k);
      assert SumTo(cs, j) == SumTo(cs, j - 1) + cs[j - 1];
      assert cs[j - 1] == q + (if j - 1 < n % k then 1 else 0);
      MulStep(j - 1, q);
    }
  }

  /** The balanced list (of exactly n entries) holds only configured labels
      and, when the labels are distinct, holds label i exactly Share(n, k, i)
      times: n div k or n div k + 1, the latter for the first n mod k. */
  lemma BalancedFacts<T>(labels: seq<T>, n: nat)
    requires |labels| > 0
    ensures forall x :: x in Balanced(labels, n) ==> x in labels
    ensures Distinct(labels) ==> forall i :: 0 <= i < |labels| ==>
              multiset(Balanced(labels, n))[labels[i]] == Share(n, |labels|, i)
  {
    var k := |labels|;
    ConcatMembers(labels, BalancedCounts(n, k), k);
    assert labels[..k] == labels;
    if Distinct(labels) {
      forall i | 0 <= i < k
        ensures multiset(Balanced(labels, n))[labels[i]] == Share(n, k, i)
      {
        ConcatCount(labels, BalancedCounts(n, k), k, i);
      }
    }
  }

  function Uniform(k: nat, per: nat): (cs: seq<nat>)
    ensures |cs| == k
    ensures forall i :: 0 <= i < k ==> cs[i] == per
  {
    seq(k, _ => per)
  }

  lemma {:induction false} UniformSum(k: nat, per: nat, j: nat)
    requires j <= k
    ensures SumTo(Uniform(k, per), j) == j * per
  {
    if j > 0 {
      UniformSum(k, per, j - 1);
    }
  }

  /** Every label repeated the same number of times, in order. */
  function Each<T>(labels: seq<T>, per: nat): (r: seq<T>)
    ensures |r| == |labels| * per
  {
    ConcatLength(labels, Uniform(|labels|, per), |labels|);
    UniformSum(|labels|, per, |labels|);
    Concat(labels, Uniform(|labels|, per), |labels|)
  }

  /** The list holds only configured labels and, with distinct labels, each
      of them exactly per times. */
  lemma EachFacts<T>(labels: seq<T>, per: nat)
    ensures forall x :: x in Each(labels, per) ==> x in labels
    ensures Distinct(labels) ==> forall i :: 0 <= i < |labels| ==>
              multiset(Each(labels, per))[labels[i]] == per
  {
    var k := |labels|;
    ConcatMembers(labels, Uniform(k, per), k);
    assert labels[..k] == labels;
    if Distinct(labels) {
      forall i | 0 <= i < k
        ensures multiset(Each(labels, per))[labels[i]] == per
      {
        ConcatCount(labels, Uniform(k, per), k, i);
      }
    }
  }
}
