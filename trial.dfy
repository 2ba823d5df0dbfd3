/**
 * Values shared by the trial executors of every variant: the configured
 * conditions, the table built from them, and the record of one trial.
 */
module Trial {
  import opened Schedule

  /** One configured condition: [label, valence, magnitude, points_hit,
      points_miss]; `name` is the label. */
  datatype Condition = Condition(name: string, valence: int, magnitude: int, pointsHit: int, pointsMiss: int)

  /** What one completed trial reports: the staircase's proposal, the duration
      the target was shown, the hit, the payoff and the running total. */
  datatype Record = Record(
    condition: string,
    targetMsPre: int,
    targetMs: int,
    hit: bool,
    deltaPoints: int,
    pointsTotal: int)

  function LabelsOf(conditions: seq<Condition>): (labels: seq<string>)
    ensures |labels| == |conditions|
    ensures forall i :: 0 <= i < |conditions| ==> labels[i] == conditions[i].name
  {
    seq(|conditions|, i requires 0 <= i < |conditions| => conditions[i].name)
  }

  /** The table keyed by label that every variant builds from the condition
      list ({c[0]: ... for c in conditions} in Python, a forEach filling an
      object in JavaScript): a later entry with the same label replaces an
      earlier one. */
  function MetaOf(conditions: seq<Condition>): (m: map<string, Condition>)
    ensures m.Keys == set i | 0 <= i < |conditions| :: conditions[i].name
    ensures forall i :: 0 <= i < |conditions| && LastWithLabel(conditions, i) ==>
              m[conditions[i].name] == conditions[i]
    ensures forall l :: l in m ==> m[l].name == l
    decreases |conditions|
  {
    if conditions == [] then map[]
    else
      var init := conditions[..|conditions| - 1];
      var m := MetaOf(init);
      MetaOfStep(conditions, m);
      m[conditions[|conditions| - 1].name := conditions[|conditions| - 1]]
  }

  /** Adding the last condition to the table of the ones before it. */
  lemma MetaOfStep(conditions: seq<Condition>, m: map<string, Condition>)
    requires conditions != []
    requires var init := conditions[..|conditions| - 1];
             && m.Keys == (set i | 0 <= i < |init| :: init[i].name)
             && (forall i :: 0 <= i < |init| && LastWithLabel(init, i) ==> m[init[i].name] == init[i])
             && (forall l :: l in m ==> m[l].name == l)
    ensures var last := conditions[|conditions| - 1];
            var r := m[last.name := last];
            && r.Keys == (set i | 0 <= i < |conditions| :: conditions[i].name)
            && (forall i :: 0 <= i < |conditions| && LastWithLabel(conditions, i) ==> r[conditions[i].name] == conditions[i])
            && (forall l :: l in r ==> r[l].name == l)
  {
    var k := |conditions| - 1;
    var init := conditions[..k];
    var last := conditions[k];
    var r := m[last.name := last];
    KeysStep(conditions, m.Keys);
    assert r.Keys == m.Keys + {last.name};
    forall i | 0 <= i < |conditions| && LastWithLabel(conditions, i)
      ensures r[conditions[i].name] == conditions[i]
    {
      if i < k {
        assert conditions[i].name != last.name;
        assert init[i] == conditions[i];
        assert LastWithLabel(init, i) by {
          forall j | i < j < |init| ensures init[j].name != init[i].name {
            assert init[j] == conditions[j];
          }
        }
      }
    }
  }

  lemma KeysStep(conditions: seq<Condition>, keys: set<string>)
    requires conditions != []
    requires var init := conditions[..|conditions| - 1];
             keys == (set i | 0 <= i < |init| :: init[i].name)
    ensures keys + {conditions[|conditions| - 1].name} == (set i | 0 <= i < |conditions| :: conditions[i].name)
  {
    var k := |conditions| - 1;
    var all := set i | 0 <= i < |conditions| :: conditions[i].name;
    forall l | l in keys ensures l in all {
      var i :| 0 <= i < k && conditions[..k][i].name == l;
      assert conditions[i].name == l;
    }
    forall l | l in all ensures l in keys + {conditions[k].name} {
      var i :| 0 <= i < |conditions| && conditions[i].name == l;
      if i < k {
        assert conditions[..k][i].name == l;
      }
    }
  }

  /** No entry after position i has the same label. */
  predicate LastWithLabel(conditions: seq<Condition>, i: nat)
    requires i < |conditions|
  {
    forall j :: i < j < |conditions| ==> conditions[j].name != conditions[i].name
  }

  /** The position at which a label first occurs in a list. */
  function FirstIndex(s: seq<string>, x: string): (k: nat)
    requires x in s
    ensures k < |s| && s[k] == x && x !in s[..k]
  {
    if s[0] == x then 0 else 1 + FirstIndex(s[1..], x)
  }

  /** A position holding `x` with no earlier `x` is the first index. */
  lemma FirstIndexUnique(s: seq<string>, x: string, k: nat)
    requires k < |s| && s[k] == x && x !in s[..k]
    ensures FirstIndex(s, x) == k
  {
  }

  /** Dropping a tail that does not hold the first `x` keeps its index. */
  lemma FirstIndexPrefix(s: seq<string>, x: string, m: nat)
    requires m <= |s| && x in s[..m]
    ensures FirstIndex(s[..m], x) == FirstIndex(s, x)
  {
    var k := FirstIndex(s[..m], x);
    assert s[..m][..k] == s[..k];
    FirstIndexUnique(s, x, k);
  }

  /** Labels drawn from a prefix of `s`, in the order of their first
      occurrence there, keep that order in `s` and come before the prefix
      ends. */
  lemma FirstIndexOrderPrefix(s: seq<string>, n: nat, p: seq<string>)
    requires n <= |s|
    requires forall i :: 0 <= i < |p| ==> p[i] in s[..n]
    requires forall i, j :: 0 <= i < j < |p| ==> FirstIndex(s[..n], p[i]) < FirstIndex(s[..n], p[j])
    ensures forall i :: 0 <= i < |p| ==> p[i] in s && FirstIndex(s, p[i]) < n
    ensures forall i, j :: 0 <= i < j < |p| ==> p[i] in s && p[j] in s && FirstIndex(s, p[i]) < FirstIndex(s, p[j])
  {
    forall i | 0 <= i < |p| ensures FirstIndex(s, p[i]) == FirstIndex(s[..n], p[i]) {
      FirstIndexPrefix(s, p[i], n);
    }
  }

  /** The labels in order of first appearance, each once: the key order of
      a table built from the condition list. */
  function Dedup(s: seq<string>): (r: seq<string>)
    ensures Distinct(r)
    ensures forall x :: x in r <==> x in s
    ensures forall i, j :: 0 <= i < j < |r| ==> FirstIndex(s, r[i]) < FirstIndex(s, r[j])
  {
    if s == [] then []
    else
      var n := |s| - 1;
      var p := Dedup(s[..n]);
      var last := s[n];
      assert forall x :: x in s <==> x in s[..n] || x == last;
      FirstIndexOrderPrefix(s, n, p);
      if last in p then p
      else
        FirstIndexUnique(s, last, n);
        p + [last]
  }

  /** The distinct labels of a condition list are the keys of its table. */
  lemma DedupLabelsAreKeys(conditions: seq<Condition>)
    ensures forall l :: l in Dedup(LabelsOf(conditions)) <==> l in MetaOf(conditions)
  {
    forall l | l in MetaOf(conditions) ensures l in LabelsOf(conditions) {
      var i :| 0 <= i < |conditions| && conditions[i].name == l;
      assert LabelsOf(conditions)[i] == l;
    }
  }

  /** The duration cap of a condition: its own maximum when one is
      configured, otherwise the global maximum. */
  function CapOf(name: string, perMax: map<string, int>, maxMs: int): int
  {
    if name in perMax then perMax[name] else maxMs
  }

  /** The 1/0 entry a hit or a miss adds to an R-Score history. */
  function Bit(hit: bool): int
  {
    if hit then 1 else 0
  }
}
