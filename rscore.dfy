/**
 * The R-Score settings and the bounded hit histories they are computed
 * from: a history holds 1 for a hit and 0 for a miss, newest last, and keeps
 * at most `window` entries.
 */
module RScore {

  /** The rscore section of a configuration. The threshold (a percentage)
      and the scale factor are written as fractions num/den. */
  datatype Settings = Settings(
    enabled: bool,
    window: nat,
    thresholdNum: int,
    thresholdDen: int,
    scaleNum: int,
    scaleDen: int,
    perCondition: bool)
  {
    predicate WellFormed()
    {
      thresholdDen > 0 && scaleDen > 0
    }

    /** A scale factor in [0, 1]: scaling never lengthens the target. */
    predicate Shrinks()
    {
      0 <= scaleNum <= scaleDen
    }
  }

  /** An empty history for each label: the per-condition scope before
      the first trial. */
  function EmptyHistories(labels: set<string>): (h: map<string, seq<int>>)
    ensures h.Keys == labels
    ensures forall l :: l in h ==> h[l] == []
  {
    map l | l in labels :: []
  }

  /** The newest w entries of s, or all of s when it is shorter. */
  function LastN<T>(s: seq<T>, w: nat): (r: seq<T>)
    ensures |r| == if |s| <= w then |s| else w
    ensures r == s[|s| - |r|..]
  {
    if |s| <= w then s else s[|s| - w..]
  }

  /** Python's deque(maxlen=w).append(x): x goes on the right and, when the
      deque is full, the leftmost entry drops out; with maxlen 0 the deque
      stays empty. */
  function DequeAppend<T>(h: seq<T>, x: T, w: nat): (r: seq<T>)
    requires |h| <= w
    ensures |r| <= w
    ensures w > 0 ==> |r| > 0 && r[|r| - 1] == x
    ensures |h| < w ==> r == h + [x]
  {
    if w == 0 then []
    else if |h| < w then h + [x]
    else h[1..] + [x]
  }

  /** JavaScript's push followed by a shift when the array has grown past w. */
  function PushShift<T>(h: seq<T>, x: T, w: nat): (r: seq<T>)
    ensures |h| <= w ==> |r| <= w
    ensures |r| > 0 ==> r[|r| - 1] == x
    ensures |h| < w ==> r == h + [x]
  {
    var s := h + [x];
    if |s| > w then s[1..] else s
  }

  /** A deque that holds the newest w outcomes still holds the newest w
      outcomes after an append: the history always is the window's tail of
      everything that happened. */
  lemma DequeAppendKeepsTail<T>(all: seq<T>, x: T, w: nat)
    ensures DequeAppend(LastN(all, w), x, w) == LastN(all + [x], w)
  {
    var h := LastN(all, w);
    var s := all + [x];
    if w == 0 {
      assert LastN(s, w) == [];
    } else if |all| < w {
      assert h == all;
      assert DequeAppend(h, x, w) == s;
    } else {
      assert |h| == w && h == all[|all| - w..];
      assert h[1..] + [x] == s[|s| - w..];
    }
  }

  /** The same for push-then-shift, as long as the array never held more
      than w entries. */
  lemma PushShiftKeepsTail<T>(all: seq<T>, x: T, w: nat)
    ensures PushShift(LastN(all, w), x, w) == LastN(all + [x], w)
  {
    var h := LastN(all, w);
    var s := all + [x];
    if |all| < w {
      assert h == all;
      assert PushShift(h, x, w) == s;
    } else {
      assert h == all[|all| - w..];
      assert (h + [x])[1..] == s[|s| - w..];
    }
  }

  /** With at most w entries before, both bounded appends agree. */
  lemma PushShiftIsDequeAppend<T>(h: seq<T>, x: T, w: nat)
    requires |h| <= w
    ensures PushShift(h, x, w) == DequeAppend(h, x, w)
  {
    if w > 0 && |h| == w {
      assert (h + [x])[1..] == h[1..] + [x];
    }
  }
}
