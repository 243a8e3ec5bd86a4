/**
 * `Utilities`: reductions over the stored sessions for the analytics screen.
 * `getMaxMinBpm` folds the sessions' bounds from the sentinels 1000 and -1000,
 * counting a missing bound as 0, and truncates the results to `Int`;
 * `formattedRangeText` picks the earliest and the latest session for the
 * date-range label.
 */
module Utilities {
  import opened Wrappers
  import opened HeartRateSessionModel

  const MinSentinel: real := 1000.0
  const MaxSentinel: real := -1000.0

  /** `Int(x)` of a Double: truncation toward zero. */
  function Trunc(x: real): (n: int)
    ensures x >= 0.0 ==> n as real <= x < n as real + 1.0
    ensures x < 0.0 ==> n as real - 1.0 < x <= n as real
  {
    if x >= 0.0 then x.Floor else -((-x).Floor)
  }

  lemma TruncMonotone(x: real, y: real)
    requires x <= y
    ensures Trunc(x) <= Trunc(y)
  {
  }

  lemma TruncOfWhole(n: int)
    ensures Trunc(n as real) == n
  {
  }

  /** `i.minBpm ?? 0` for each session, in order. */
  function MinInputs(ss: seq<HeartRateSession>): seq<real>
    reads ss
  {
    seq(|ss|, i requires 0 <= i < |ss| reads ss => ss[i].minBpm.GetOr(0.0))
  }

  /** `i.maxBpm ?? 0` for each session, in order. */
  function MaxInputs(ss: seq<HeartRateSession>): seq<real>
    reads ss
  {
    seq(|ss|, i requires 0 <= i < |ss| reads ss => ss[i].maxBpm.GetOr(0.0))
  }

  /** `min(acc, x)` over the elements left to right. The result is below the
      start value and every element, and is one of them. */
  function FoldMin(acc: real, xs: seq<real>): (r: real)
    ensures r <= acc && forall i :: 0 <= i < |xs| ==> r <= xs[i]
    ensures r == acc || r in xs
    decreases |xs|
  {
    if xs == [] then acc else Min(FoldMin(acc, xs[..|xs| - 1]), xs[|xs| - 1])
  }

  /** `max(acc, x)` over the elements left to right. */
  function FoldMax(acc: real, xs: seq<real>): (r: real)
    ensures acc <= r && forall i :: 0 <= i < |xs| ==> xs[i] <= r
    ensures r == acc || r in xs
    decreases |xs|
  {
    if xs == [] then acc else Max(FoldMax(acc, xs[..|xs| - 1]), xs[|xs| - 1])
  }

  /** At most one value is both a lower bound of a start value and some
      elements, and one of them. */
  lemma LeastIsUnique(a: real, b: real, acc: real, xs: seq<real>, ys: seq<real>)
    requires multiset(xs) == multiset(ys)
    requires a <= acc && forall i :: 0 <= i < |xs| ==> a <= xs[i]
    requires b <= acc && forall i :: 0 <= i < |ys| ==> b <= ys[i]
    requires (a == acc || a in xs) && (b == acc || b in ys)
    ensures a == b
  {
    if b != acc {
      assert b in multiset(ys);
      assert b in xs;
    }
    if a != acc {
      assert a in multiset(xs);
      assert a in ys;
    }
  }

  lemma GreatestIsUnique(a: real, b: real, acc: real, xs: seq<real>, ys: seq<real>)
    requires multiset(xs) == multiset(ys)
    requires acc <= a && forall i :: 0 <= i < |xs| ==> xs[i] <= a
    requires acc <= b && forall i :: 0 <= i < |ys| ==> ys[i] <= b
    requires (a == acc || a in xs) && (b == acc || b in ys)
    ensures a == b
  {
    if b != acc {
      assert b in multiset(ys);
      assert b in xs;
    }
    if a != acc {
      assert a in multiset(xs);
      assert a in ys;
    }
  }

  /** The fold does not depend on the order of the sessions. */
  lemma FoldOrderFree(acc: real, xs: seq<real>, ys: seq<real>)
    requires multiset(xs) == multiset(ys)
    ensures FoldMin(acc, xs) == FoldMin(acc, ys)
    ensures FoldMax(acc, xs) == FoldMax(acc, ys)
  {
    LeastIsUnique(FoldMin(acc, xs), FoldMin(acc, ys), acc, xs, ys);
    GreatestIsUnique(FoldMax(acc, xs), FoldMax(acc, ys), acc, xs, ys);
  }

  /** The same for the sessions themselves: `getMaxMinBpm` gives the same
      bounds for any order (or repetition) of the same fetched sessions. */
  lemma SessionOrderFree(ss: seq<HeartRateSession>, ts: seq<HeartRateSession>)
    requires forall s :: s in ss <==> s in ts
    ensures FoldMin(MinSentinel, MinInputs(ss)) == FoldMin(MinSentinel, MinInputs(ts))
    ensures FoldMax(MaxSentinel, MaxInputs(ss)) == FoldMax(MaxSentinel, MaxInputs(ts))
  {
    SameInputs(ss, ts);
    SameInputs(ts, ss);
  }

  /** Every input drawn from `ts` is also drawn from `ss`, so the folds over
      `ss` bound it. */
  lemma SameInputs(ss: seq<HeartRateSession>, ts: seq<HeartRateSession>)
    requires forall s :: s in ts ==> s in ss
    ensures FoldMin(MinSentinel, MinInputs(ss)) <= FoldMin(MinSentinel, MinInputs(ts))
    ensures FoldMax(MaxSentinel, MaxInputs(ts)) <= FoldMax(MaxSentinel, MaxInputs(ss))
  {
    var lo, hi := MinInputs(ss), MaxInputs(ss);
    forall j | 0 <= j < |ts|
      ensures FoldMin(MinSentinel, lo) <= MinInputs(ts)[j] && MaxInputs(ts)[j] <= FoldMax(MaxSentinel, hi)
    {
      assert ts[j] in ss;
      var i :| 0 <= i < |ss| && ss[i] == ts[j];
      assert MinInputs(ts)[j] == lo[i] && MaxInputs(ts)[j] == hi[i];
    }
  }

  /** Against the independent definitions: the fold of a non-empty input is
      the least (greatest) element, unless the start value is beyond it. */
  lemma FoldIsLowest(acc: real, xs: seq<real>)
    requires xs != []
    ensures FoldMin(acc, xs) == Min(acc, Lowest(xs))
    ensures FoldMax(acc, xs) == Max(acc, Highest(xs))
  {
    LeastIsUnique(FoldMin(acc, xs), Min(acc, Lowest(xs)), acc, xs, xs);
    GreatestIsUnique(FoldMax(acc, xs), Max(acc, Highest(xs)), acc, xs, xs);
  }

  /** `getMaxMinBpm(sessions:)` */
  method GetMaxMinBpm(sessions: seq<HeartRateSession>) returns (mn: int, mx: int)
    ensures mn == Trunc(FoldMin(MinSentinel, MinInputs(sessions)))
    ensures mx == Trunc(FoldMax(MaxSentinel, MaxInputs(sessions)))
  {
    var minB := MinSentinel;
    var maxB := MaxSentinel;
    for k := 0 to |sessions|
      invariant minB == FoldMin(MinSentinel, MinInputs(sessions)[..k])
      invariant maxB == FoldMax(MaxSentinel, MaxInputs(sessions)[..k])
    {
      assert MinInputs(sessions)[..k + 1][..k] == MinInputs(sessions)[..k];
      assert MaxInputs(sessions)[..k + 1][..k] == MaxInputs(sessions)[..k];
      minB := Min(minB, sessions[k].minBpm.GetOr(0.0));
      maxB := Max(maxB, sessions[k].maxBpm.GetOr(0.0));
    }
    assert MinInputs(sessions)[..|sessions|] == MinInputs(sessions);
    assert MaxInputs(sessions)[..|sessions|] == MaxInputs(sessions);
    mn, mx := Trunc(minB), Trunc(maxB);
  }

  /**
   * What `getMaxMinBpm` promises: the sentinels for no sessions; otherwise a
   * minimum no larger than any session's (a missing minimum counting as 0) and
   * a maximum no smaller than any session's, each equal to one session's
   * value once one of them lies within the sentinel.
   */
  lemma MaxMinBpmBounds(sessions: seq<HeartRateSession>)
    ensures sessions == [] ==>
      Trunc(FoldMin(MinSentinel, MinInputs(sessions))) == 1000 &&
      Trunc(FoldMax(MaxSentinel, MaxInputs(sessions))) == -1000
    ensures forall i :: 0 <= i < |sessions| ==>
      Trunc(FoldMin(MinSentinel, MinInputs(sessions))) <= Trunc(MinInputs(sessions)[i]) &&
      Trunc(MaxInputs(sessions)[i]) <= Trunc(FoldMax(MaxSentinel, MaxInputs(sessions)))
    ensures (exists i :: 0 <= i < |sessions| && MinInputs(sessions)[i] <= MinSentinel) ==>
      exists i :: 0 <= i < |sessions| && FoldMin(MinSentinel, MinInputs(sessions)) == MinInputs(sessions)[i]
    ensures (exists i :: 0 <= i < |sessions| && MaxSentinel <= MaxInputs(sessions)[i]) ==>
      exists i :: 0 <= i < |sessions| && FoldMax(MaxSentinel, MaxInputs(sessions)) == MaxInputs(sessions)[i]
  {
    var lo, hi := MinInputs(sessions), MaxInputs(sessions);
    TruncOfWhole(1000);
    TruncOfWhole(-1000);
    forall i | 0 <= i < |sessions|
      ensures Trunc(FoldMin(MinSentinel, lo)) <= Trunc(lo[i]) && Trunc(hi[i]) <= Trunc(FoldMax(MaxSentinel, hi))
    {
      TruncMonotone(FoldMin(MinSentinel, lo), lo[i]);
      TruncMonotone(hi[i], FoldMax(MaxSentinel, hi));
    }
    if lo != [] {
      FoldIsLowest(MinSentinel, lo);
      FoldIsLowest(MaxSentinel, hi);
    }
  }

  /** `min(by: startDate <)`: the index of the FIRST session with the least start. */
  function EarliestIndex(ss: seq<HeartRateSession>): (k: nat)
    requires |ss| > 0
    reads ss
    ensures k < |ss| && forall i :: 0 <= i < |ss| ==> ss[k].startDate <= ss[i].startDate
    ensures forall j :: 0 <= j < k ==> ss[k].startDate < ss[j].startDate
    decreases |ss|
  {
    if |ss| == 1 then 0
    else
      var m := EarliestIndex(ss[..|ss| - 1]);
      if ss[|ss| - 1].startDate < ss[m].startDate then |ss| - 1 else m
  }

  /** `max(by: startDate <)`: the index of the FIRST session with the greatest
      start, since the running result is replaced only by a strictly later one. */
  function LatestIndex(ss: seq<HeartRateSession>): (k: nat)
    requires |ss| > 0
    reads ss
    ensures k < |ss| && forall i :: 0 <= i < |ss| ==> ss[i].startDate <= ss[k].startDate
    ensures forall j :: 0 <= j < k ==> ss[j].startDate < ss[k].startDate
    decreases |ss|
  {
    if |ss| == 1 then 0
    else
      var m := LatestIndex(ss[..|ss| - 1]);
      if ss[m].startDate < ss[|ss| - 1].startDate then |ss| - 1 else m
  }

  /**
   * `formattedRangeText(from:)` up to date formatting: the start dates of the
   * earliest and the latest session, or nothing (the empty label) when there
   * are no sessions.
   */
  function RangeBounds(ss: seq<HeartRateSession>): (r: Option<(Timestamp, Timestamp)>)
    reads ss
    ensures r.None? <==> ss == []
    ensures r.Some? ==>
      && r.value.0 <= r.value.1
      && (exists i :: 0 <= i < |ss| && ss[i].startDate == r.value.0)
      && (exists i :: 0 <= i < |ss| && ss[i].startDate == r.value.1)
      && forall i :: 0 <= i < |ss| ==> r.value.0 <= ss[i].startDate <= r.value.1
    ensures |ss| == 1 ==> r == Some((ss[0].startDate, ss[0].startDate))
  {
    if ss == [] then None
    else
      var first, last := EarliestIndex(ss), LatestIndex(ss);
      Some((ss[first].startDate, ss[last].startDate))
  }
}
