/**
 * The SwiftData `ModelContext`, reduced to what the phone relay uses: the
 * stored sessions in store order, `fetch(...).first`, `delete`, `insert` and
 * `save`. The records stored are those reachable from stored sessions, so the
 * cascade delete rule of `bpmRecords` takes a session's records with it.
 */
module ModelStore {
  import opened Wrappers
  import opened HeartRateSessionModel

  /** Every record of every session in `ss`. */
  ghost function RecordsOf(ss: seq<HeartRateSession>): set<BpmRecord>
    reads ss
  {
    set i, r | 0 <= i < |ss| && r in ss[i].bpmRecords :: r
  }

  /** No session is stored twice. */
  ghost predicate Distinct(ss: seq<HeartRateSession>) {
    forall i, j :: 0 <= i < j < |ss| ==> ss[i] != ss[j]
  }

  /** No record belongs to two stored sessions (a record has one `session`). */
  ghost predicate RecordsDisjoint(ss: seq<HeartRateSession>)
    reads ss
  {
    forall i, j, r :: 0 <= i < |ss| && 0 <= j < |ss| && i != j && r in ss[i].bpmRecords ==>
      r !in ss[j].bpmRecords
  }

  /** The fetch `startDate >= since` with no sort order, and its `.first`:
      the index of the first such session in store order. */
  function FirstFrom(ss: seq<HeartRateSession>, since: Timestamp): (k: Option<nat>)
    ensures k.Some? ==> k.value < |ss| && ss[k.value].startDate >= since
    ensures k.Some? ==> forall j :: 0 <= j < k.value ==> ss[j].startDate < since
    ensures k.None? ==> forall j :: 0 <= j < |ss| ==> ss[j].startDate < since
    decreases |ss|
  {
    if ss == [] then None
    else if ss[0].startDate >= since then Some(0)
    else match FirstFrom(ss[1..], since)
      case None => None
      case Some(k) => Some(k + 1)
  }

  /** `ss` with `s` taken out. */
  function Without(ss: seq<HeartRateSession>, s: HeartRateSession): seq<HeartRateSession>
    decreases |ss|
  {
    if ss == [] then []
    else if ss[0] == s then Without(ss[1..], s)
    else [ss[0]] + Without(ss[1..], s)
  }

  /** In a store without duplicates, deleting the k-th session removes exactly that slot. */
  lemma {:induction false} WithoutAt(ss: seq<HeartRateSession>, k: nat)
    requires Distinct(ss) && k < |ss|
    ensures Without(ss, ss[k]) == ss[..k] + ss[k + 1..]
    decreases |ss|
  {
    var tail := ss[1..];
    if k == 0 {
      assert ss[k] !in tail;
      WithoutAbsent(tail, ss[k]);
    } else {
      assert Distinct(tail);
      assert tail[k - 1] == ss[k];
      WithoutAt(tail, k - 1);
      assert Without(ss, ss[k]) == [ss[0]] + Without(tail, ss[k]);
      assert tail[..k - 1] + tail[k..] == ss[1..k] + ss[k + 1..];
      assert [ss[0]] + ss[1..k] == ss[..k];
    }
  }

  lemma {:induction false} WithoutAbsent(ss: seq<HeartRateSession>, s: HeartRateSession)
    requires s !in ss
    ensures Without(ss, s) == ss
    decreases |ss|
  {
    if ss != [] {
      WithoutAbsent(ss[1..], s);
    }
  }

  /** Removing one slot keeps the store free of duplicates and of shared records,
      and takes out exactly the removed session's records. */
  lemma RemoveAtKeepsValid(ss: seq<HeartRateSession>, k: nat)
    requires Distinct(ss) && RecordsDisjoint(ss) && k < |ss|
    ensures var rest := ss[..k] + ss[k + 1..];
      && Distinct(rest) && RecordsDisjoint(rest)
      && forall r :: r in RecordsOf(rest) <==> r in RecordsOf(ss) && r !in ss[k].bpmRecords
  {
    var rest := ss[..k] + ss[k + 1..];
    assert forall i :: 0 <= i < |rest| ==> rest[i] == if i < k then ss[i] else ss[i + 1];
    forall r | r in RecordsOf(rest)
      ensures r in RecordsOf(ss) && r !in ss[k].bpmRecords
    {
      var i :| 0 <= i < |rest| && r in rest[i].bpmRecords;
      var i' := if i < k then i else i + 1;
      assert r in ss[i'].bpmRecords;
    }
    forall r | r in RecordsOf(ss) && r !in ss[k].bpmRecords
      ensures r in RecordsOf(rest)
    {
      var i :| 0 <= i < |ss| && r in ss[i].bpmRecords;
      assert i != k;
      var i' := if i < k then i else i - 1;
      assert rest[i'] == ss[i];
    }
  }

  /** The daily replacement: the first session started at or after `since`, if any, is removed. */
  function ReplaceFirstFrom(ss: seq<HeartRateSession>, since: Timestamp): seq<HeartRateSession> {
    match FirstFrom(ss, since)
    case None => ss
    case Some(k) => ss[..k] + ss[k + 1..]
  }

  /** How many sessions started at or after `since`. */
  function CountFrom(ss: seq<HeartRateSession>, since: Timestamp): nat
    decreases |ss|
  {
    if ss == [] then 0
    else (if ss[|ss| - 1].startDate >= since then 1 else 0) + CountFrom(ss[..|ss| - 1], since)
  }

  lemma {:induction false} CountFromAppend(a: seq<HeartRateSession>, b: seq<HeartRateSession>, since: Timestamp)
    ensures CountFrom(a + b, since) == CountFrom(a, since) + CountFrom(b, since)
    decreases |b|
  {
    if b != [] {
      assert (a + b)[..|a + b| - 1] == a + b[..|b| - 1];
      assert (a + b)[|a + b| - 1] == b[|b| - 1];
      CountFromAppend(a, b[..|b| - 1], since);
    } else {
      assert a + b == a;
    }
  }

  /** Replacing removes one of the day's sessions when there is one; the others stay. */
  lemma ReplaceFirstFromCount(ss: seq<HeartRateSession>, since: Timestamp)
    ensures CountFrom(ReplaceFirstFrom(ss, since), since) ==
            if CountFrom(ss, since) > 0 then CountFrom(ss, since) - 1 else 0
    ensures |ReplaceFirstFrom(ss, since)| == |ss| - (if CountFrom(ss, since) > 0 then 1 else 0)
  {
    match FirstFrom(ss, since)
    case None =>
      CountFromNone(ss, since);
    case Some(k) =>
      assert ss == ss[..k] + [ss[k]] + ss[k + 1..];
      CountFromAppend(ss[..k] + [ss[k]], ss[k + 1..], since);
      CountFromAppend(ss[..k], [ss[k]], since);
      CountFromAppend(ss[..k], ss[k + 1..], since);
      assert CountFrom([ss[k]], since) == 1 by {
        assert [ss[k]][..0] == [];
      }
  }

  /** Replacing today's first session and then inserting a new one started today
      leaves as many of today's sessions as before, and at least one: a second
      start on the same day replaces the first session. */
  lemma DailyReplacement(ss: seq<HeartRateSession>, s: HeartRateSession, since: Timestamp)
    requires s.startDate >= since
    ensures var n := CountFrom(ss, since);
      CountFrom(ReplaceFirstFrom(ss, since) + [s], since) == if n > 0 then n else 1
  {
    ReplaceFirstFromCount(ss, since);
    CountFromAppend(ReplaceFirstFrom(ss, since), [s], since);
    assert [s][..0] == [];
  }

  lemma {:induction false} CountFromNone(ss: seq<HeartRateSession>, since: Timestamp)
    requires forall j :: 0 <= j < |ss| ==> ss[j].startDate < since
    ensures CountFrom(ss, since) == 0
    decreases |ss|
  {
    if ss != [] {
      CountFromNone(ss[..|ss| - 1], since);
    }
  }

  /** Appending a new record to one session keeps stored sessions' records
      disjoint; `before` holds every session's records before the append. */
  lemma AppendKeepsDisjoint(ss: seq<HeartRateSession>, c: HeartRateSession, r: BpmRecord,
                            before: seq<seq<BpmRecord>>)
    requires Distinct(ss) && |before| == |ss|
    requires forall i, j, x :: 0 <= i < |ss| && 0 <= j < |ss| && i != j && x in before[i] ==> x !in before[j]
    requires forall i :: 0 <= i < |ss| ==> r !in before[i]
    requires forall i :: 0 <= i < |ss| ==>
      ss[i].bpmRecords == if ss[i] == c then before[i] + [r] else before[i]
    ensures RecordsDisjoint(ss)
  {
    forall i, j, x | 0 <= i < |ss| && 0 <= j < |ss| && i != j && x in ss[i].bpmRecords
      ensures x !in ss[j].bpmRecords
    {
      if x == r {
        assert ss[i] == c;
        assert ss[j] != c;
      } else {
        assert x in before[i];
      }
    }
  }

  class ModelContext {
    var sessions: seq<HeartRateSession>
    var saves: nat

    ghost function Records(): set<BpmRecord>
      reads this, sessions
    {
      RecordsOf(sessions)
    }

    ghost predicate Valid()
      reads this, sessions
    {
      Distinct(sessions) && RecordsDisjoint(sessions)
    }

    constructor ()
      ensures Valid() && sessions == [] && saves == 0
    {
      sessions, saves := [], 0;
    }

    /** `delete(_:)`: the session leaves the store and, by the cascade rule,
        so do its records; every other record stays. */
    method Delete(s: HeartRateSession)
      requires Valid()
      modifies this`sessions
      ensures Valid()
      ensures sessions == Without(old(sessions), s)
      ensures old(s in sessions) ==> forall r :: r in s.bpmRecords ==> r !in Records()
      ensures forall r :: r in Records() <==> r in old(Records()) && (old(s in sessions) ==> r !in s.bpmRecords)
    {
      if s in sessions {
        var k :| 0 <= k < |sessions| && sessions[k] == s;
        WithoutAt(sessions, k);
        RemoveAtKeepsValid(sessions, k);
        sessions := sessions[..k] + sessions[k + 1..];
      } else {
        WithoutAbsent(sessions, s);
      }
    }

    /** `insert(_:)`: a session not yet stored is added at the end. */
    method Insert(s: HeartRateSession)
      requires Valid()
      requires forall r :: r in s.bpmRecords ==> r !in Records()
      modifies this`sessions
      ensures Valid()
      ensures sessions == if s in old(sessions) then old(sessions) else old(sessions) + [s]
    {
      if s !in sessions {
        sessions := sessions + [s];
      }
    }

    /** `save()` */
    method Save()
      modifies this`saves
      ensures saves == old(saves) + 1
    {
      saves := saves + 1;
    }
  }
}
