/**
 * The persisted session records: a `HeartRateSession` owns an ordered list of
 * `BpmRecord`s (a cascade relationship) and running minimum and maximum of the
 * samples it has received.
 *
 * `id` and `startDate` of a session and every field of a record are never
 * reassigned after initialisation, so they are `const` here.
 */
module HeartRateSessionModel {
  import opened Wrappers

  type Uuid = nat
  /** Seconds since the epoch. */
  type Timestamp = int

  /** The value the phone seeds every new session with. */
  const SeedBpm: real := 70.0

  /** `UUID()`: hands out identifiers never handed out before. */
  class UuidGenerator {
    var issued: set<Uuid>
    var next: Uuid

    ghost predicate Valid()
      reads this
    {
      forall u :: u in issued ==> u < next
    }

    constructor ()
      ensures Valid() && issued == {}
    {
      issued, next := {}, 0;
    }

    method Fresh() returns (u: Uuid)
      requires Valid()
      modifies this
      ensures Valid()
      ensures u !in old(issued) && issued == old(issued) + {u}
    {
      u := next;
      issued := issued + {u};
      next := next + 1;
    }
  }

  class HeartRateSession {
    const id: Uuid
    const startDate: Timestamp
    var endDate: Option<Timestamp>
    var bpmRecords: seq<BpmRecord>
    var minBpm: Option<real>
    var maxBpm: Option<real>
    var reachedRestingAt: Option<Timestamp>

    /** `init(startDate:)`, with `id` from its default `UUID()`. */
    constructor (startDate: Timestamp, uuids: UuidGenerator)
      requires uuids.Valid()
      modifies uuids
      ensures uuids.Valid()
      ensures id !in old(uuids.issued) && uuids.issued == old(uuids.issued) + {id}
      ensures this.startDate == startDate && endDate == None && bpmRecords == []
      ensures minBpm == None && maxBpm == None && reachedRestingAt == None
    {
      var u := uuids.Fresh();
      id := u;
      this.startDate := startDate;
      endDate, bpmRecords := None, [];
      minBpm, maxBpm, reachedRestingAt := None, None, None;
    }

    /** The receive handler's update of the session it records into: the
        record appended, the running bounds updated from `?? v`. The bounds
        stay those of the samples after the seed. */
    method AddSample(record: BpmRecord)
      requires Seeded(this)
      modifies this`bpmRecords, this`minBpm, this`maxBpm
      ensures Seeded(this)
      ensures bpmRecords == old(bpmRecords) + [record]
      ensures minBpm == Some(RunningMin(old(minBpm), record.value))
      ensures maxBpm == Some(RunningMax(old(maxBpm), record.value))
    {
      SeededAppend(bpmRecords, record, minBpm, maxBpm);
      bpmRecords := bpmRecords + [record];
      minBpm := Some(RunningMin(minBpm, record.value));
      maxBpm := Some(RunningMax(maxBpm, record.value));
    }
  }

  class BpmRecord {
    const value: real
    const timestamp: Timestamp
    const session: HeartRateSession?

    /** `init(timestamp:bpm:session:)`; `session` defaults to nil. */
    constructor (timestamp: Timestamp, bpm: real, session: HeartRateSession? := null)
      ensures this.timestamp == timestamp && value == bpm && this.session == session
    {
      this.timestamp, value, this.session := timestamp, bpm, session;
    }
  }

  /** The values of a list of records, in order. */
  function Values(rs: seq<BpmRecord>): seq<real>
  {
    seq(|rs|, i requires 0 <= i < |rs| => rs[i].value)
  }

  /** Swift's `min(x, y)` on Doubles: `y < x ? y : x`. */
  function Min(x: real, y: real): real { if y < x then y else x }
  /** Swift's `max(x, y)` on Doubles: `y >= x ? y : x`. */
  function Max(x: real, y: real): real { if y >= x then y else x }

  /** The least element of a non-empty sequence. */
  function Lowest(xs: seq<real>): (r: real)
    requires |xs| > 0
    ensures r in xs && forall i :: 0 <= i < |xs| ==> r <= xs[i]
    decreases |xs|
  {
    if |xs| == 1 then xs[0] else Min(Lowest(xs[..|xs| - 1]), xs[|xs| - 1])
  }

  /** The greatest element of a non-empty sequence. */
  function Highest(xs: seq<real>): (r: real)
    requires |xs| > 0
    ensures r in xs && forall i :: 0 <= i < |xs| ==> xs[i] <= r
    decreases |xs|
  {
    if |xs| == 1 then xs[0] else Max(Highest(xs[..|xs| - 1]), xs[|xs| - 1])
  }

  /** The minimum of the samples, nil before the first one. */
  function LowestOrNil(xs: seq<real>): Option<real> {
    if xs == [] then None else Some(Lowest(xs))
  }

  function HighestOrNil(xs: seq<real>): Option<real> {
    if xs == [] then None else Some(Highest(xs))
  }

  /** The receive handler's update `min(minBpm ?? v, v)`. */
  function RunningMin(minBpm: Option<real>, v: real): real {
    Min(minBpm.GetOr(v), v)
  }

  /** The receive handler's update `max(maxBpm ?? v, v)`. */
  function RunningMax(maxBpm: Option<real>, v: real): real {
    Max(maxBpm.GetOr(v), v)
  }

  /** The samples a session received after its seed record. */
  function Samples(rs: seq<BpmRecord>): seq<real> {
    if rs == [] then [] else Values(rs[1..])
  }

  /**
   * What the phone keeps true of its current session: the seed record comes
   * first, and the running minimum and maximum are those of the samples after
   * it (seeded from the first sample, never from the seed or a sentinel).
   */
  predicate SeededValues(rs: seq<BpmRecord>, minBpm: Option<real>, maxBpm: Option<real>) {
    && |rs| >= 1
    && rs[0].value == SeedBpm
    && minBpm == LowestOrNil(Samples(rs))
    && maxBpm == HighestOrNil(Samples(rs))
  }

  ghost predicate Seeded(s: HeartRateSession)
    reads s
  {
    SeededValues(s.bpmRecords, s.minBpm, s.maxBpm)
  }

  /** The running update of the minimum agrees with recomputing it from all samples. */
  lemma RunningMinIsLowest(xs: seq<real>, v: real)
    ensures Lowest(xs + [v]) == RunningMin(LowestOrNil(xs), v)
  {
    if xs != [] {
      assert (xs + [v])[..|xs|] == xs;
    }
  }

  /** The running update of the maximum agrees with recomputing it from all samples. */
  lemma RunningMaxIsHighest(xs: seq<real>, v: real)
    ensures Highest(xs + [v]) == RunningMax(HighestOrNil(xs), v)
  {
    if xs != [] {
      assert (xs + [v])[..|xs|] == xs;
    }
  }

  /** Appending a record appends its value to the samples. */
  lemma SamplesAppend(rs: seq<BpmRecord>, r: BpmRecord)
    requires |rs| >= 1
    ensures Samples(rs + [r]) == Samples(rs) + [r.value]
  {
    assert (rs + [r])[1..] == rs[1..] + [r];
  }

  /** Within a session the minimum only goes down and the maximum only up. */
  lemma RunningBoundsMonotone(xs: seq<real>, v: real)
    requires xs != []
    ensures Lowest(xs + [v]) <= Lowest(xs) && Highest(xs) <= Highest(xs + [v])
    ensures Lowest(xs + [v]) <= Highest(xs + [v])
  {
    RunningMinIsLowest(xs, v);
    RunningMaxIsHighest(xs, v);
  }

  /** A fresh session with its seed record satisfies the invariant. */
  lemma SeedOnly(r: BpmRecord)
    requires r.value == SeedBpm
    ensures SeededValues([r], None, None)
  {
    assert Samples([r]) == [];
  }

  /** The receive handler's step keeps the invariant: one record appended, the
      bounds updated from `?? v`. */
  lemma SeededAppend(rs: seq<BpmRecord>, r: BpmRecord, minBpm: Option<real>, maxBpm: Option<real>)
    requires SeededValues(rs, minBpm, maxBpm)
    ensures SeededValues(rs + [r], Some(RunningMin(minBpm, r.value)), Some(RunningMax(maxBpm, r.value)))
  {
    SamplesAppend(rs, r);
    RunningMinIsLowest(Samples(rs), r.value);
    RunningMaxIsHighest(Samples(rs), r.value);
  }
}
