/**
 * The phone-side relay and session aggregator (`HeartRateController`): it
 * starts and stops the watch's streaming over the transport, and turns each
 * received sample into a record of the current session, keeping the running
 * minimum and maximum. The main-queue hop of the receive handler happens at
 * once here, and each `Date()` is the `now` the caller passes.
 */
module PhoneController {
  import opened Wrappers
  import opened Messages
  import opened HeartRateSessionModel
  import Transport
  import ModelStore

  const SecondsPerDay: int := 86400

  /** `Calendar.current.startOfDay(for:)`, for a calendar in UTC. */
  function StartOfDay(t: Timestamp): (d: Timestamp)
    ensures d <= t < d + SecondsPerDay && d % SecondsPerDay == 0
  {
    t - t % SecondsPerDay
  }

  /** Every session's records, as values. */
  ghost function RecordLists(ss: seq<HeartRateSession>): seq<seq<BpmRecord>>
    reads ss
  {
    seq(|ss|, i requires 0 <= i < |ss| reads ss => ss[i].bpmRecords)
  }

  /** A session as a start leaves it: started now with a fresh id, open, one
      seed record of 70 stamped now, and no bounds or resting time yet. */
  ghost predicate JustStarted(s: HeartRateSession, now: Timestamp, issued: set<Uuid>)
    reads s
  {
    && s.startDate == now
    && s.id !in issued
    && s.endDate == None
    && |s.bpmRecords| == 1
    && s.bpmRecords[0].value == SeedBpm
    && s.bpmRecords[0].timestamp == now
    && s.bpmRecords[0].session == null
    && s.minBpm == None && s.maxBpm == None
    && s.reachedRestingAt == None
  }

  class HeartRateController {
    var bpm: real
    var modelContext: ModelStore.ModelContext?
    var currentSession: HeartRateSession?
    const wc: Transport.WCSession
    const uuids: UuidGenerator

    ghost function StoredSessions(): seq<HeartRateSession>
      reads this, modelContext
    {
      if modelContext == null then [] else modelContext.sessions
    }

    /** The current session is seeded and its running bounds are those of its
        samples; the store is free of duplicates and shared records. */
    ghost predicate Valid()
      reads this, uuids, currentSession, modelContext, StoredSessions()
    {
      && uuids.Valid()
      && (currentSession != null ==> Seeded(currentSession))
      && (modelContext != null ==> modelContext.Valid())
    }

    /** `init()`: become the delegate and activate, when the platform supports it. */
    constructor (wc: Transport.WCSession, uuids: UuidGenerator)
      requires uuids.Valid()
      modifies wc`delegate, wc`isActivated, wc`activations
      ensures Valid() && this.wc == wc && this.uuids == uuids
      ensures bpm == 0.0 && currentSession == null && modelContext == null
      ensures wc.isSupported ==> wc.delegate == this && wc.isActivated && wc.activations == old(wc.activations) + 1
      ensures !wc.isSupported ==> wc.delegate == old(wc.delegate) && wc.isActivated == old(wc.isActivated) && wc.activations == old(wc.activations)
    {
      bpm := 0.0;
      modelContext := null;
      currentSession := null;
      this.wc := wc;
      this.uuids := uuids;
      new;
      if wc.isSupported {
        wc.delegate := this;
        wc.Activate();
      }
    }

    /** `setContext(_:)` */
    method SetContext(context: ModelStore.ModelContext)
      requires Valid() && context.Valid()
      modifies this`modelContext
      ensures Valid() && modelContext == context
    {
      modelContext := context;
    }

    /**
     * `startHeartRate()`. Unreachable: nothing happens. Reachable: the first of
     * today's stored sessions is deleted (its records with it), a new session is
     * inserted and becomes current, seeded with one record of 70, and one start
     * command is sent.
     */
    method StartHeartRate(now: Timestamp)
      requires Valid()
      modifies this`currentSession, wc`outbox, uuids
      modifies if modelContext != null then {modelContext} else {}
      ensures Valid()
      ensures !wc.isReachable ==>
        && currentSession == old(currentSession)
        && wc.outbox == old(wc.outbox)
        && uuids.issued == old(uuids.issued)
        && StoredSessions() == old(StoredSessions())
      ensures modelContext != null ==> modelContext.saves == old(modelContext.saves)
      ensures wc.isReachable ==>
        && currentSession != null && fresh(currentSession)
        && JustStarted(currentSession, now, old(uuids.issued))
        && wc.outbox == old(wc.outbox) + [StartCommand]
        && StoredSessions() ==
             if modelContext == null then []
             else ModelStore.ReplaceFirstFrom(old(StoredSessions()), StartOfDay(now)) + [currentSession]
    {
      if wc.isReachable {
        var startOfToday := StartOfDay(now);
        if modelContext != null {
          DeleteTodaySession(modelContext, startOfToday);
        }
        BeginSession(now);
        wc.SendMessage(StartCommand);
      }
    }

    /** The new session of a start: inserted into the store, made current and
        seeded with one record. */
    method BeginSession(now: Timestamp)
      requires Valid()
      modifies this`currentSession, uuids
      modifies if modelContext != null then {modelContext} else {}
      ensures Valid()
      ensures currentSession != null && fresh(currentSession)
      ensures JustStarted(currentSession, now, old(uuids.issued))
      ensures StoredSessions() == if modelContext == null then [] else old(StoredSessions()) + [currentSession]
      ensures modelContext != null ==> modelContext.saves == old(modelContext.saves)
    {
      var newSession := new HeartRateSession(now, uuids);
      if modelContext != null {
        modelContext.Insert(newSession);
      }
      currentSession := newSession;
      ghost var before := RecordLists(StoredSessions());
      var seed := new BpmRecord(now, SeedBpm);
      SeedOnly(seed);
      currentSession.bpmRecords := currentSession.bpmRecords + [seed];
      if modelContext != null {
        ModelStore.AppendKeepsDisjoint(modelContext.sessions, currentSession, seed, before);
      }
    }

    /** The fetch of sessions started since the start of today and the delete
        of its `.first`; the deleted session's records go with it. */
    static method DeleteTodaySession(context: ModelStore.ModelContext, startOfToday: Timestamp)
      requires context.Valid()
      modifies context`sessions
      ensures context.Valid()
      ensures context.sessions == ModelStore.ReplaceFirstFrom(old(context.sessions), startOfToday)
      ensures match ModelStore.FirstFrom(old(context.sessions), startOfToday)
        case None => true
        case Some(k) => forall r :: r in old(context.sessions)[k].bpmRecords ==> r !in context.Records()
    {
      var todaySession := ModelStore.FirstFrom(context.sessions, startOfToday);
      if todaySession.Some? {
        ModelStore.WithoutAt(context.sessions, todaySession.value);
        context.Delete(context.sessions[todaySession.value]);
      }
    }

    /**
     * What `stopHeartRate()` does, between the state before it and after it:
     * reachable, the current session gets its end date, the store is saved
     * once and one stop command is sent; unreachable, none of it. The stored
     * sessions, the records, the bounds and the resting time never change.
     */
    twostate predicate StoppedAt(now: Timestamp)
      reads this, currentSession, modelContext, wc
    {
      && currentSession == old(currentSession) && modelContext == old(modelContext)
      && (modelContext != null ==> modelContext.sessions == old(modelContext.sessions))
      && (currentSession != null ==>
          && currentSession.bpmRecords == old(currentSession.bpmRecords)
          && currentSession.minBpm == old(currentSession.minBpm)
          && currentSession.maxBpm == old(currentSession.maxBpm)
          && currentSession.reachedRestingAt == old(currentSession.reachedRestingAt))
      && (wc.isReachable ==>
          && (currentSession != null ==> currentSession.endDate == Some(now))
          && (modelContext != null ==> modelContext.saves == old(modelContext.saves) + 1)
          && wc.outbox == old(wc.outbox) + [StopCommand])
      && (!wc.isReachable ==>
          && (currentSession != null ==> currentSession.endDate == old(currentSession.endDate))
          && (modelContext != null ==> modelContext.saves == old(modelContext.saves))
          && wc.outbox == old(wc.outbox))
    }

    /**
     * `stopHeartRate()`. Reachable: the current session gets its end date, the
     * store is saved and one stop command is sent. Unreachable: nothing happens.
     */
    method StopHeartRate(now: Timestamp)
      modifies if currentSession != null then {currentSession} else {}
      modifies if modelContext != null then {modelContext} else {}
      modifies wc`outbox
      ensures old(Valid()) ==> Valid()
      ensures StoppedAt(now)
    {
      if wc.isReachable {
        if currentSession != null {
          currentSession.endDate := Some(now);
        }
        if modelContext != null {
          modelContext.Save();
        }
        wc.SendMessage(StopCommand);
      }
    }

    /**
     * `session(_:didReceiveMessage:)`. A Double `"bpm"` entry v becomes the
     * latest value and, when there is a current session, one new record of v
     * at the end of it, with the running bounds updated; anything else is
     * ignored.
     */
    method DidReceiveMessage(message: Message, now: Timestamp)
      requires Valid()
      modifies this`bpm
      modifies if currentSession != null then {currentSession} else {}
      ensures Valid()
      ensures bpm == BpmAfter(old(bpm), message)
      ensures BpmOf(message).None? && currentSession != null ==>
        && currentSession.bpmRecords == old(currentSession.bpmRecords)
        && currentSession.minBpm == old(currentSession.minBpm)
        && currentSession.maxBpm == old(currentSession.maxBpm)
      ensures BpmOf(message).Some? && currentSession != null ==>
        var v := BpmOf(message).value;
        && |currentSession.bpmRecords| == |old(currentSession.bpmRecords)| + 1
        && currentSession.bpmRecords[..|old(currentSession.bpmRecords)|] == old(currentSession.bpmRecords)
        && fresh(currentSession.bpmRecords[|currentSession.bpmRecords| - 1])
        && currentSession.bpmRecords[|currentSession.bpmRecords| - 1].value == v
        && currentSession.bpmRecords[|currentSession.bpmRecords| - 1].timestamp == now
        && currentSession.bpmRecords[|currentSession.bpmRecords| - 1].session == currentSession
        && currentSession.minBpm == Some(RunningMin(old(currentSession.minBpm), v))
        && currentSession.maxBpm == Some(RunningMax(old(currentSession.maxBpm), v))
      ensures currentSession != null ==>
        currentSession.endDate == old(currentSession.endDate) &&
        currentSession.reachedRestingAt == old(currentSession.reachedRestingAt)
    {
      ghost var before := RecordLists(StoredSessions());
      var sample := BpmOf(message);
      if sample.Some? {
        var bpmValue := sample.value;
        bpm := bpmValue;
        if currentSession != null {
          var record := new BpmRecord(now, bpmValue, currentSession);
          currentSession.AddSample(record);
          if modelContext != null {
            ModelStore.AppendKeepsDisjoint(modelContext.sessions, currentSession, record, before);
          }
        }
      }
    }
  }
}
