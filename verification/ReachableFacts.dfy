/** What holds in every state any run reaches, in terms of the tables alone. */
module ReachableFacts {
  import opened Prelude
  import opened Tables
  import opened Governing
  import opened Transactions
  import opened RowAutomaton
  import opened Invariants
  import opened DeliverySystem
  import opened ProtocolSafety

  /** The retry ladder of both queues: open rows have attempts to spare, failed rows have used them all. */
  lemma RowsFollowTheLadder(steps: seq<Step>, q: Queue, id: Id)
    requires Runs(START, steps) && id in Tab(After(START, steps).db, q)
    ensures var r := Tab(After(START, steps).db, q)[id];
            && (Open(r) ==> r.attempts <= 4)
            && (r.status.Failed? ==> r.attempts == 5)
            && (r.status.Sent? ==> 1 <= r.attempts <= 5)
            && (r.owner.Some? ==> r.status.Pending? && r.expires.Some?)
  {
    ReachableStatesAreSafe(steps);
    assert RowInv(Tab(After(START, steps).db, q)[id]);
  }

  /** At most one event per member, release and moment, and at most one delivery per event and destination. */
  lemma NothingIsQueuedTwice(steps: seq<Step>, a: Id, b: Id)
    requires Runs(START, steps)
    ensures var db := After(START, steps).db;
            && (a in db.events && b in db.events && SameKey(db.events[a], db.events[b]) ==> a == b)
            && UniqueRows(db.deliveries) && UniqueRows(db.digests)
  {
    ReachableStatesAreSafe(steps);
  }

  /** A delivery goes to a destination of the event's member that is no newer than the event. */
  lemma DeliveriesStayHome(steps: seq<Step>, id: Id)
    requires Runs(START, steps) && id in After(START, steps).db.deliveries
    ensures var db := After(START, steps).db;
            var r := db.deliveries[id];
            && r.parent in db.events && r.dest in db.dests
            && db.dests[r.dest].user == db.events[r.parent].user
            && db.dests[r.dest].createdAt <= db.events[r.parent].createdAt
  {
    ReachableStatesAreSafe(steps);
  }

  /** At most one hold of a key is held or discarded, and every released hold has its event. */
  lemma HoldsAreDistinct(steps: seq<Step>, a: Id, b: Id)
    requires Runs(START, steps) && a in After(START, steps).db.holds && b in After(START, steps).db.holds
    ensures var db := After(START, steps).db;
            var h, k := db.holds[a], db.holds[b];
            && (SameHoldKey(h, k) && Unsettled(h) && Unsettled(k) ==> a == b)
            && (h.status.Released? ==> EventExists(db, h.user, h.release, h.moment))
  {
    ReachableStatesAreSafe(steps);
  }

  /** The ladder in minutes: 2, 4, 8 and 16 after the first four failures, and the fifth is final. */
  lemma RetryLadder(attempts: nat, now: Time)
    requires 1 <= attempts <= 5
    ensures var s := RetrySchedule(attempts, now);
            && (s.willRetry <==> attempts <= 4) && (s.status.Pending? <==> attempts <= 4)
            && (s.status.Failed? <==> attempts == 5)
            && s.next == now + MINUTE * [2, 4, 8, 16, 32][attempts - 1]
  {
    assert Power2(1) == 2 && Power2(2) == 4 && Power2(3) == 8 && Power2(4) == 16;
    assert Power2(5) == 2 * Power2(4);
  }

  /** The next retry in the audit of a failed attempt is the row's own schedule, or absent with the row failed. */
  lemma AuditMatchesRow(s: Sys, key: WorkKey)
    requires SysInv(s) && key in s.work && s.work[key].phase.ToMarkFailed? && HoldsLease(s.db, key)
    ensures var w := s.work[key];
            var s' := Next(s, Worker(key, Record(true)));
            && key.id in Tab(s'.db, key.q)
            && var r := Tab(s'.db, key.q)[key.id];
               && r.attempts == Tab(s.db, key.q)[key.id].attempts + 1
               && AuditRetry(Attempt(w), w.now) == (if r.status.Pending? then Some(r.nextAt) else None)
               && (r.status.Failed? <==> r.attempts == MAX_ATTEMPTS)
  {
    var w := s.work[key];
    assert WorkOk(s.db, key, w);
    MarkFailedTouches(s.db, key.q, key.id, Attempt(w), key.owner, w.now);
  }

  /** A blank owner drops the ownership test: recording a failure then reopens a message that was sent. */
  lemma BlankOwnerReopensSent(db: Db, q: Queue, id: Id, owner: string, now: Time)
    requires id in Tab(db, q) && Tab(db, q)[id].status.Sent? && Tab(db, q)[id].owner.None?
    ensures var r' := Tab(MarkFailed(db, q, id, 1, owner, now), q)[id];
            if Blank(owner) then r'.status.Pending? else r' == Tab(db, q)[id]
  {
    if Hits(Tab(db, q), id, owner) {
      MarkFailedTouches(db, q, id, 1, owner, now);
    }
  }
}
