/** What every committed state of the notification tables satisfies, and that every transaction keeps it. */
module Invariants {
  import opened Prelude
  import opened Tables
  import opened Governing
  import opened Transactions
  import opened RowAutomaton

  // ---- the invariants

  /** Pending work only for destinations that may be sent to. */
  ghost predicate PendingIsDeliverable(db: Db, t: map<Id, Row>) {
    forall id | id in t && t[id].status.Pending? :: QueueStatus(db, t[id].dest).Pending?
  }

  /** A destination is paused exactly when its failure streak has reached the limit. */
  ghost predicate Circuit(db: Db) {
    && (forall d | d in db.health ::
          db.health[d].failures >= 0 && (db.health[d].status.Paused? <==> db.health[d].failures >= TRIP))
    && PendingIsDeliverable(db, db.deliveries) && PendingIsDeliverable(db, db.digests)
  }

  ghost predicate RefOk(db: Db, r: Row, user: Id, createdAt: Time) {
    r.dest in db.dests && db.dests[r.dest].user == user && db.dests[r.dest].createdAt <= createdAt
  }

  /** Rows belong to their parent's member, and never go to a destination newer than the parent. */
  ghost predicate Refs(db: Db) {
    && (forall id | id in db.deliveries :: var r := db.deliveries[id];
          r.parent in db.events && RefOk(db, r, db.events[r.parent].user, db.events[r.parent].createdAt))
    && (forall id | id in db.digests :: var r := db.digests[id];
          r.parent in db.runs && RefOk(db, r, db.runs[r.parent].user, db.runs[r.parent].createdAt))
  }

  ghost predicate UniqueRows(t: map<Id, Row>) {
    forall a, b | a in t && b in t && t[a].parent == t[b].parent && t[a].dest == t[b].dest :: a == b
  }

  predicate SameKey(e: Event, f: Event) {
    HasKey(e, f.user, f.release, f.moment)
  }

  ghost predicate UniqueEvents(events: map<Id, Event>) {
    forall a, b | a in events && b in events && SameKey(events[a], events[b]) :: a == b
  }

  /** The status of a digest run agrees with its rows. */
  ghost predicate RunInv(db: Db, run: Id)
    requires run in db.runs
  {
    && (db.runs[run].status.RunSent? ==> !HasOpen(db.digests, run))
    && (HasRows(db.digests, run) && !HasOpen(db.digests, run) ==>
          db.runs[run].status == if HasFailed(db.digests, run) then RunFailed else RunSent)
  }

  ghost predicate RunsInv(db: Db) {
    forall run | run in db.runs :: RunInv(db, run)
  }

  predicate Unsettled(h: Hold) {
    h.status.Held? || h.status.Discarded?
  }

  predicate SameHoldKey(h: Hold, k: Hold) {
    h.user == k.user && h.release == k.release && h.moment == k.moment
  }

  /** At most one hold per member, release and moment is held or discarded. */
  ghost predicate DistinctHolds(holds: map<Id, Hold>) {
    forall a, b | a in holds && b in holds && Unsettled(holds[a]) && Unsettled(holds[b])
      && SameHoldKey(holds[a], holds[b]) :: a == b
  }

  ghost predicate ReleasedHaveEvents(db: Db, holds: map<Id, Hold>) {
    forall h | h in holds && holds[h].status.Released? ::
      EventExists(db, holds[h].user, holds[h].release, holds[h].moment)
  }

  ghost predicate HoldsInv(db: Db) {
    DistinctHolds(db.holds) && ReleasedHaveEvents(db, db.holds)
  }

  /** Follows name members and artists, and only follows have rules. */
  ghost predicate PolicyInv(p: Policy) {
    && (forall f | f in p.follows :: f.0 >= 1 && f.1 >= 1)
    && (forall k | k in p.rules :: k in p.follows)
  }

  ghost predicate DbInv(db: Db) {
    && RowsInv(db.deliveries) && RowsInv(db.digests)
    && Circuit(db) && Refs(db)
    && UniqueRows(db.deliveries) && UniqueRows(db.digests) && UniqueEvents(db.events)
    && RunsInv(db) && HoldsInv(db) && PolicyInv(db.policy)
  }

  /** Both queues move along edges; events, runs and destinations are never lost or changed in what they name. */
  ghost predicate DbEvolves(db: Db, db': Db) {
    && Evolves(db.deliveries, db'.deliveries) && Evolves(db.digests, db'.digests)
    && (forall e | e in db.events :: e in db'.events && db'.events[e] == db.events[e])
  }

  /** The transaction from `db` to `db'` keeps every invariant and moves rows only along edges. */
  ghost predicate Keeps(db: Db, db': Db) {
    DbInv(db') && DbEvolves(db, db')
  }

  const EMPTY := Db(Policy(map[], map[], {}, map[]), map[], map[], map[], map[], map[], map[], map[], map[])

  lemma EmptyInv()
    ensures DbInv(EMPTY)
  {
  }

  // ---- transactions that rewrite rows in place

  /** Rows move or go, and nothing else that the invariants mention changes. */
  ghost predicate InPlace(db: Db, db': Db) {
    && Evolves(db.deliveries, db'.deliveries) && Evolves(db.digests, db'.digests)
    && db'.deliveries.Keys <= db.deliveries.Keys && db'.digests.Keys <= db.digests.Keys
    && db'.events == db.events && db'.dests == db.dests && db'.holds == db.holds
    && SameRuns(db, db')
  }

  ghost predicate SameRuns(db: Db, db': Db) {
    db'.runs.Keys == db.runs.Keys && forall run | run in db.runs ::
      db'.runs[run].user == db.runs[run].user && db'.runs[run].createdAt == db.runs[run].createdAt
  }

  lemma InPlaceKeeps(db: Db, db': Db)
    requires DbInv(db) && InPlace(db, db')
    requires Circuit(db') && RunsInv(db') && PolicyInv(db'.policy)
    ensures Keeps(db, db')
  {
    EvolvesKeepsRowsInv(db.deliveries, db'.deliveries);
    EvolvesKeepsRowsInv(db.digests, db'.digests);
    SameTargets(db.deliveries, db'.deliveries);
    SameTargets(db.digests, db'.digests);
    assert HoldsInv(db') by {
      assert forall u, r, m :: EventExists(db, u, r, m) <==> EventExists(db', u, r, m);
    }
  }

  lemma SameTargets(t: map<Id, Row>, t': map<Id, Row>)
    requires RowsInv(t) && Evolves(t, t')
    ensures forall id | id in t && id in t' :: t'[id].parent == t[id].parent && t'[id].dest == t[id].dest
  {
    forall id | id in t && id in t'
      ensures t'[id].parent == t[id].parent && t'[id].dest == t[id].dest
    {
      EdgeKeepsRowInv(t[id], t'[id]);
    }
  }

  /** Runs see only which rows are open and which failed. */
  ghost predicate SameShape(t: map<Id, Row>, t': map<Id, Row>) {
    t'.Keys == t.Keys && forall id | id in t ::
      t'[id].parent == t[id].parent && (Open(t'[id]) <==> Open(t[id]))
      && (t'[id].status.Failed? <==> t[id].status.Failed?)
  }

  lemma SameShapeKeepsRuns(db: Db, db': Db)
    requires RunsInv(db) && db'.runs == db.runs && SameShape(db.digests, db'.digests)
    ensures RunsInv(db')
  {
    forall run | run in db.runs
      ensures RunInv(db', run)
    {
      assert RunInv(db, run);
      assert HasOpen(db'.digests, run) <==> HasOpen(db.digests, run);
      assert HasFailed(db'.digests, run) <==> HasFailed(db.digests, run);
      assert HasRows(db'.digests, run) <==> HasRows(db.digests, run);
    }
  }

  ghost predicate NoNewPending(t: map<Id, Row>, t': map<Id, Row>) {
    forall id | id in t' && t'[id].status.Pending? :: id in t && t[id].status.Pending? && t'[id].dest == t[id].dest
  }

  lemma NoNewPendingKeepsCircuit(db: Db, db': Db)
    requires Circuit(db) && db'.health == db.health && db'.dests == db.dests
    requires NoNewPending(db.deliveries, db'.deliveries) && NoNewPending(db.digests, db'.digests)
    ensures Circuit(db')
  {
  }

  ghost predicate AllPending(t: map<Id, Row>, ids: set<Id>) {
    ids <= t.Keys && forall id | id in ids :: t[id].status.Pending?
  }

  ghost predicate Leases(t: map<Id, Row>, t': map<Id, Row>) {
    t'.Keys == t.Keys && forall id | id in t :: t'[id] == t[id] || Claims(t[id], t'[id])
  }

  lemma LeasesKeepRows(t: map<Id, Row>, t': map<Id, Row>)
    requires RowsInv(t) && UniqueRows(t) && Leases(t, t')
    ensures RowsInv(t') && UniqueRows(t') && SameShape(t, t') && NoNewPending(t, t')
    ensures forall id | id in t :: t'[id].parent == t[id].parent && t'[id].dest == t[id].dest
  {
  }

  lemma LeaseKeeps(db: Db, q: Queue, ids: set<Id>, owner: string, expires: Time)
    requires DbInv(db) && AllPending(Tab(db, q), ids) && !Blank(owner)
    ensures var db' := Lease(db, q, ids, owner, expires);
            DbInv(db') && Leases(db.deliveries, db'.deliveries) && Leases(db.digests, db'.digests)
  {
    var db' := Lease(db, q, ids, owner, expires);
    LeaseAllLeases(Tab(db, q), ids, owner, expires);
    LeasesKeepRows(db.deliveries, db'.deliveries);
    LeasesKeepRows(db.digests, db'.digests);
    SameShapeKeepsRuns(db, db');
    NoNewPendingKeepsCircuit(db, db');
    assert forall u, r, m :: EventExists(db, u, r, m) <==> EventExists(db', u, r, m);
  }

  lemma LeaseAllLeases(t: map<Id, Row>, ids: set<Id>, owner: string, expires: Time)
    requires AllPending(t, ids) && !Blank(owner)
    ensures Leases(t, LeaseAll(t, ids, owner, expires))
  {
  }

  lemma RetryEvolves(db: Db, user: Id, dest: Id, now: Time)
    ensures var db' := RetryFailed(db, user, dest, now);
            Evolves(db.deliveries, db'.deliveries) && Evolves(db.digests, db'.digests)
  {
    var db' := RetryFailed(db, user, dest, now);
    assert forall id | id in db.deliveries ::
      db'.deliveries[id] == db.deliveries[id] || IsRetried(db.deliveries[id], db'.deliveries[id]);
    assert forall id | id in db.digests ::
      db'.digests[id] == db.digests[id] || IsRetried(db.digests[id], db'.digests[id]);
  }

  lemma RetryKeepsCircuit(db: Db, user: Id, dest: Id, now: Time)
    requires Circuit(db)
    ensures Circuit(RetryFailed(db, user, dest, now))
  {
    var db' := RetryFailed(db, user, dest, now);
    if db' != db {
      RetryKeepsDeliverable(db, db', dest, db.deliveries, db'.deliveries);
      RetryKeepsDeliverable(db, db', dest, db.digests, db'.digests);
    }
  }

  ghost predicate Resets(db: Db, r: Row, r': Row, dest: Id) {
    r' == r || (r.dest == dest && r'.dest == dest && (r'.status.Pending? ==> IsSupported(db, dest)))
  }

  lemma RetryKeepsDeliverable(db: Db, db': Db, dest: Id, t: map<Id, Row>, t': map<Id, Row>)
    requires PendingIsDeliverable(db, t) && db'.dests == db.dests
    requires db'.health == db.health[dest := Health(Healthy, 0, None)]
    requires t'.Keys == t.Keys && forall id | id in t :: Resets(db, t[id], t'[id], dest)
    ensures PendingIsDeliverable(db', t')
  {
    forall id | id in t' && t'[id].status.Pending?
      ensures QueueStatus(db', t'[id].dest).Pending?
    {
      assert Resets(db, t[id], t'[id], dest);
      if t'[id] == t[id] {
        assert QueueStatus(db, t[id].dest).Pending?;
      }
    }
  }

  lemma RetryFailedKeeps(db: Db, user: Id, dest: Id, now: Time)
    requires DbInv(db)
    ensures var db' := RetryFailed(db, user, dest, now); Keeps(db, db')
  {
    RetryEvolves(db, user, dest, now);
    RetryKeepsCircuit(db, user, dest, now);
    RetryKeepsRuns(db, user, dest, now);
    InPlaceKeeps(db, RetryFailed(db, user, dest, now));
  }

  /** A sent run has neither failed nor blocked rows, so a retry never reopens it. */
  lemma RetryKeepsRuns(db: Db, user: Id, dest: Id, now: Time)
    requires DbInv(db)
    ensures RunsInv(RetryFailed(db, user, dest, now))
  {
    var db' := RetryFailed(db, user, dest, now);
    forall run | run in db'.runs
      ensures RunInv(db', run)
    {
      assert RunInv(db, run);
      if HasRows(db'.digests, run) {
        assert HasRows(db.digests, run);
        if db.runs[run].status.RunSent? {
          assert !HasOpen(db.digests, run) && !HasFailed(db.digests, run);
          assert forall id | id in db.digests && db.digests[id].parent == run :: db'.digests[id] == db.digests[id];
        }
        if HasOpen(db.digests, run) {
          var id :| id in db.digests && db.digests[id].parent == run && Open(db.digests[id]);
          assert Open(db'.digests[id]);
        }
        if !HasOpen(db'.digests, run) {
          assert forall id | id in db.digests && db.digests[id].parent == run :: db'.digests[id] == db.digests[id];
        }
      }
    }
  }

  lemma ReleaseBlockedKeeps(db: Db, now: Time)
    requires DbInv(db)
    ensures var db' := ReleaseBlocked(db, now); Keeps(db, db')
  {
    var db' := ReleaseBlocked(db, now);
    SameShapeKeepsRuns(db, db');
    InPlaceKeeps(db, db');
  }

  lemma CancelOrphanedKeeps(db: Db, now: Time)
    requires DbInv(db)
    ensures var db' := CancelOrphaned(db, now); Keeps(db, db')
  {
    var db' := CancelOrphaned(db, now);
    SameShapeKeepsRuns(db, db');
    InPlaceKeeps(db, db');
  }

  lemma RecoverExpiredKeeps(db: Db, now: Time)
    requires DbInv(db)
    ensures var db' := RecoverExpired(db, now); Keeps(db, db')
  {
    var db' := RecoverExpired(db, now);
    SameShapeKeepsRuns(db, db');
    InPlaceKeeps(db, db');
  }

  lemma RepairReshapes(db: Db, now: Time, horizon: Time)
    ensures var db' := RepairSkewed(db, now, horizon);
            && Evolves(db.deliveries, db'.deliveries) && Evolves(db.digests, db'.digests)
            && SameShape(db.deliveries, db'.deliveries) && SameShape(db.digests, db'.digests)
            && NoNewPending(db.deliveries, db'.deliveries) && NoNewPending(db.digests, db'.digests)
  {
    var db' := RepairSkewed(db, now, horizon);
    assert forall id | id in db.deliveries ::
      db'.deliveries[id] == db.deliveries[id] || IsRepaired(db.deliveries[id], db'.deliveries[id]);
    assert forall id | id in db.digests ::
      db'.digests[id] == db.digests[id] || IsRepaired(db.digests[id], db'.digests[id]);
  }

  lemma RepairSkewedKeeps(db: Db, now: Time, horizon: Time)
    requires DbInv(db)
    ensures var db' := RepairSkewed(db, now, horizon); Keeps(db, db')
  {
    var db' := RepairSkewed(db, now, horizon);
    RepairReshapes(db, now, horizon);
    NoNewPendingKeepsCircuit(db, db');
    ReshapeKeeps(db, db');
  }

  lemma RealignEvolves(db: Db, user: Id, artists: set<Id>, now: Time)
    ensures var t' := Realign(db, user, artists, now).deliveries;
            Evolves(db.deliveries, t') && SameShape(db.deliveries, t') && NoNewPending(db.deliveries, t')
  {
    var db' := Realign(db, user, artists, now);
    forall id | id in db.deliveries
      ensures Edge(db.deliveries[id], db'.deliveries[id])
    {
      var r := db.deliveries[id];
      if user >= 1 && Affected(db, r, user, artists) {
        assert db'.deliveries[id] == RealignedRow(db, r, now);
        assert IsRescheduled(r, RealignedRow(db, r, now));
      } else {
        assert db'.deliveries[id] == r;
      }
    }
  }

  lemma RealignKeeps(db: Db, user: Id, artists: set<Id>, now: Time)
    requires DbInv(db)
    ensures var db' := Realign(db, user, artists, now); Keeps(db, db')
  {
    var db' := Realign(db, user, artists, now);
    RealignEvolves(db, user, artists, now);
    assert db' == db.(deliveries := db'.deliveries);
    NoNewPendingKeepsCircuit(db, db');
    ReshapeKeeps(db, db');
  }

  // ---- what workers record

  /** Replacing one row by a row of the same run shows only in that run. */
  lemma PutRowKeepsOtherRuns(db: Db, db': Db, id: Id, r': Row, run: Id)
    requires id in db.digests && db'.digests == db.digests[id := r'] && r'.parent == db.digests[id].parent
    requires run != r'.parent && run in db.runs && run in db'.runs && db'.runs[run] == db.runs[run]
    requires RunInv(db, run)
    ensures RunInv(db', run)
  {
    assert forall k | k in db.digests && db.digests[k].parent == run :: db'.digests[k] == db.digests[k];
    assert forall k | k in db'.digests && db'.digests[k].parent == run :: db'.digests[k] == db.digests[k];
  }

  lemma PutRowEvolves(t: map<Id, Row>, id: Id, r': Row)
    requires id in t && Edge(t[id], r')
    requires r'.status.Pending? ==> t[id].status.Pending? && r'.dest == t[id].dest
    ensures Evolves(t, t[id := r']) && NoNewPending(t, t[id := r'])
  {
  }

  lemma PutRowKeeps(db: Db, db': Db, q: Queue, id: Id, r': Row)
    requires DbInv(db) && id in Tab(db, q) && Edge(Tab(db, q)[id], r')
    requires r'.status.Pending? ==> Tab(db, q)[id].status.Pending? && r'.dest == Tab(db, q)[id].dest
    requires db' == PutRow(db, q, id, r').(runs := db'.runs) && SameRuns(db, db') && RunsInv(db')
    ensures Keeps(db, db')
  {
    PutRowEvolves(Tab(db, q), id, r');
    NoNewPendingKeepsCircuit(db, db');
    InPlaceKeeps(db, db');
  }

  lemma CompleteKeepsRuns(db: Db, id: Id)
    requires DbInv(db) && id in db.digests && Open(db.digests[id])
    ensures RunsInv(CompleteRow(db, Digests, id))
  {
    var db' := CompleteRow(db, Digests, id);
    var mine := db.digests[id].parent;
    assert HasOpen(db.digests, mine);
    forall run | run in db'.runs
      ensures RunInv(db', run)
    {
      assert RunInv(db, run);
      if run != mine {
        PutRowKeepsOtherRuns(db, db', id, db'.digests[id], run);
      }
    }
  }

  lemma CompleteRowKeeps(db: Db, q: Queue, id: Id)
    requires DbInv(db) && id in Tab(db, q) && Open(Tab(db, q)[id])
    ensures var db' := CompleteRow(db, q, id); Keeps(db, db')
  {
    var db' := CompleteRow(db, q, id);
    if q.Digests? {
      CompleteKeepsRuns(db, id);
    } else {
      SameShapeKeepsRuns(db, db');
    }
    assert Completes(Tab(db, q)[id], SentRow(Tab(db, q)[id]));
    PutRowKeeps(db, db', q, id, SentRow(Tab(db, q)[id]));
  }

  lemma MarkSentKeeps(db: Db, q: Queue, id: Id, owner: string)
    requires DbInv(db) && !Blank(owner)
    ensures var db' := MarkSent(db, q, id, owner); Keeps(db, db')
  {
    if Hits(Tab(db, q), id, owner) {
      assert RowInv(Tab(db, q)[id]);
      CompleteRowKeeps(db, q, id);
    }
  }

  lemma FinalizeSentKeeps(db: Db, q: Queue, id: Id)
    requires DbInv(db)
    ensures var db' := FinalizeSent(db, q, id); Keeps(db, db')
  {
    if Finalizable(Tab(db, q), id) {
      CompleteRowKeeps(db, q, id);
    }
  }

  lemma MarkFailedKeepsRuns(db: Db, id: Id, attempts: nat, owner: string, now: Time)
    requires DbInv(db) && Hits(db.digests, id, owner) && !Blank(owner)
    ensures RunsInv(MarkFailed(db, Digests, id, attempts, owner, now))
  {
    var db' := MarkFailed(db, Digests, id, attempts, owner, now);
    var mine := db.digests[id].parent;
    assert RowInv(db.digests[id]);
    assert HasOpen(db.digests, mine);
    forall run | run in db'.runs
      ensures RunInv(db', run)
    {
      assert RunInv(db, run);
      if run != mine {
        PutRowKeepsOtherRuns(db, db', id, db'.digests[id], run);
      } else if Open(db'.digests[id]) {
        assert HasOpen(db'.digests, run);
      } else {
        assert HasFailed(db'.digests, run);
      }
    }
  }

  lemma MarkFailedKeeps(db: Db, q: Queue, id: Id, attempts: nat, owner: string, now: Time)
    requires DbInv(db) && !Blank(owner)
    requires Hits(Tab(db, q), id, owner) ==> attempts == Tab(db, q)[id].attempts + 1
    ensures var db' := MarkFailed(db, q, id, attempts, owner, now); Keeps(db, db')
  {
    if Hits(Tab(db, q), id, owner) {
      var db' := MarkFailed(db, q, id, attempts, owner, now);
      var r, r' := Tab(db, q)[id], FailedRow(Tab(db, q)[id], attempts, now);
      assert RowInv(r);
      if q.Digests? {
        MarkFailedKeepsRuns(db, id, attempts, owner, now);
      } else {
        SameShapeKeepsRuns(db, db');
      }
      assert Fails(r, r');
      PutRowKeeps(db, db', q, id, r');
    }
  }

  lemma MarkRateLimitedKeeps(db: Db, q: Queue, id: Id, owner: string, next: Time)
    requires DbInv(db) && !Blank(owner)
    ensures var db' := MarkRateLimited(db, q, id, owner, next); Keeps(db, db')
  {
    if Hits(Tab(db, q), id, owner) {
      var db' := MarkRateLimited(db, q, id, owner, next);
      var r, r' := Tab(db, q)[id], LimitedRow(Tab(db, q)[id], next);
      assert RowInv(r);
      SameShapeKeepsRuns(db, db');
      assert IsLimited(r, r');
      PutRowKeeps(db, db', q, id, r');
    }
  }

  lemma BlockAllEvolves(t: map<Id, Row>, dest: Id)
    ensures var t' := BlockAll(t, dest); Evolves(t, t') && SameShape(t, t') && NoNewPending(t, t')
  {
    var t' := BlockAll(t, dest);
    forall id | id in t
      ensures Edge(t[id], t'[id])
    {
      assert t'[id] == t[id] || IsBlocked(t[id], t'[id]);
    }
  }

  lemma ReshapeKeeps(db: Db, db': Db)
    requires DbInv(db) && db' == db.(health := db'.health, deliveries := db'.deliveries, digests := db'.digests)
    requires Evolves(db.deliveries, db'.deliveries) && Evolves(db.digests, db'.digests)
    requires SameShape(db.deliveries, db'.deliveries) && SameShape(db.digests, db'.digests) && Circuit(db')
    ensures Keeps(db, db')
  {
    SameShapeKeepsRuns(db, db');
    InPlaceKeeps(db, db');
  }

  lemma FinishAttemptKeeps(db: Db, dest: Id, v: Verdict, next: Option<Time>)
    requires DbInv(db)
    ensures Keeps(db, FinishAttempt(db, dest, v, next))
  {
    BlockAllEvolves(db.deliveries, dest);
    BlockAllEvolves(db.digests, dest);
    FinishAttemptKeepsCircuit(db, dest, v, next);
    ReshapeKeeps(db, FinishAttempt(db, dest, v, next));
  }

  lemma FinishKeepsDeliverable(db: Db, dest: Id, v: Verdict, next: Option<Time>, t: map<Id, Row>)
    requires Circuit(db) && PendingIsDeliverable(db, t)
    ensures var h := NextHealth(db, dest, v, next);
            var db' := FinishAttempt(db, dest, v, next);
            PendingIsDeliverable(db', if v.Rejected? && h.status.Paused? then BlockAll(t, dest) else t)
  {
    var h := NextHealth(db, dest, v, next);
    var db' := FinishAttempt(db, dest, v, next);
    assert db'.health == db.health[dest := h] && db'.dests == db.dests;
    assert !v.Rejected? ==> (h.status.Paused? <==> IsPaused(db, dest));
    var t' := if v.Rejected? && h.status.Paused? then BlockAll(t, dest) else t;
    forall id | id in t' && t'[id].status.Pending?
      ensures QueueStatus(db', t'[id].dest).Pending?
    {
      assert t'[id] == t[id];
      assert QueueStatus(db, t[id].dest).Pending?;
    }
  }

  /** The failure that trips the circuit empties both queues of pending work for the destination. */
  lemma FinishAttemptKeepsCircuit(db: Db, dest: Id, v: Verdict, next: Option<Time>)
    requires Circuit(db)
    ensures Circuit(FinishAttempt(db, dest, v, next))
  {
    FinishKeepsDeliverable(db, dest, v, next, db.deliveries);
    FinishKeepsDeliverable(db, dest, v, next, db.digests);
    FinishKeepsStreak(db, dest, v, next);
  }

  lemma FinishKeepsStreak(db: Db, dest: Id, v: Verdict, next: Option<Time>)
    requires Circuit(db)
    ensures var h := NextHealth(db, dest, v, next);
            h.failures >= 0 && (h.status.Paused? <==> h.failures >= TRIP)
  {
  }

  // ---- policy changes

  lemma PolicyKeeps(db: Db, p: Policy)
    requires DbInv(db) && PolicyInv(p)
    ensures DbInv(db.(policy := p))
  {
    var db' := db.(policy := p);
    SameShapeKeepsRuns(db, db');
    NoNewPendingKeepsCircuit(db, db');
    assert forall u, r, m :: EventExists(db, u, r, m) <==> EventExists(db', u, r, m);
  }

  lemma RealignedPolicyKeeps(db: Db, p: Policy, user: Id, artists: set<Id>, now: Time)
    requires DbInv(db) && PolicyInv(p)
    ensures Keeps(db, Realign(db.(policy := p), user, artists, now))
  {
    PolicyKeeps(db, p);
    RealignKeeps(db.(policy := p), user, artists, now);
  }

  lemma WithRulesInv(p: Policy, user: Id, artists: set<Id>, rule: Rule)
    requires PolicyInv(p) && forall a | a in artists :: (user, a) in p.follows
    ensures PolicyInv(WithRules(p, user, artists, rule))
  {
  }

  lemma WithFollowInv(p: Policy, user: Id, artist: Id)
    requires PolicyInv(p)
    ensures user >= 1 && artist >= 1 ==> PolicyInv(WithFollow(p, user, artist))
    ensures PolicyInv(WithoutFollow(p, user, artist))
  {
  }

  lemma UpdateRulesKeeps(db: Db, user: Id, artists: seq<Id>, rule: Rule, now: Time)
    requires DbInv(db)
    ensures var db' := UpdateRules(db, user, artists, rule, now); Keeps(db, db')
  {
    var ids := Positive(artists);
    if user >= 1 && FollowsAll(db.policy, user, ids) {
      WithRulesInv(db.policy, user, ids, rule);
      RealignedPolicyKeeps(db, WithRules(db.policy, user, ids, rule), user, ids, now);
    }
  }

  lemma SetModeKeeps(db: Db, user: Id, artists: seq<Id>, mode: Mode, now: Time)
    requires DbInv(db)
    ensures var db' := SetMode(db, user, artists, mode, now); Keeps(db, db')
  {
    var ids := Positive(artists);
    RealignedPolicyKeeps(db, WithModes(db.policy, user, ids, mode), user, ids, now);
  }

  lemma PauseFollowKeeps(db: Db, user: Id, artist: Id, until: Option<Time>, now: Time)
    requires DbInv(db)
    ensures var db' := PauseFollow(db, user, artist, until, now); Keeps(db, db')
  {
    if (user, artist) in db.policy.follows {
      var rule := RuleOf(db.policy, user, artist).(pausedUntil := until);
      WithRulesInv(db.policy, user, {artist}, rule);
      RealignedPolicyKeeps(db, WithRules(db.policy, user, {artist}, rule), user, Positive([artist]), now);
    }
  }

  lemma FollowOnlyKeeps(db: Db, user: Id, artist: Id)
    requires DbInv(db) && user >= 1 && artist >= 1
    ensures var db' := FollowOnly(db, user, artist); Keeps(db, db')
  {
    WithFollowInv(db.policy, user, artist);
    PolicyKeeps(db, WithFollow(db.policy, user, artist));
  }

  lemma FollowKeeps(db: Db, user: Id, artist: Id, now: Time)
    requires DbInv(db) && user >= 1 && artist >= 1
    ensures var db' := Follow(db, user, artist, now); Keeps(db, db')
  {
    WithFollowInv(db.policy, user, artist);
    RealignedPolicyKeeps(db, WithFollow(db.policy, user, artist), user, Positive([artist]), now);
  }

  lemma AbandonKeeps(db: Db, user: Id, artist: Id, now: Time)
    requires DbInv(db)
    ensures var db' := Abandon(db, user, artist, now); Keeps(db, db')
  {
    var db' := Abandon(db, user, artist, now);
    SameShapeKeepsRuns(db, db');
    NoNewPendingKeepsCircuit(db, db');
    InPlaceKeeps(db, db');
  }

  /** Deleting rows and then moving the others is one step of the queues. */
  lemma EvolvesAfterDeletion(t: map<Id, Row>, t1: map<Id, Row>, t2: map<Id, Row>)
    requires t1.Keys <= t.Keys && t2.Keys == t1.Keys
    requires forall id | id in t :: if id in t1 then t1[id] == t[id] else Open(t[id])
    requires Evolves(t1, t2)
    ensures Evolves(t, t2)
  {
  }

  lemma UnfollowKeeps(db: Db, user: Id, artist: Id, now: Time)
    requires DbInv(db)
    ensures var db' := Unfollow(db, user, artist, now); Keeps(db, db')
  {
    if (user, artist) in db.policy.follows {
      var db1 := db.(policy := WithoutFollow(db.policy, user, artist));
      WithFollowInv(db.policy, user, artist);
      PolicyKeeps(db, db1.policy);
      AbandonKeeps(db1, user, artist, now);
      var db2 := Abandon(db1, user, artist, now);
      RealignKeeps(db2, user, Positive([artist]), now);
      RealignEvolves(db2, user, Positive([artist]), now);
      EvolvesAfterDeletion(db.deliveries, db2.deliveries, Unfollow(db, user, artist, now).deliveries);
    }
  }

  // ---- admission

  /** Each target gets one untouched row, and the rows that were there stay. */
  ghost predicate Adds(db: Db, t: map<Id, Row>, t': map<Id, Row>, user: Id, parent: Id, createdAt: Time) {
    && (forall id | id in t :: id in t' && t'[id] == t[id])
    && (forall id | id in t' && id !in t ::
          IsNew(t'[id]) && t'[id].parent == parent && RefOk(db, t'[id], user, createdAt)
          && t'[id].status == QueueStatus(db, t'[id].dest) && !HasRow(t, parent, t'[id].dest))
    && (forall a, b | a in t' && a !in t && b in t' && b !in t && t'[a].dest == t'[b].dest :: a == b)
  }

  lemma FanOutAdds(db: Db, t: map<Id, Row>, user: Id, parent: Id, createdAt: Time, rows: map<Id, Id>, at: Time)
    requires Fresh(t, rows, Targets(db, t, user, parent, createdAt))
    ensures Adds(db, t, FanOut(db, t, parent, rows, at), user, parent, createdAt)
  {
    var t' := FanOut(db, t, parent, rows, at);
    forall id | id in t' && id !in t
      ensures IsNew(t'[id]) && t'[id].parent == parent && RefOk(db, t'[id], user, createdAt)
      ensures t'[id].status == QueueStatus(db, t'[id].dest) && !HasRow(t, parent, t'[id].dest)
    {
      FannedOut(db, t, user, parent, createdAt, rows, at, id);
    }
    forall a, b | a in t' && a !in t && b in t' && b !in t && t'[a].dest == t'[b].dest
      ensures a == b
    {
      assert t'[a].dest == rows[a] && t'[b].dest == rows[b];
    }
  }

  lemma FannedOut(
      db: Db, t: map<Id, Row>, user: Id, parent: Id, createdAt: Time, rows: map<Id, Id>, at: Time, id: Id)
    requires Fresh(t, rows, Targets(db, t, user, parent, createdAt))
    requires id in rows
    ensures FanOut(db, t, parent, rows, at)[id] == Row(parent, rows[id], QueueStatus(db, rows[id]), 0, at, None, None)
    ensures RefOk(db, FanOut(db, t, parent, rows, at)[id], user, createdAt) && !HasRow(t, parent, rows[id])
  {
    assert rows[id] in Targets(db, t, user, parent, createdAt);
  }

  lemma AddsKeepsTable(db: Db, t: map<Id, Row>, t': map<Id, Row>, user: Id, parent: Id, createdAt: Time)
    requires UniqueRows(t) && PendingIsDeliverable(db, t) && RowsInv(t)
    requires Adds(db, t, t', user, parent, createdAt)
    ensures Evolves(t, t') && UniqueRows(t') && PendingIsDeliverable(db, t') && RowsInv(t')
  {
    forall a, b | a in t' && b in t' && t'[a].parent == t'[b].parent && t'[a].dest == t'[b].dest
      ensures a == b
    {
      if a in t && b !in t {
        assert HasRow(t, parent, t[a].dest);
      } else if b in t && a !in t {
        assert HasRow(t, parent, t[b].dest);
      }
    }
    EvolvesKeepsRowsInv(t, t');
  }

  lemma NewEventKeeps(db: Db, a: Admission)
    requires DbInv(db) && a.eid !in db.events && !EventExists(db, a.user, a.release, a.moment)
    ensures var db' := db.(events := db.events[a.eid := Event(a.user, a.release, a.moment, a.now)]);
            Keeps(db, db') && EventExists(db', a.user, a.release, a.moment)
  {
    var db' := db.(events := db.events[a.eid := Event(a.user, a.release, a.moment, a.now)]);
    assert db'.events[a.eid] == Event(a.user, a.release, a.moment, a.now);
    SameShapeKeepsRuns(db, db');
    NoNewPendingKeepsCircuit(db, db');
    assert UniqueEvents(db'.events);
    forall h | h in db'.holds && db'.holds[h].status.Released?
      ensures EventExists(db', db.holds[h].user, db.holds[h].release, db.holds[h].moment)
    {
      var e :| e in db.events && HasKey(db.events[e], db.holds[h].user, db.holds[h].release, db.holds[h].moment);
      assert db'.events[e] == db.events[e];
    }
  }

  lemma FanOutKeeps(db: Db, eid: Id, rows: map<Id, Id>, at: Time)
    requires DbInv(db) && eid in db.events
    requires var e := db.events[eid]; Fresh(db.deliveries, rows, Targets(db, db.deliveries, e.user, eid, e.createdAt))
    ensures var db' := db.(deliveries := FanOut(db, db.deliveries, eid, rows, at)); Keeps(db, db')
  {
    var e := db.events[eid];
    var db' := db.(deliveries := FanOut(db, db.deliveries, eid, rows, at));
    FanOutAdds(db, db.deliveries, e.user, eid, e.createdAt, rows, at);
    AddsDeliveriesKeeps(db, db', eid);
  }

  lemma AddsDeliveriesKeeps(db: Db, db': Db, eid: Id)
    requires DbInv(db) && eid in db.events && db' == db.(deliveries := db'.deliveries)
    requires Adds(db, db.deliveries, db'.deliveries, db.events[eid].user, eid, db.events[eid].createdAt)
    ensures Keeps(db, db')
  {
    AddsKeepsTable(db, db.deliveries, db'.deliveries, db.events[eid].user, eid, db.events[eid].createdAt);
    SameShapeKeepsRuns(db, db');
    assert forall d :: QueueStatus(db', d) == QueueStatus(db, d);
    assert forall u, r, m :: EventExists(db, u, r, m) <==> EventExists(db', u, r, m);
  }

  /** The event is on record, and is still owed the same deliveries. */
  ghost predicate Recorded(db: Db, db1: Db, a: Admission) {
    && Keeps(db, db1) && a.eid in db1.events && HasKey(db1.events[a.eid], a.user, a.release, a.moment)
    && db1.events[a.eid].createdAt == EventCreated(db, a)
    && db1.deliveries == db.deliveries && db1.digests == db.digests && db1.holds == db.holds
    && Fresh(db1.deliveries, a.rows, Targets(db1, db1.deliveries, a.user, a.eid, EventCreated(db, a)))
  }

  lemma RecordingKeeps(db: Db, a: Admission, at: Time)
    requires DbInv(db) && Fits(db, a)
    ensures Recorded(db, InsertEvent(db, a, false, at), a)
  {
    var db1 := InsertEvent(db, a, false, at);
    if a.eid !in db.events {
      NewEventKeeps(db, a);
    }
    assert Targets(db1, db1.deliveries, a.user, a.eid, EventCreated(db, a))
        == Targets(db, db.deliveries, a.user, a.eid, EventCreated(db, a));
  }

  lemma QueuedKeeps(db: Db, db1: Db, a: Admission, at: Time)
    requires Recorded(db, db1, a)
    ensures var db' := db1.(deliveries := FanOut(db1, db1.deliveries, a.eid, a.rows, at));
            Keeps(db, db') && EventExists(db', a.user, a.release, a.moment)
  {
    var db' := db1.(deliveries := FanOut(db1, db1.deliveries, a.eid, a.rows, at));
    FanOutKeeps(db1, a.eid, a.rows, at);
    assert HasKey(db'.events[a.eid], a.user, a.release, a.moment);
  }

  lemma InsertEventKeeps(db: Db, a: Admission, queue: bool, deliverAt: Time)
    requires DbInv(db) && Fits(db, a)
    ensures var db' := InsertEvent(db, a, queue, deliverAt);
            && Keeps(db, db') && EventExists(db', a.user, a.release, a.moment)
            && db'.holds == db.holds
  {
    var db1 := InsertEvent(db, a, false, deliverAt);
    RecordingKeeps(db, a, deliverAt);
    assert HasKey(db1.events[a.eid], a.user, a.release, a.moment);
    if queue {
      QueuedKeeps(db, db1, a, deliverAt);
    }
  }

  /** The gate never disturbs an existing hold, and an event it lets through is on record. */
  lemma HoldConflictingKeeps(db: Db, a: Admission)
    requires DbInv(db) && Fits(db, a)
    ensures var g := HoldConflicting(db, a);
            && Keeps(db, g.db)
            && (forall h | h in db.holds :: h in g.db.holds && g.db.holds[h] == db.holds[h])
            && (!g.held ==> EventExists(g.db, a.user, a.release, a.moment))
  {
    var g := HoldConflicting(db, a);
    if EventExists(db, a.user, a.release, a.moment) {
    } else if HoldExists(db, a.user, a.release, a.moment, Discarded) {
    } else if Blank(Join(IssuesOf(db, a.release))) {
      InsertEventKeeps(db, a, true, a.now);
    } else if HoldExists(db, a.user, a.release, a.moment, Held) {
    } else {
      NewHoldKeeps(db, a);
    }
  }

  lemma NewHoldKeeps(db: Db, a: Admission)
    requires DbInv(db) && a.holdId !in db.holds
    requires !HoldExists(db, a.user, a.release, a.moment, Held)
    requires !HoldExists(db, a.user, a.release, a.moment, Discarded)
    ensures var db' := db.(holds := db.holds[a.holdId := Hold(a.user, a.release, a.moment, Held)]);
            Keeps(db, db')
  {
    var db' := db.(holds := db.holds[a.holdId := Hold(a.user, a.release, a.moment, Held)]);
    forall h | h in db.holds && Unsettled(db.holds[h])
      ensures !ForHold(db.holds[h], a)
    {
      assert db.holds[h] == Hold(db.holds[h].user, db.holds[h].release, db.holds[h].moment, db.holds[h].status);
    }
    HoldsOnly(db, db');
  }

  /** Hold edits leave every other invariant alone. */
  lemma HoldsOnly(db: Db, db': Db)
    requires DbInv(db) && db' == db.(holds := db'.holds)
    requires DistinctHolds(db'.holds) && ReleasedHaveEvents(db, db'.holds)
    ensures Keeps(db, db')
  {
    SameShapeKeepsRuns(db, db');
    NoNewPendingKeepsCircuit(db, db');
    assert forall u, r, m :: EventExists(db, u, r, m) <==> EventExists(db', u, r, m);
  }

  lemma EnqueueKeeps(db: Db, a: Admission)
    requires DbInv(db) && Fits(db, a)
    ensures var r := Enqueue(db, a);
            && Keeps(db, r.db)
            && (forall h | h in db.holds :: h in r.db.holds && r.db.holds[h] == db.holds[h])
            && (r.admitted ==> EventExists(r.db, a.user, a.release, a.moment))
  {
    match Governor(db.policy, a.user, a.release, a.moment)
    case None =>
    case Some(c) =>
      if TakesGate(db, a, c.rule) {
        HoldConflictingKeeps(db, a);
      } else {
        var deferred := ResumesAt(c.rule, a.now);
        InsertEventKeeps(db, a, QueuesImmediate(c.rule, a.now) || deferred.Some?, OrElse(deferred, a.now));
      }
  }

  // ---- holds

  lemma SettleHoldKeeps(db: Db, h: Id, status: HoldStatus)
    requires DbInv(db)
    requires status.Released? && h in db.holds ==>
      EventExists(db, db.holds[h].user, db.holds[h].release, db.holds[h].moment)
    ensures Keeps(db, SettleHold(db, h, status))
  {
    var holds := SettleHold(db, h, status).holds;
    assert DistinctHolds(holds);
    assert ReleasedHaveEvents(db, holds);
    HoldsOnly(db, SettleHold(db, h, status));
  }

  lemma ReAdmitKeeps(db: Db, h: Id, a: Admission)
    requires DbInv(db) && Fits(db, a) && h in db.holds && ForHold(db.holds[h], a)
    ensures Keeps(db, ReAdmit(db, h, a))
  {
    EnqueueKeeps(db, a);
    var r := Enqueue(db, a);
    if r.admitted {
      SettleHoldKeeps(r.db, h, Released);
    }
  }

  lemma DrainHoldKeeps(db: Db, h: Id, a: Admission)
    requires DbInv(db) && Fits(db, a)
    ensures Keeps(db, DrainHold(db, h, a))
  {
    if DrainHold(db, h, a) != db {
      ReAdmitKeeps(db, h, a);
    }
  }

  lemma NotifyHoldKeeps(db: Db, user: Id, h: Id, a: Admission)
    requires DbInv(db) && Fits(db, a)
    ensures Keeps(db, NotifyHold(db, user, h, a))
  {
    if NotifyHold(db, user, h, a) != db {
      ReAdmitKeeps(db, h, a);
    }
  }

  lemma DiscardHoldKeeps(db: Db, user: Id, h: Id)
    requires DbInv(db)
    ensures Keeps(db, DiscardHold(db, user, h))
  {
    SettleHoldKeeps(db, h, Discarded);
  }

  lemma RestoreHoldKeeps(db: Db, user: Id, h: Id)
    requires DbInv(db)
    ensures Keeps(db, RestoreHold(db, user, h))
  {
    HoldsOnly(db, RestoreHold(db, user, h));
  }

  lemma ApproveKeeps(db: Db, a: Admission, bypassBlocking: bool)
    requires DbInv(db) && Fits(db, a)
    ensures Keeps(db, Approve(db, a, bypassBlocking))
  {
    EnqueueKeeps(db, a.(bypass := true));
  }

  // ---- digests

  lemma AttachKeeps(db: Db, run: Id, rows: map<Id, Id>, at: Time)
    requires DbInv(db) && run in db.runs && db.runs[run].status.RunPending? && !HasRows(db.digests, run)
    requires Fresh(db.digests, rows, Targets(db, db.digests, db.runs[run].user, run, db.runs[run].createdAt))
    ensures var db' := db.(digests := FanOut(db, db.digests, run, rows, at)); Keeps(db, db')
  {
    var db' := db.(digests := FanOut(db, db.digests, run, rows, at));
    FanOutAdds(db, db.digests, db.runs[run].user, run, db.runs[run].createdAt, rows, at);
    AddsDigestsKeepsRuns(db, db', run);
    AddsDigestsKeeps(db, db', run);
  }

  lemma AddsDigestsKeeps(db: Db, db': Db, run: Id)
    requires DbInv(db) && run in db.runs && db' == db.(digests := db'.digests) && RunsInv(db')
    requires Adds(db, db.digests, db'.digests, db.runs[run].user, run, db.runs[run].createdAt)
    ensures Keeps(db, db')
  {
    AddsKeepsTable(db, db.digests, db'.digests, db.runs[run].user, run, db.runs[run].createdAt);
    assert forall d :: QueueStatus(db', d) == QueueStatus(db, d);
    assert forall u, r, m :: EventExists(db, u, r, m) <==> EventExists(db', u, r, m);
  }

  lemma AddsDigestsKeepsRuns(db: Db, db': Db, run: Id)
    requires DbInv(db) && run in db.runs && db.runs[run].status.RunPending? && !HasRows(db.digests, run)
    requires db' == db.(digests := db'.digests)
    requires Adds(db, db.digests, db'.digests, db.runs[run].user, run, db.runs[run].createdAt)
    ensures RunsInv(db')
  {
    forall r | r in db.runs
      ensures RunInv(db', r)
    {
      assert RunInv(db, r);
      if r != run {
        assert forall k | k in db'.digests && db'.digests[k].parent == r :: k in db.digests;
      } else if HasRows(db'.digests, r) {
        var k :| k in db'.digests && db'.digests[k].parent == r;
        assert k !in db.digests && Open(db'.digests[k]);
      }
    }
  }

  lemma NewRunKeeps(db: Db, run: Id, user: Id, now: Time)
    requires DbInv(db) && run !in db.runs
    ensures var db' := db.(runs := db.runs[run := Run(user, now, RunPending)]);
            Keeps(db, db') && !HasRows(db'.digests, run)
  {
    var db' := db.(runs := db.runs[run := Run(user, now, RunPending)]);
    forall r | r in db'.runs
      ensures RunInv(db', r)
    {
      if r in db.runs {
        assert RunInv(db, r);
      }
    }
    NoNewPendingKeepsCircuit(db, db');
    assert forall u, r, m :: EventExists(db, u, r, m) <==> EventExists(db', u, r, m);
  }

  lemma QueueDigestKeeps(db: Db, plan: DigestPlan)
    requires DbInv(db) && FitsDigest(db, plan)
    ensures Keeps(db, QueueDigest(db, plan))
  {
    match plan.found
    case Some(run) =>
      if db.runs[run].status.RunPending? && !HasRows(db.digests, run) {
        AttachKeeps(db, run, plan.rows, plan.now);
      }
    case None =>
      NewRunKeeps(db, plan.runId, plan.user, plan.now);
      var db1 := db.(runs := db.runs[plan.runId := Run(plan.user, plan.now, RunPending)]);
      assert Targets(db1, db1.digests, plan.user, plan.runId, plan.now)
          == Targets(db, db.digests, plan.user, plan.runId, plan.now);
      AttachKeeps(db1, plan.runId, plan.rows, plan.now);
  }

  // ---- edits made elsewhere

  lemma AddDestinationKeeps(db: Db, d: Id, user: Id, supported: bool, now: Time)
    requires DbInv(db)
    ensures var db' := AddDestination(db, d, user, supported, now); Keeps(db, db')
  {
    AddDestinationKeepsRows(db, d, user, supported, now);
    DestinationsOnly(db, AddDestination(db, d, user, supported, now));
  }

  lemma DestinationsOnly(db: Db, db': Db)
    requires DbInv(db) && db' == db.(dests := db'.dests) && Refs(db') && Circuit(db')
    ensures Keeps(db, db')
  {
    SameShapeKeepsRuns(db, db');
    assert forall u, r, m :: EventExists(db, u, r, m) <==> EventExists(db', u, r, m);
  }

  lemma AddDestinationKeepsRows(db: Db, d: Id, user: Id, supported: bool, now: Time)
    requires Refs(db) && Circuit(db)
    ensures var db' := AddDestination(db, d, user, supported, now); Refs(db') && Circuit(db')
  {
    var db' := AddDestination(db, d, user, supported, now);
    MoreDestinationsKeepDeliverable(db, db', db.deliveries);
    MoreDestinationsKeepDeliverable(db, db', db.digests);
    MoreDestinationsKeepRefs(db, db');
  }

  lemma MoreDestinationsKeepRefs(db: Db, db': Db)
    requires Refs(db) && db' == db.(dests := db'.dests)
    requires forall d | d in db.dests :: d in db'.dests && db'.dests[d] == db.dests[d]
    ensures Refs(db')
  {
    forall id | id in db'.deliveries
      ensures var r := db'.deliveries[id];
        r.parent in db'.events && RefOk(db', r, db'.events[r.parent].user, db'.events[r.parent].createdAt)
    {
      var r := db.deliveries[id];
      assert RefOk(db, r, db.events[r.parent].user, db.events[r.parent].createdAt);
    }
    forall id | id in db'.digests
      ensures var r := db'.digests[id];
        r.parent in db'.runs && RefOk(db', r, db'.runs[r.parent].user, db'.runs[r.parent].createdAt)
    {
      var r := db.digests[id];
      assert RefOk(db, r, db.runs[r.parent].user, db.runs[r.parent].createdAt);
    }
  }

  lemma MoreDestinationsKeepDeliverable(db: Db, db': Db, t: map<Id, Row>)
    requires PendingIsDeliverable(db, t) && db'.health == db.health
    requires forall d | d in db.dests :: d in db'.dests && db'.dests[d] == db.dests[d]
    ensures PendingIsDeliverable(db', t)
  {
    forall id | id in t && t[id].status.Pending?
      ensures QueueStatus(db', t[id].dest).Pending?
    {
      assert QueueStatus(db, t[id].dest).Pending?;
    }
  }

  lemma EditPolicyKeeps(db: Db, releases: map<Id, Release>, prefs: map<Id, Prefs>)
    requires DbInv(db)
    ensures Keeps(db, EditPolicy(db, releases, prefs))
  {
    PolicyKeeps(db, db.policy.(releases := releases, prefs := prefs));
  }

  lemma EditIssuesKeeps(db: Db, issues: map<Id, seq<string>>)
    requires DbInv(db)
    ensures Keeps(db, EditIssues(db, issues))
  {
    var db' := EditIssues(db, issues);
    SameShapeKeepsRuns(db, db');
    NoNewPendingKeepsCircuit(db, db');
    assert forall u, r, m :: EventExists(db, u, r, m) <==> EventExists(db', u, r, m);
  }
}
