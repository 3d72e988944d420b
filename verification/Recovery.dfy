/** What the operator's and the maintenance transactions do to each row, and to no other. */
module Recovery {
  import opened Prelude
  import opened Tables
  import opened Governing
  import opened Transactions
  import opened Eligibility
  import opened RowAutomaton

  // ---- vocabulary

  /** The two queues change row by row, and nothing else does but destination health. */
  ghost predicate QueuesOnly(db: Db, db': Db) {
    && db' == db.(deliveries := db'.deliveries, digests := db'.digests, health := db'.health)
  }

  predicate IsLive(r: Row, now: Time) {
    r.owner.Some? && r.expires.Some? && now < r.expires.value
  }

  predicate IsOpen(r: Row) {
    r.status == Pending || r.status == Blocked
  }

  /** The delivery's governing follow is paused. */
  predicate IsWaiting(db: Db, r: Row, now: Time) {
    DeferredUntil(db.policy, db.events, r.parent, now) != None
  }

  // ---- retrying a destination

  predicate GivenUp(r: Row, d: Id) {
    r.dest == d && (r.status == Failed || r.status == Blocked)
  }

  /** A row starts over: no attempts, no lease, runnable if its transport is supported, due at `at`. */
  predicate StartsOver(db: Db, r: Row, r': Row, at: Time) {
    && r'.parent == r.parent && r'.dest == r.dest && r'.attempts == 0 && r'.owner == None && r'.expires == None
    && r'.nextAt == at
    && r'.status == if r.dest in db.dests && db.dests[r.dest].supported then Pending else Blocked
  }

  /** A delivery starts over at the end of its pause if there is one, and now otherwise. */
  function StartAt(db: Db, r: Row, now: Time): Time {
    match DeferredUntil(db.policy, db.events, r.parent, now)
    case Some(until) => until
    case None => now
  }

  /**
   The owner's retry starts every failed or blocked row of the destination over, in both queues, closes the circuit, and
   touches no other row; for a destination that is not the member's own nothing happens.
   */
  lemma RetryOutcome(db: Db, user: Id, d: Id, now: Time)
    ensures var db' := RetryFailed(db, user, d, now);
            if d in db.dests && db.dests[d].user == user then
              && QueuesOnly(db, db') && db'.health == db.health[d := Health(Healthy, 0, None)]
              && DeliveriesStartOver(db, db'.deliveries, d, now) && DigestsStartOver(db, db'.digests, d, now)
            else db' == db
  {
    if d in db.dests && db.dests[d].user == user {
      RetriedDeliveries(db, user, d, now);
      RetriedDigests(db, user, d, now);
    }
  }

  ghost predicate DeliveriesStartOver(db: Db, t': map<Id, Row>, d: Id, now: Time) {
    && t'.Keys == db.deliveries.Keys
    && forall id | id in db.deliveries ::
         var r := db.deliveries[id];
         if GivenUp(r, d) then StartsOver(db, r, t'[id], StartAt(db, r, now)) else t'[id] == r
  }

  ghost predicate DigestsStartOver(db: Db, t': map<Id, Row>, d: Id, now: Time) {
    && t'.Keys == db.digests.Keys
    && forall id | id in db.digests ::
         var r := db.digests[id];
         if GivenUp(r, d) then StartsOver(db, r, t'[id], now) else t'[id] == r
  }

  lemma RetriedDeliveries(db: Db, user: Id, d: Id, now: Time)
    requires d in db.dests && db.dests[d].user == user
    ensures DeliveriesStartOver(db, RetryFailed(db, user, d, now).deliveries, d, now)
  {
  }

  lemma RetriedDigests(db: Db, user: Id, d: Id, now: Time)
    requires d in db.dests && db.dests[d].user == user
    ensures DigestsStartOver(db, RetryFailed(db, user, d, now).digests, d, now)
  {
  }

  // ---- releasing what a pause of the destination blocked

  /** Nothing blocks the row any more. */
  predicate IsFree(db: Db, r: Row, now: Time) {
    && r.status == Blocked && r.dest in db.dests && db.dests[r.dest].enabled && db.dests[r.dest].supported
    && (r.dest in db.health ==> db.health[r.dest].status != Paused) && !IsWaiting(db, r, now)
  }

  /** Exactly the blocked deliveries that nothing blocks any more become runnable, on the schedule they had. */
  lemma ReleaseOutcome(db: Db, now: Time)
    ensures var db' := ReleaseBlocked(db, now);
            && db' == db.(deliveries := db'.deliveries) && db'.deliveries.Keys == db.deliveries.Keys
            && forall id | id in db.deliveries ::
                 db'.deliveries[id] == if IsFree(db, db.deliveries[id], now)
                                       then db.deliveries[id].(status := Pending, owner := None, expires := None)
                                       else db.deliveries[id]
  {
  }

  // ---- clock skew

  /** Scheduled so far ahead, with nobody sending it, that only a wrong clock can have put it there. */
  predicate IsFarAhead(r: Row, now: Time, horizon: Time) {
    IsOpen(r) && !IsLive(r, now) && r.nextAt > now + (if horizon > 0 then horizon else 24 * HOUR)
  }

  predicate IsDueNow(r: Row, r': Row, now: Time) {
    r' == r.(nextAt := now, owner := None, expires := None)
  }

  /** Every such row of either queue becomes due, unless it is a delivery waiting for the end of a pause. */
  lemma RepairOutcome(db: Db, now: Time, horizon: Time)
    requires RowsInv(db.deliveries) && RowsInv(db.digests)
    ensures var db' := RepairSkewed(db, now, horizon);
            && QueuesOnly(db, db') && db'.health == db.health
            && db'.deliveries.Keys == db.deliveries.Keys && db'.digests.Keys == db.digests.Keys
            && (forall id | id in db.deliveries ::
                  var r := db.deliveries[id];
                  if IsFarAhead(r, now, horizon) && !IsWaiting(db, r, now) then IsDueNow(r, db'.deliveries[id], now)
                  else db'.deliveries[id] == r)
            && (forall id | id in db.digests ::
                  var r := db.digests[id];
                  if IsFarAhead(r, now, horizon) then IsDueNow(r, db'.digests[id], now) else db'.digests[id] == r)
  {
    NotLiveIsUnclaimed(db.deliveries, now);
    NotLiveIsUnclaimed(db.digests, now);
  }

  lemma NotLiveIsUnclaimed(t: map<Id, Row>, now: Time)
    requires RowsInv(t)
    ensures forall id | id in t :: Unclaimed(t[id], now) <==> !IsLive(t[id], now)
  {
    assert forall id | id in t :: RowInv(t[id]);
  }

  // ---- leases that ran out

  /** Leases that ran out are cleared, in both queues; live ones, schedules and everything else stay. */
  lemma RecoverOutcome(db: Db, now: Time)
    requires RowsInv(db.deliveries) && RowsInv(db.digests)
    ensures var db' := RecoverExpired(db, now);
            && QueuesOnly(db, db') && db'.health == db.health
            && Recovered(db.deliveries, db'.deliveries, now) && Recovered(db.digests, db'.digests, now)
  {
    RecoveredTab(db.deliveries, now);
    RecoveredTab(db.digests, now);
  }

  ghost predicate Recovered(t: map<Id, Row>, t': map<Id, Row>, now: Time) {
    && t'.Keys == t.Keys
    && forall id | id in t ::
         t'[id] == if IsLive(t[id], now) then t[id] else t[id].(owner := None, expires := None)
  }

  lemma RecoveredTab(t: map<Id, Row>, now: Time)
    requires RowsInv(t)
    ensures Recovered(t, RecoverTab(t, now), now)
  {
    assert forall id | id in t :: RowInv(t[id]);
  }

  // ---- orphans

  /** The member follows an artist the release lists. */
  predicate FollowsRelease(p: Policy, user: Id, release: Id) {
    release in p.releases && exists f | f in p.follows :: f.0 == user && IsListed(p.releases[release], f.1)
  }

  lemma FollowedIff(p: Policy, user: Id, release: Id)
    ensures IsFollowed(p, user, release) <==> FollowsRelease(p, user, release)
  {
    if release in p.releases {
      forall a
        ensures Associated(p.releases[release], a) <==> IsListed(p.releases[release], a)
      {
        ListedIsAssociated(p.releases[release], a);
      }
    }
  }

  /** An open delivery nobody is sending, of a catalogued release its member no longer follows. */
  predicate IsOrphan(p: Policy, events: map<Id, Event>, r: Row, now: Time) {
    && IsOpen(r) && !IsLive(r, now) && r.parent in events && events[r.parent].release in p.releases
    && !FollowsRelease(p, events[r.parent].user, events[r.parent].release)
  }

  lemma OrphanIff(db: Db, r: Row, now: Time)
    requires RowInv(r)
    ensures Orphaned(db, r, now) <==> IsOrphan(db.policy, db.events, r, now)
  {
    if r.parent in db.events {
      FollowedIff(db.policy, db.events[r.parent].user, db.events[r.parent].release);
    }
  }

  /** Cancellation takes exactly the orphans away. */
  lemma CancelOutcome(db: Db, now: Time)
    requires RowsInv(db.deliveries)
    ensures var db' := CancelOrphaned(db, now);
            && db' == db.(deliveries := db'.deliveries)
            && (forall id | id in db.deliveries ::
                  id in db'.deliveries <==> !IsOrphan(db.policy, db.events, db.deliveries[id], now))
            && (forall id | id in db'.deliveries :: id in db.deliveries && db'.deliveries[id] == db.deliveries[id])
  {
    forall id | id in db.deliveries
      ensures Orphaned(db, db.deliveries[id], now) <==> IsOrphan(db.policy, db.events, db.deliveries[id], now)
    {
      assert RowInv(db.deliveries[id]);
      OrphanIff(db, db.deliveries[id], now);
    }
  }

  /** The event is this member's, of a release that lists the artist. */
  predicate Concerns(p: Policy, events: map<Id, Event>, r: Row, user: Id, artist: Id) {
    && r.parent in events && events[r.parent].user == user && events[r.parent].release in p.releases
    && IsListed(p.releases[events[r.parent].release], artist)
  }

  lemma AbandonedIff(db: Db, r: Row, user: Id, artist: Id, now: Time)
    requires RowInv(r)
    ensures Abandoned(db, r, user, artist, now)
       <==> IsOrphan(db.policy, db.events, r, now) && Concerns(db.policy, db.events, r, user, artist)
  {
    OrphanIff(db, r, now);
    if r.parent in db.events && db.events[r.parent].release in db.policy.releases {
      ListedIsAssociated(db.policy.releases[db.events[r.parent].release], artist);
      assert artist in {artist};
    }
  }

  /** An unfollow takes away exactly the member's deliveries that it orphans, among those of the artist's releases. */
  lemma UnfollowDeletes(db: Db, user: Id, artist: Id, now: Time, id: Id)
    requires RowsInv(db.deliveries) && (user, artist) in db.policy.follows && id in db.deliveries
    ensures var db' := Unfollow(db, user, artist, now);
            id in db'.deliveries <==> !(IsOrphan(db'.policy, db.events, db.deliveries[id], now)
                                        && Concerns(db'.policy, db.events, db.deliveries[id], user, artist))
  {
    var db1 := db.(policy := WithoutFollow(db.policy, user, artist));
    assert RowInv(db.deliveries[id]);
    AbandonedIff(db1, db.deliveries[id], user, artist, now);
    var db' := Unfollow(db, user, artist, now);
    assert db'.policy == db1.policy && db'.deliveries.Keys == Abandon(db1, user, artist, now).deliveries.Keys;
  }
}
