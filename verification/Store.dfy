/** The notification store: every method is one write transaction, and does what its specification says. */
module NotificationStore {
  import opened Prelude
  import opened Tables
  import opened Governing
  import opened GoverningQueries
  import T = Transactions
  import opened Batching
  import opened Allocation
  import Ranking
  import ClaimSelection

  /** `NotFound` stands for the missing-row error, `Refused` for a rejected request. */
  datatype Outcome = Done | NotFound | Refused

  class Store {
    var db: Db

    constructor (db: Db)
      ensures this.db == db
    {
      this.db := db;
    }

    // ---- updates in chunks and buckets

    method UpdateInChunks(ids: seq<Id>, f: Row -> Row)
      requires Distinct(ids)
      modifies this
      ensures db == old(db).(deliveries := Update(old(db).deliveries, ids, f))
    {
      ghost var t := db.deliveries;
      assert t == Update(t, ids[..0], f);
      var start := 0;
      while start < |ids|
        invariant 0 <= start
        invariant db == old(db).(deliveries := Update(t, ids[..Min(start, |ids|)], f))
      {
        var end := if start + BATCH > |ids| then |ids| else start + BATCH;
        UpdateMore(t, ids, start, end, f);
        db := db.(deliveries := Update(db.deliveries, ids[start..end], f));
        start := start + BATCH;
      }
      assert ids[..|ids|] == ids;
    }

    /** The buckets are visited in whatever order the map yields them. */
    method ApplyBuckets(buckets: map<Time, seq<Id>>, ghost plan: map<Id, Time>, f: (Row, Time) -> Row)
      requires Files(buckets, plan)
      modifies this
      ensures db == old(db).(deliveries := Planned(old(db).deliveries, plan, f))
    {
      ghost var t := db.deliveries;
      var keys := Ranking.Elements(buckets.Keys);
      for k := 0 to |keys|
        invariant db == old(db).(deliveries := db.deliveries)
        invariant PartlyPlanned(t, db.deliveries, plan, f, keys[..k])
      {
        var at := keys[k];
        assert at in buckets;
        BucketCarriedOut(t, db.deliveries, buckets, plan, f, keys, k);
        UpdateInChunks(buckets[at], r => f(r, at));
      }
      assert keys[..|keys|] == keys;
      FullyPlanned(t, db.deliveries, buckets, plan, f, keys);
    }

    // ---- realignment

    method RealignQueuedDeliveries(user: Id, artists: seq<Id>, now: Time)
      modifies this
      ensures db == T.Realign(old(db), user, T.Positive(artists), now)
    {
      if user < 1 {
        return;
      }
      var candidates := QueuedFor(db, user, artists);
      var governing := GoverningFollows(db.policy, db.events, EventIds(db.deliveries, candidates));
      var buckets, plan := FileTargets(db, candidates, governing, now);
      PlanRealigns(db, user, artists, now, candidates, plan);
      ApplyBuckets(buckets, plan, (r: Row, at) => r.(nextAt := at));
    }

    /** A follow gets the default rule unless one exists already. */
    method Follow(user: Id, artist: Id, now: Time) returns (created: bool)
      modifies this
      ensures db == T.Follow(old(db), user, artist, now)
      ensures created == ((user, artist) !in old(db).policy.follows)
    {
      created := FollowOnly(user, artist);
      RealignQueuedDeliveries(user, [artist], now);
    }

    /** The follow that comes with an accepted resolution or an imported row; the queue is left as it is. */
    method FollowOnly(user: Id, artist: Id) returns (created: bool)
      modifies this
      ensures db == T.FollowOnly(old(db), user, artist)
      ensures created == ((user, artist) !in old(db).policy.follows)
    {
      created := (user, artist) !in db.policy.follows;
      ghost var policy := T.WithFollow(db.policy, user, artist);
      db := db.(policy := db.policy.(follows := db.policy.follows + {(user, artist)}));
      if (user, artist) !in db.policy.rules {
        db := db.(policy := db.policy.(rules := db.policy.rules[(user, artist) := DEFAULT_RULE]));
      }
      assert db.policy == policy;
    }

    method Unfollow(user: Id, artist: Id, now: Time) returns (r: Outcome)
      modifies this
      ensures db == T.Unfollow(old(db), user, artist, now)
      ensures r == if (user, artist) in old(db).policy.follows then Done else NotFound
    {
      if (user, artist) !in db.policy.follows {
        return NotFound;
      }
      ghost var db1 := db.(policy := T.WithoutFollow(db.policy, user, artist));
      db := db.(policy := db.policy.(follows := db.policy.follows - {(user, artist)}));
      db := db.(policy := db.policy.(rules := db.policy.rules - {(user, artist)}));
      assert db == db1;
      db := db.(deliveries := map id | id in db.deliveries
        && !T.Abandoned(db, db.deliveries[id], user, artist, now) :: db.deliveries[id]);
      assert db == T.Abandon(db1, user, artist, now);
      RealignQueuedDeliveries(user, [artist], now);
      r := Done;
    }

    method UpdateFollowNotificationRules(user: Id, artists: seq<Id>, rule: Rule, now: Time) returns (r: Outcome)
      modifies this
      ensures db == T.UpdateRules(old(db), user, artists, rule, now)
      ensures r.Done? <==> user >= 1 && T.FollowsAll(old(db).policy, user, T.Positive(artists))
      ensures r.Refused? <==> user < 1 || forall a | a in artists :: a < 1
    {
      if user < 1 {
        return Refused;
      }
      var ids := Requested(artists);
      if ids == [] {
        return Refused;
      }
      assert ids[0] in artists && ids[0] >= 1 && ids[0] in T.Positive(artists);
      if exists a | a in ids :: (user, a) !in db.policy.follows {
        return NotFound;
      }
      UpsertRules(user, ids, rule);
      RealignQueuedDeliveries(user, ids, now);
      r := Done;
    }

    method UpsertRules(user: Id, ids: seq<Id>, rule: Rule)
      requires forall a | a in ids :: a >= 1
      modifies this
      ensures db == old(db).(policy := T.WithRules(old(db).policy, user, T.Positive(ids), rule))
    {
      ghost var policy := db.policy;
      for k := 0 to |ids|
        invariant db == old(db).(policy := T.WithRules(policy, user, T.Positive(ids[..k]), rule))
      {
        var a := ids[k];
        assert a in ids;
        PositiveOneMore(ids, k);
        WithRulesOneMore(policy, user, T.Positive(ids[..k]), a, rule);
        db := db.(policy := db.policy.(rules := db.policy.rules[(user, a) := rule]));
      }
      assert ids[..|ids|] == ids;
    }

    method SetFollowNotificationDeliveryMode(user: Id, artists: seq<Id>, mode: Mode, now: Time) returns (r: Outcome)
      modifies this
      ensures db == T.SetMode(old(db), user, artists, mode, now)
      ensures r.Done? <==> T.FollowsAll(old(db).policy, user, T.Positive(artists))
      ensures r.Refused? <==> forall a | a in artists :: a < 1
    {
      var ids := Requested(artists);
      if ids == [] {
        return Refused;
      }
      assert ids[0] in artists && ids[0] >= 1 && ids[0] in T.Positive(artists);
      if exists a | a in ids :: (user, a) !in db.policy.follows {
        return NotFound;
      }
      UpdateModes(user, ids, mode);
      RealignQueuedDeliveries(user, ids, now);
      r := Done;
    }

    method UpdateModes(user: Id, ids: seq<Id>, mode: Mode)
      requires forall a | a in ids :: a >= 1
      modifies this
      ensures db == old(db).(policy := T.WithModes(old(db).policy, user, T.Positive(ids), mode))
    {
      ghost var policy := T.WithModes(db.policy, user, T.Positive(ids), mode);
      db := db.(policy := db.policy.(rules := map k | k in db.policy.rules ::
        if k.0 == user && k.1 in ids then db.policy.rules[k].(mode := mode) else db.policy.rules[k]));
      assert db.policy.rules == policy.rules;
    }

    method PauseFollowNotificationRule(user: Id, artist: Id, until: Option<Time>, now: Time) returns (r: Outcome)
      modifies this
      ensures db == T.PauseFollow(old(db), user, artist, until, now)
      ensures r == if artist >= 1 && (user, artist) in old(db).policy.follows then Done else NotFound
    {
      if artist < 1 || (user, artist) !in db.policy.follows {
        return NotFound;
      }
      var rule := RuleOf(db.policy, user, artist).(pausedUntil := until);
      ghost var policy := T.WithRules(db.policy, user, {artist}, rule);
      db := db.(policy := db.policy.(rules := db.policy.rules[(user, artist) := rule]));
      assert db.policy == policy;
      RealignQueuedDeliveries(user, [artist], now);
      r := Done;
    }

    // ---- destination recovery

    method RetryFailedDeliveries(user: Id, dest: Id, now: Time) returns (r: Outcome)
      modifies this
      ensures db == T.RetryFailed(old(db), user, dest, now)
      ensures r.Done? <==> dest in old(db).dests && old(db).dests[dest].user == user
    {
      if dest !in db.dests || db.dests[dest].user != user {
        return NotFound;
      }
      RequeueDeliveries(dest, now);
      RequeueDigests(dest, now);
      RetryParts(old(db), user, dest, now);
      db := db.(health := db.health[dest := Health(Healthy, 0, None)]);
      r := Done;
    }

    method RequeueDigests(dest: Id, now: Time)
      modifies this
      ensures db == old(db).(digests := RequeuedDigests(old(db).digests, old(db).dests, dest, now))
    {
      db := db.(digests := RequeuedDigests(db.digests, db.dests, dest, now));
    }

    method RequeueDeliveries(dest: Id, now: Time)
      requires dest in db.dests
      modifies this
      ensures db == old(db).(deliveries := T.RetryFailed(old(db), old(db).dests[dest].user, dest, now).deliveries)
    {
      var before := db;
      var candidates := Ranking.Elements(set id | id in db.deliveries && T.Retryable(db.deliveries[id], dest));
      var governing := GoverningFollows(db.policy, db.events, EventIds(db.deliveries, candidates));
      var requeue, buckets, plan := SplitDeferred(db, candidates, governing, now);
      RetryCarriedOut(before, dest, now, candidates, requeue, plan);
      UpdateInChunks(requeue, row => T.RetriedRow(before, row, now));
      ApplyBuckets(buckets, plan, (row, at) => T.RetriedRow(before, row, at));
    }

    method ReleasePauseBlockedDeliveries(now: Time)
      modifies this
      ensures db == T.ReleaseBlocked(old(db), now)
    {
      var candidates := Ranking.Elements(set id | id in db.deliveries && Unblockable(db, db.deliveries[id]));
      var governing := GoverningFollows(db.policy, db.events, EventIds(db.deliveries, candidates));
      var releasable := Undeferred(db, candidates, governing, now);
      ReleaseCarriedOut(db, now, candidates, releasable);
      UpdateInChunks(releasable, Runnable);
    }

    method RepairClockSkewedDeliveries(now: Time, horizon: Time)
      modifies this
      ensures db == T.RepairSkewed(old(db), now, horizon)
    {
      var cutoff := T.Cutoff(now, horizon);
      var candidates := Ranking.Elements(set id | id in db.deliveries && T.Parked(db.deliveries[id], now, cutoff));
      var governing := GoverningFollows(db.policy, db.events, EventIds(db.deliveries, candidates));
      var skewed := Undeferred(db, candidates, governing, now);
      RepairCarriedOut(db, now, horizon, candidates, skewed);
      UpdateInChunks(skewed, row => Unlease(row).(nextAt := now));
      db := db.(digests := map id | id in db.digests ::
        var row := db.digests[id];
        if T.Parked(row, now, cutoff) then Unlease(row).(nextAt := now) else row);
    }

    // ---- claims and what workers record

    /** Leases the selected rows one by one; each update tests again that the row is free. */
    method ClaimDue(q: Queue, now: Time, limit: int, owner: string, lease: Time) returns (claimed: set<Id>)
      modifies this
      ensures limit < 1 ==> db == old(db) && claimed == {}
      ensures limit >= 1 ==> claimed == T.Claimable(old(db), q, now, limit)
      ensures limit >= 1 ==> db == T.Lease(old(db), q, claimed, T.OwnerName(owner), T.LeaseEnd(now, lease))
    {
      if limit < 1 {
        return {};
      }
      claimed := T.Claimable(db, q, now, limit);
      var ids := Ranking.Elements(claimed);
      ClaimSelection.ClaimsDue(db, q, now, limit);
      LeaseEach(q, ids, T.OwnerName(owner), T.LeaseEnd(now, lease), now);
      LeasedAll(old(db), db, q, ids, claimed, T.OwnerName(owner), T.LeaseEnd(now, lease));
    }

    method LeaseEach(q: Queue, ids: seq<Id>, name: string, expires: Time, now: Time)
      requires Distinct(ids) && forall id | id in ids :: T.Due(db, q, now, id)
      modifies this
      ensures db == WithTab(old(db), q, Tab(db, q))
      ensures LeasedSoFar(Tab(old(db), q), Tab(db, q), ids, name, expires)
    {
      ghost var t := Tab(db, q);
      forall i | 0 <= i < |ids|
        ensures FreeRow(t, ids[i], now)
      {
        var id := ids[i];
        assert id in ids && T.Due(db, q, now, id);
      }
      for k := 0 to |ids|
        invariant db == WithTab(old(db), q, Tab(db, q))
        invariant LeasedSoFar(t, Tab(db, q), ids[..k], name, expires)
      {
        var id := ids[k];
        assert FreeRow(t, ids[k], now) && id !in ids[..k];
        assert ids[..k + 1] == ids[..k] + [id];
        if FreeRow(Tab(db, q), id, now) {
          db := WithTab(db, q, Tab(db, q)[id := T.Leased(Tab(db, q)[id], name, expires)]);
        }
      }
      assert ids[..|ids|] == ids;
    }

    method MarkSentOwned(q: Queue, id: Id, owner: string) returns (r: Outcome)
      modifies this
      ensures db == T.MarkSent(old(db), q, id, owner)
      ensures r.NotFound? <==> !Blank(owner) && !T.Hits(Tab(old(db), q), id, owner)
    {
      if !T.Hits(Tab(db, q), id, owner) {
        return if Blank(owner) then Done else NotFound;
      }
      Complete(q, id);
      r := Done;
    }

    method FinalizeSent(q: Queue, id: Id) returns (r: Outcome)
      modifies this
      ensures db == T.FinalizeSent(old(db), q, id)
      ensures r.NotFound? <==> id !in Tab(old(db), q)
    {
      if T.Finalizable(Tab(db, q), id) {
        Complete(q, id);
        return Done;
      }
      r := if id in Tab(db, q) then Done else NotFound;
    }

    /** The row's own update, and for digests the update of its run. */
    method Complete(q: Queue, id: Id)
      requires id in Tab(db, q)
      modifies this
      ensures db == T.CompleteRow(old(db), q, id)
    {
      var row := Tab(db, q)[id];
      db := WithTab(db, q, Tab(db, q)[id :=
        row.(status := Sent, attempts := row.attempts + 1, owner := None, expires := None)]);
      if q.Digests? && row.parent in db.runs && !T.HasOpen(db.digests, row.parent) {
        var status := if T.HasFailed(db.digests, row.parent) then RunFailed else RunSent;
        db := db.(runs := db.runs[row.parent := db.runs[row.parent].(status := status)]);
      }
    }

    method MarkFailedOwned(q: Queue, id: Id, attempts: nat, owner: string, now: Time) returns (r: Outcome)
      modifies this
      ensures db == T.MarkFailed(old(db), q, id, attempts, owner, now)
      ensures r.NotFound? <==> !Blank(owner) && !T.Hits(Tab(old(db), q), id, owner)
    {
      if !T.Hits(Tab(db, q), id, owner) {
        return if Blank(owner) then Done else NotFound;
      }
      var schedule := T.RetrySchedule(attempts, now);
      var row := Tab(db, q)[id];
      db := WithTab(db, q, Tab(db, q)[id :=
        row.(status := schedule.status, attempts := attempts, nextAt := schedule.next, owner := None, expires := None)]);
      if q.Digests? && schedule.status.Failed? && row.parent in db.runs && !T.HasOpen(db.digests, row.parent) {
        db := db.(runs := db.runs[row.parent := db.runs[row.parent].(status := RunFailed)]);
      }
      r := Done;
    }

    method MarkRateLimitedOwned(q: Queue, id: Id, owner: string, next: Time) returns (r: Outcome)
      modifies this
      ensures db == T.MarkRateLimited(old(db), q, id, owner, next)
      ensures r.NotFound? <==> !Blank(owner) && !T.Hits(Tab(old(db), q), id, owner)
    {
      if !T.Hits(Tab(db, q), id, owner) {
        return if Blank(owner) then Done else NotFound;
      }
      var row := Tab(db, q)[id];
      db := WithTab(db, q, Tab(db, q)[id := row.(status := Pending, nextAt := next, owner := None, expires := None)]);
      r := Done;
    }

    /** Health first; the failure that pauses the destination then takes its pending work off both queues. */
    method FinishDeliveryAttempt(dest: Id, v: T.Verdict, next: Option<Time>)
      modifies this
      ensures db == T.FinishAttempt(old(db), dest, v, next)
    {
      if v.RateLimited? {
        if dest in db.health {
          var h := db.health[dest];
          var status := if h.status.Paused? then Paused else Degraded;
          db := db.(health := db.health[dest := h.(status := status, nextRetry := next)]);
        } else {
          db := db.(health := db.health[dest := Health(Degraded, 0, next)]);
        }
      } else if v.Accepted? {
        if dest !in db.health || !db.health[dest].status.Paused? {
          db := db.(health := db.health[dest := Health(Healthy, 0, None)]);
        } else {
          db := db.(health := db.health[dest := db.health[dest]]);
        }
      } else {
        var failures := if dest in db.health then db.health[dest].failures + 1 else 1;
        db := db.(health := db.health[dest := Health(if failures >= T.TRIP then Paused else Degraded, failures, next)]);
        if db.health[dest].status.Paused? {
          BlockPending(dest);
        }
      }
    }

    method BlockPending(dest: Id)
      modifies this
      ensures db == old(db).(
        deliveries := T.BlockAll(old(db).deliveries, dest), digests := T.BlockAll(old(db).digests, dest))
    {
      db := db.(deliveries := T.BlockAll(db.deliveries, dest));
      db := db.(digests := T.BlockAll(db.digests, dest));
    }

    // ---- admission

    /** Admits one release moment for a member; the database picks the ids of the new rows. */
    method EnqueueEvent(user: Id, release: Id, moment: Moment, now: Time, bypass: bool)
      returns (admitted: bool, ghost a: T.Admission)
      modifies this
      ensures T.Fits(old(db), a) && a.user == user && a.release == release && a.moment == moment
      ensures a.now == now && a.bypass == bypass
      ensures T.Enqueue(old(db), a) == T.Admitted(db, admitted)
      ensures Frame(old(db), db)
    {
      var ids := NewAdmission(db, user, release, moment, now, bypass);
      a := ids;
      var event := Event(user, release, moment, now);
      CandidatesAreListing(db.policy, event);
      var governor := GoverningFollow(db.policy, event, CandidatesFor(db.policy, event));
      if governor.None? {
        return false, a;
      }
      var rule := governor.value.rule;
      if T.TakesGate(db, ids, rule) {
        var held := HoldConflicting(ids);
        return !held, a;
      }
      var queue, deliverAt := QueuesImmediate(rule, now), now;
      if ResumesAt(rule, now).Some? {
        queue, deliverAt := true, ResumesAt(rule, now).value;
      }
      InsertEvent(ids, queue, deliverAt);
      admitted := !EffectiveMode(rule, now).Off? || ResumesAt(rule, now).Some?;
    }

    method InsertEvent(a: T.Admission, queue: bool, deliverAt: Time)
      requires a.holdId !in db.holds
      modifies this
      ensures db == T.InsertEvent(old(db), a, queue, deliverAt)
      ensures Frame(old(db), db)
    {
      if a.eid !in db.events {
        db := db.(events := db.events[a.eid := Event(a.user, a.release, a.moment, a.now)]);
      }
      if queue {
        db := db.(deliveries := T.FanOut(db, db.deliveries, a.eid, a.rows, deliverAt));
      }
    }

    method HoldConflicting(a: T.Admission) returns (held: bool)
      requires a.holdId !in db.holds
      modifies this
      ensures T.HoldConflicting(old(db), a) == T.Gated(db, held)
      ensures Frame(old(db), db)
    {
      if T.EventExists(db, a.user, a.release, a.moment) {
        return false;
      }
      if T.HoldExists(db, a.user, a.release, a.moment, Discarded) {
        return true;
      }
      if Blank(T.Join(T.IssuesOf(db, a.release))) {
        InsertEvent(a, true, a.now);
        return false;
      }
      if !T.HoldExists(db, a.user, a.release, a.moment, Held) {
        db := db.(holds := db.holds[a.holdId := Hold(a.user, a.release, a.moment, Held)]);
      }
      held := true;
    }

    /**
     Re-admits the held events of a release that their members still follow; `user` 0 stands for every member.
     Only admitted events release their hold.
     */
    method DrainHolds(user: Id, release: Id, now: Time, bypass: bool) returns (ghost log: seq<(Id, T.Admission)>)
      modifies this
      ensures db == DrainAll(old(db), log)
      ensures forall h :: InLog(log, h)
                <==> IsHeldFor(old(db), h, user, release) && (bypass || T.IssuesOf(old(db), release) == [])
      ensures forall i, j | 0 <= i < j < |log| :: log[i].0 < log[j].0
    {
      log := [];
      if !bypass && T.IssuesOf(db, release) != [] {
        return;
      }
      var holds := Ranking.Sorted(set h | h in db.holds && IsHeldFor(db, h, user, release), (g, h) => g < h);
      forall j | 0 <= j < |holds|
        ensures IsHeldFor(db, holds[j], user, release)
      {
        var h := holds[j];
        assert h in holds;
      }
      for k := 0 to |holds|
        invariant db == DrainAll(old(db), log)
        invariant T.IssuesOf(db, release) == T.IssuesOf(old(db), release)
        invariant forall j | k <= j < |holds| :: IsHeldFor(db, holds[j], user, release)
        invariant |log| == k && forall j | 0 <= j < k :: log[j].0 == holds[j]
      {
        ghost var a := DrainOne(holds[k], user, release, now, bypass);
        assert (log + [(holds[k], a)])[..|log|] == log;
        log := log + [(holds[k], a)];
      }
      LogListsHolds(log, holds);
    }

    method DrainOne(h: Id, ghost user: Id, release: Id, now: Time, bypass: bool) returns (ghost a: T.Admission)
      requires IsHeldFor(db, h, user, release) && (bypass || T.IssuesOf(db, release) == [])
      modifies this
      ensures db == T.DrainHold(old(db), h, a)
      ensures T.IssuesOf(db, release) == T.IssuesOf(old(db), release)
      ensures forall g | g != h && IsHeldFor(old(db), g, user, release) :: IsHeldFor(db, g, user, release)
    {
      var hold := db.holds[h];
      var admitted, admission := EnqueueEvent(hold.user, hold.release, hold.moment, now, bypass);
      a := admission;
      DrainIsReAdmission(old(db), h, a, db, admitted);
      FrameKeepsHeld(old(db), db, h, user, release);
      if admitted {
        Settle(h, Released);
      }
    }

    /** Restores a discarded hold and drains the member's holds of the release, in one transaction. */
    method RestoreHold(user: Id, h: Id, now: Time) returns (r: Outcome, ghost log: seq<(Id, T.Admission)>)
      modifies this
      ensures r == if Restorable(old(db), user, h) then Done else NotFound
      ensures r.NotFound? ==> db == old(db)
      ensures r.Done? ==> db == DrainAll(T.RestoreHold(old(db), user, h), log)
      ensures r.Done? && T.IssuesOf(old(db), old(db).holds[h].release) == [] ==> InLog(log, h)
    {
      log := [];
      if !Restorable(db, user, h) {
        return NotFound, log;
      }
      var release := db.holds[h].release;
      db := db.(holds := db.holds[h := db.holds[h].(status := Held)]);
      RestoredIsHeld(old(db), db, user, h);
      log := DrainHolds(user, release, now, false);
      r := Done;
    }

    method Settle(h: Id, status: HoldStatus)
      requires h in db.holds
      modifies this
      ensures db == T.SettleHold(old(db), h, status)
    {
      if db.holds[h].status.Held? {
        db := db.(holds := db.holds[h := db.holds[h].(status := status)]);
      }
    }

    // ---- digests

    /** Creates or completes the run of a period; `found` is the run the period lookup returned. */
    method QueueDigest(user: Id, found: Option<Id>, now: Time) returns (ghost plan: T.DigestPlan)
      requires found.Some? ==> found.value in db.runs && db.runs[found.value].user == user
      modifies this
      ensures T.FitsDigest(old(db), plan) && plan.user == user && plan.found == found && plan.now == now
      ensures db == T.QueueDigest(old(db), plan)
    {
      var ids := NewDigestPlan(db, user, found, now);
      plan := ids;
      var run;
      if found.None? {
        run := ids.runId;
        db := db.(runs := db.runs[run := Run(user, now, RunPending)]);
      } else {
        run := found.value;
        if !db.runs[run].status.RunPending? || T.HasRows(db.digests, run) {
          return;
        }
      }
      db := db.(digests := T.FanOut(db, db.digests, run, ids.rows, now));
    }
  }

  /** An admission leaves rules, evidence and the existing holds alone. */
  ghost predicate Frame(db: Db, db': Db) {
    && db'.policy == db.policy && db'.issues == db.issues
    && forall h | h in db.holds :: h in db'.holds && db'.holds[h] == db.holds[h]
  }

  function DrainAll(db: Db, log: seq<(Id, T.Admission)>): Db {
    if log == [] then db
    else
      var last := log[|log| - 1];
      T.DrainHold(DrainAll(db, log[..|log| - 1]), last.0, last.1)
  }

  ghost predicate InLog(log: seq<(Id, T.Admission)>, h: Id) {
    exists j | 0 <= j < |log| :: log[j].0 == h
  }

  lemma LogListsHolds(log: seq<(Id, T.Admission)>, holds: seq<Id>)
    requires |log| == |holds| && forall j | 0 <= j < |log| :: log[j].0 == holds[j]
    ensures forall h :: InLog(log, h) <==> h in holds
  {
    forall h: Id
      ensures InLog(log, h) <==> h in holds
    {
      if InLog(log, h) {
        var j :| 0 <= j < |log| && log[j].0 == h;
        assert holds[j] == h;
      }
      if h in holds {
        var j :| 0 <= j < |holds| && holds[j] == h;
        assert log[j].0 == h;
      }
    }
  }

  predicate Restorable(db: Db, user: Id, h: Id) {
    T.Reviewable(db, h, Discarded) && db.holds[h].user == user
  }

  lemma RestoredIsHeld(db: Db, db': Db, user: Id, h: Id)
    requires Restorable(db, user, h) && db' == db.(holds := db.holds[h := db.holds[h].(status := Held)])
    ensures db' == T.RestoreHold(db, user, h) && IsHeldFor(db', h, user, db.holds[h].release)
    ensures T.IssuesOf(db', db.holds[h].release) == T.IssuesOf(db, db.holds[h].release)
  {
  }

  lemma FrameKeepsHeld(db: Db, db1: Db, h: Id, user: Id, release: Id)
    requires Frame(db, db1)
    ensures T.IssuesOf(db1, release) == T.IssuesOf(db, release)
    ensures T.IssuesOf(T.SettleHold(db1, h, Released), release) == T.IssuesOf(db, release)
    ensures forall g | IsHeldFor(db, g, user, release) :: IsHeldFor(db1, g, user, release)
    ensures forall g | g != h && IsHeldFor(db, g, user, release) ::
              IsHeldFor(T.SettleHold(db1, h, Released), g, user, release)
  {
  }

  lemma DrainIsReAdmission(db: Db, h: Id, a: T.Admission, db1: Db, admitted: bool)
    requires T.Drains(db, h, a) && T.Enqueue(db, a) == T.Admitted(db1, admitted)
    ensures T.DrainHold(db, h, a) == if admitted then T.SettleHold(db1, h, Released) else db1
  {
  }

  predicate IsHeldFor(db: Db, h: Id, user: Id, release: Id) {
    T.Reviewable(db, h, Held) && db.holds[h].release == release && (user > 0 ==> db.holds[h].user == user)
  }

  predicate FreeRow(t: map<Id, Row>, id: Id, now: Time) {
    id in t && t[id].status.Pending? && (t[id].expires.None? || t[id].expires.value <= now)
  }

  ghost predicate LeasedSoFar(t: map<Id, Row>, t': map<Id, Row>, ids: seq<Id>, name: string, expires: Time) {
    t'.Keys == t.Keys
    && forall id | id in t :: t'[id] == if id in ids then T.Leased(t[id], name, expires) else t[id]
  }

  lemma LeasedAll(db: Db, db': Db, q: Queue, ids: seq<Id>, claimed: set<Id>, name: string, expires: Time)
    requires LeasedSoFar(Tab(db, q), Tab(db', q), ids, name, expires) && db' == WithTab(db, q, Tab(db', q))
    requires forall id :: id in ids <==> id in claimed
    ensures db' == T.Lease(db, q, claimed, name, expires)
  {
    var t' := T.LeaseAll(Tab(db, q), claimed, name, expires);
    forall id | id in Tab(db, q)
      ensures Tab(db', q)[id] == t'[id]
    {
    }
    assert Tab(db', q) == t';
  }

  /** One statement over the digest rows of the destination. */
  function RequeuedDigests(t: map<Id, Row>, dests: map<Id, Destination>, dest: Id, now: Time): map<Id, Row> {
    map id | id in t ::
      if T.Retryable(t[id], dest)
      then t[id].(status := if t[id].dest in dests && dests[t[id].dest].supported then Pending else Blocked,
                  attempts := 0, nextAt := now, owner := None, expires := None)
      else t[id]
  }

  lemma RetryParts(db: Db, user: Id, dest: Id, now: Time)
    requires dest in db.dests && db.dests[dest].user == user
    ensures var db' := T.RetryFailed(db, user, dest, now);
            && db' == db.(deliveries := db'.deliveries, digests := db'.digests, health := db'.health)
            && db'.health == db.health[dest := Health(Healthy, 0, None)]
            && db'.digests == RequeuedDigests(db.digests, db.dests, dest, now)
  {
    var t := T.RetryFailed(db, user, dest, now).digests;
    forall id | id in db.digests
      ensures t[id] == RequeuedDigests(db.digests, db.dests, dest, now)[id]
    {
    }
  }

  function Runnable(r: Row): Row {
    if r.status.Blocked? then Unlease(r).(status := Pending) else r
  }

  /** What the release pass asks of a row before it looks at pauses. */
  predicate Unblockable(db: Db, r: Row) {
    r.status.Blocked? && r.dest in db.dests && db.dests[r.dest].enabled && db.dests[r.dest].supported
    && !IsPaused(db, r.dest)
  }

  lemma RetryCarriedOut(
      db: Db, dest: Id, now: Time, candidates: seq<Id>, requeue: seq<Id>, plan: map<Id, Time>)
    requires forall id :: id in candidates <==> id in db.deliveries && T.Retryable(db.deliveries[id], dest)
    requires IsPlan(DeferralOf(db, now), candidates, plan) && IsRest(DeferralOf(db, now), candidates, requeue)
    requires dest in db.dests
    ensures Planned(Update(db.deliveries, requeue, row => T.RetriedRow(db, row, now)), plan,
              (row, at) => T.RetriedRow(db, row, at))
         == T.RetryFailed(db, db.dests[dest].user, dest, now).deliveries
  {
    var t := Planned(Update(db.deliveries, requeue, row => T.RetriedRow(db, row, now)), plan,
      (row, at) => T.RetriedRow(db, row, at));
    var t' := T.RetryFailed(db, db.dests[dest].user, dest, now).deliveries;
    forall id | id in db.deliveries
      ensures t[id] == t'[id]
    {
      var deferral := DeferralOf(db, now)(id);
      assert id in requeue <==> id in candidates && deferral.None?;
    }
    assert t == t';
  }

  lemma ReleaseCarriedOut(db: Db, now: Time, candidates: seq<Id>, releasable: seq<Id>)
    requires forall id :: id in candidates <==> id in db.deliveries && Unblockable(db, db.deliveries[id])
    requires IsRest(DeferralOf(db, now), candidates, releasable)
    ensures Update(db.deliveries, releasable, Runnable)
         == T.ReleaseBlocked(db, now).deliveries
  {
    var t := Update(db.deliveries, releasable, Runnable);
    var t' := T.ReleaseBlocked(db, now).deliveries;
    forall id | id in db.deliveries
      ensures t[id] == t'[id]
    {
      var deferral := DeferralOf(db, now)(id);
      assert id in releasable <==> id in candidates && deferral.None?;
    }
    assert t == t';
  }

  lemma RepairCarriedOut(db: Db, now: Time, horizon: Time, candidates: seq<Id>, skewed: seq<Id>)
    requires forall id ::
      id in candidates <==> id in db.deliveries && T.Parked(db.deliveries[id], now, T.Cutoff(now, horizon))
    requires IsRest(DeferralOf(db, now), candidates, skewed)
    ensures Update(db.deliveries, skewed, row => Unlease(row).(nextAt := now))
         == T.RepairSkewed(db, now, horizon).deliveries
  {
    var t := Update(db.deliveries, skewed, row => Unlease(row).(nextAt := now));
    var t' := T.RepairSkewed(db, now, horizon).deliveries;
    forall id | id in db.deliveries
      ensures t[id] == t'[id]
    {
      var deferral := DeferralOf(db, now)(id);
      assert id in skewed <==> id in candidates && deferral.None?;
    }
    assert t == t';
  }

  lemma PositiveOneMore(artists: seq<Id>, k: nat)
    requires k < |artists|
    ensures T.Positive(artists[..k + 1]) == T.Positive(artists[..k]) + if artists[k] >= 1 then {artists[k]} else {}
  {
    assert artists[..k + 1] == artists[..k] + [artists[k]];
  }

  lemma WithRulesOneMore(p: Policy, user: Id, artists: set<Id>, a: Id, rule: Rule)
    ensures T.WithRules(p, user, artists + {a}, rule).rules
         == T.WithRules(p, user, artists, rule).rules[(user, a) := rule]
  {
  }

  /** The requested artists, each once, without impossible ids. */
  method Requested(artists: seq<Id>) returns (ids: seq<Id>)
    ensures Distinct(ids) && T.Positive(ids) == T.Positive(artists)
    ensures forall a | a in ids :: a in artists && a >= 1
    ensures ids == [] ==> forall a | a in artists :: a < 1
  {
    ids := [];
    for k := 0 to |artists|
      invariant Distinct(ids) && T.Positive(ids) == T.Positive(artists[..k])
      invariant forall a | a in ids :: a in artists[..k] && a >= 1
      invariant ids == [] ==> forall a | a in artists[..k] :: a < 1
    {
      var a := artists[k];
      assert artists[..k + 1] == artists[..k] + [a];
      PositiveOneMore(artists, k);
      if a >= 1 && a !in ids {
        ids := ids + [a];
        assert ids[..|ids|] == ids;
        PositiveOneMore(ids, |ids| - 1);
      }
    }
    assert artists[..|artists|] == artists;
  }

  lemma PlanRealigns(
      db: Db, user: Id, artists: seq<Id>, now: Time, candidates: seq<Id>, plan: map<Id, Time>)
    requires user >= 1 && (forall id :: id in candidates <==> MatchesAny(db, id, user, artists))
    requires forall id | id in candidates :: id in db.deliveries
    requires IsPlan(TargetOf(db, now), candidates, plan)
    ensures db.(deliveries := Planned(db.deliveries, plan, (r: Row, at) => r.(nextAt := at)))
         == T.Realign(db, user, T.Positive(artists), now)
  {
    var f := (r: Row, at) => r.(nextAt := at);
    var t' := T.Realign(db, user, T.Positive(artists), now).deliveries;
    forall id | id in db.deliveries
      ensures Planned(db.deliveries, plan, f)[id] == t'[id]
    {
      MatchesAnyIsAffected(db, id, user, artists);
      TargetRealigns(db, db.deliveries[id], now);
      assert TargetOf(db, now)(id) == Target(db, db.deliveries[id], now);
    }
    assert Planned(db.deliveries, plan, f) == t';
  }
}
