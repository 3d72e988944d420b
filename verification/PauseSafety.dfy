/**
 Pauses over whole runs. A delivery whose governing follow is paused waits for the end of the pause, whatever
 workers, operators, members and the clock do; the few writes that can undo a pause are characterised exactly.
 */
module PauseSafety {
  import opened Prelude
  import opened Tables
  import opened Governing
  import opened Transactions
  import opened RowAutomaton
  import opened Invariants
  import opened DeliverySystem
  import opened ProtocolSafety

  /** An open delivery is not scheduled before its governing follow resumes. */
  predicate Waits(p: Policy, events: map<Id, Event>, r: Row, clock: Time) {
    Open(r) ==> match DeferredUntil(p, events, r.parent, clock)
      case None => true
      case Some(until) => until <= r.nextAt
  }

  ghost predicate AllWait(p: Policy, events: map<Id, Event>, t: map<Id, Row>, clock: Time) {
    forall id | id in t :: Waits(p, events, t[id], clock)
  }

  ghost predicate QueueWaits(db: Db, clock: Time) {
    AllWait(db.policy, db.events, db.deliveries, clock)
  }

  // ---- the writes that can undo a pause

  /** The schedule a worker's store call writes to a row that stays open. */
  function Rewrites(w: Work, action: Action): Option<Time> {
    if (action.Panic? && action.ok) || (action.Record? && action.ok && w.phase.ToMarkFailed?) then
      AuditRetry(Attempt(w), w.now)
    else if action.Record? && action.ok && w.phase.ToMarkLimited? then Some(w.phase.next)
    else None
  }

  /** The instant lies before the end of the pause that defers the event. */
  predicate Undercuts(at: Time, p: Policy, events: map<Id, Event>, parent: Id, clock: Time) {
    var until := DeferredUntil(p, events, parent, clock);
    until.Some? && at < until.value
  }

  /** A runner whose delivery came under a pause while it was sending writes its own, earlier, schedule. */
  ghost predicate WriteUndoes(db: Db, k: WorkKey, w: Work, action: Action, clock: Time) {
    && k.q.Deliveries? && HoldsLease(db, k) && Rewrites(w, action).Some?
    && Undercuts(Rewrites(w, action).value, db.policy, db.events, db.deliveries[k.id].parent, clock)
  }

  /** The conflict gate finds nothing to review and queues for now, whatever the pause of the governing follow. */
  ghost predicate GateLeaks(db: Db, a: Admission, clock: Time) {
    && !EventExists(db, a.user, a.release, a.moment)
    && !HoldExists(db, a.user, a.release, a.moment, Discarded)
    && Blank(Join(IssuesOf(db, a.release))) && (exists id :: id in a.rows)
    && match Governor(db.policy, a.user, a.release, a.moment)
       case None => false
       case Some(c) => TakesGate(db, a, c.rule) && ResumesAt(c.rule, clock).Some?
  }

  ghost predicate AdmissionLeaks(db: Db, tx: Tx, clock: Time) {
    match tx
    case Admit(a) => GateLeaks(db, a, clock)
    case Drain(h, a) => Drains(db, h, a) && GateLeaks(db, a, clock)
    case _ => false
  }

  function EditedPolicy(db: Db, tx: Tx): Policy
    requires tx.EditPolicyTx?
  {
    db.policy.(releases := tx.releases, prefs := tx.prefs)
  }

  /** An edit of the catalogue or of preferences brings an open delivery under a pause that ends after its schedule. */
  ghost predicate EditUndercuts(db: Db, tx: Tx, clock: Time) {
    tx.EditPolicyTx? && exists id | id in db.deliveries ::
      var r := db.deliveries[id];
      Open(r) && Undercuts(r.nextAt, EditedPolicy(db, tx), db.events, r.parent, clock)
  }

  ghost predicate UndoesPause(s: Sys, step: Step) {
    match step
    case Worker(k, action) => k in s.work && WriteUndoes(s.db, k, s.work[k], action, s.clock)
    case Transact(tx) => AdmissionLeaks(s.db, tx, s.clock) || EditUndercuts(s.db, tx, s.clock)
    case _ => false
  }

  // ---- rows

  /** A row that keeps its parent and schedule, or is no longer open, goes on waiting. */
  predicate Quiet(r: Row, r': Row) {
    r'.parent == r.parent && (Open(r') ==> Open(r) && r'.nextAt == r.nextAt)
  }

  /** Every row is an old one that was left quiet, or waits by itself. */
  ghost predicate QuietOrWaiting(
      p: Policy, events: map<Id, Event>, t: map<Id, Row>, t': map<Id, Row>, clock: Time) {
    forall id | id in t' :: (id in t && Quiet(t[id], t'[id])) || Waits(p, events, t'[id], clock)
  }

  lemma QuietKeepsWaiting(p: Policy, events: map<Id, Event>, t: map<Id, Row>, t': map<Id, Row>, clock: Time)
    requires AllWait(p, events, t, clock) && QuietOrWaiting(p, events, t, t', clock)
    ensures AllWait(p, events, t', clock)
  {
    forall id | id in t'
      ensures Waits(p, events, t'[id], clock)
    {
      if id in t && Quiet(t[id], t'[id]) {
        assert Waits(p, events, t[id], clock);
      }
    }
  }

  /** Time only ends pauses. */
  lemma TickKeepsWaiting(db: Db, clock: Time, to: Time)
    requires QueueWaits(db, clock) && clock <= to
    ensures QueueWaits(db, to)
  {
    forall id | id in db.deliveries
      ensures Waits(db.policy, db.events, db.deliveries[id], to)
    {
      var r := db.deliveries[id];
      assert Waits(db.policy, db.events, r, clock);
      DeferralOnlyEnds(db.policy, db.events, r.parent, clock, to);
    }
  }

  /** A reading of the clock that is not ahead of it sees every pause that still runs. */
  lemma ReadingSeesPause(p: Policy, events: map<Id, Event>, parent: Id, now: Time, clock: Time)
    requires now <= clock && DeferredUntil(p, events, parent, clock).Some?
    ensures DeferredUntil(p, events, parent, now) == DeferredUntil(p, events, parent, clock)
    ensures clock < DeferredUntil(p, events, parent, clock).value
  {
    DeferralOnlyEnds(p, events, parent, now, clock);
  }

  // ---- recovery and repair

  lemma RetryKeepsWaiting(db: Db, user: Id, dest: Id, now: Time, clock: Time)
    requires QueueWaits(db, clock) && now <= clock
    ensures QueueWaits(RetryFailed(db, user, dest, now), clock)
  {
    var db' := RetryFailed(db, user, dest, now);
    forall id | id in db'.deliveries
      ensures Quiet(db.deliveries[id], db'.deliveries[id])
           || Waits(db.policy, db.events, db'.deliveries[id], clock)
    {
      var r := db.deliveries[id];
      if DeferredUntil(db.policy, db.events, r.parent, clock).Some? {
        ReadingSeesPause(db.policy, db.events, r.parent, now, clock);
      }
    }
    QuietKeepsWaiting(db.policy, db.events, db.deliveries, db'.deliveries, clock);
  }

  lemma RepairKeepsWaiting(db: Db, now: Time, horizon: Time, clock: Time)
    requires QueueWaits(db, clock) && now <= clock
    ensures QueueWaits(RepairSkewed(db, now, horizon), clock)
  {
    var db' := RepairSkewed(db, now, horizon);
    forall id | id in db'.deliveries
      ensures Quiet(db.deliveries[id], db'.deliveries[id])
           || Waits(db.policy, db.events, db'.deliveries[id], clock)
    {
      var r := db.deliveries[id];
      if DeferredUntil(db.policy, db.events, r.parent, clock).Some? {
        ReadingSeesPause(db.policy, db.events, r.parent, now, clock);
      }
    }
    QuietKeepsWaiting(db.policy, db.events, db.deliveries, db'.deliveries, clock);
  }

  lemma MaintenanceKeepsWaiting(db: Db, tx: Tx, clock: Time)
    requires QueueWaits(db, clock) && (tx.ReleaseTx? || tx.Cancel? || tx.Recover?)
    ensures QueueWaits(Commit(db, tx), clock)
  {
    QuietKeepsWaiting(db.policy, db.events, db.deliveries, Commit(db, tx).deliveries, clock);
  }

  // ---- rule changes

  lemma RealignedWaits(db: Db, r: Row, now: Time, clock: Time)
    requires now <= clock
    ensures Waits(db.policy, db.events, RealignedRow(db, r, now), clock)
  {
    if DeferredUntil(db.policy, db.events, r.parent, clock).Some? {
      ReadingSeesPause(db.policy, db.events, r.parent, now, clock);
    }
  }

  /** Changing some follows of a member and realigning for them restores the schedule of the whole queue. */
  lemma RealignRestores(db: Db, p: Policy, t: map<Id, Row>, user: Id, artists: set<Id>, now: Time, clock: Time)
    requires AllWait(p, db.events, t, clock) && db.deliveries.Keys <= t.Keys
    requires forall id | id in db.deliveries :: db.deliveries[id] == t[id] && t[id].parent in db.events
    requires DiffersOnlyAt(p, db.policy, user, artists) && user >= 1 && now <= clock
    ensures QueueWaits(Realign(db, user, artists, now), clock)
  {
    var db' := Realign(db, user, artists, now);
    forall id | id in db'.deliveries
      ensures Waits(db.policy, db.events, db'.deliveries[id], clock)
    {
      var r := db.deliveries[id];
      if Affected(db, r, user, artists) {
        RealignedWaits(db, r, now, clock);
      } else {
        assert Waits(p, db.events, t[id], clock);
        if Open(r) {
          GovernorIsLocal(p, db.policy, user, artists, db.events[r.parent]);
        }
      }
    }
  }

  lemma WithRulesDiffers(p: Policy, user: Id, artists: set<Id>, rule: Rule)
    ensures DiffersOnlyAt(p, WithRules(p, user, artists, rule), user, artists)
  {
  }

  lemma WithModesDiffers(p: Policy, user: Id, artists: set<Id>, mode: Mode)
    ensures DiffersOnlyAt(p, WithModes(p, user, artists, mode), user, artists)
  {
  }

  lemma WithFollowDiffers(p: Policy, user: Id, artist: Id)
    ensures DiffersOnlyAt(p, WithFollow(p, user, artist), user, {artist})
    ensures DiffersOnlyAt(p, WithoutFollow(p, user, artist), user, {artist})
  {
  }

  ghost predicate ParentsExist(db: Db) {
    forall id | id in db.deliveries :: db.deliveries[id].parent in db.events
  }

  lemma PolicyStepKeepsWaiting(db: Db, p: Policy, user: Id, artists: set<Id>, now: Time, clock: Time)
    requires QueueWaits(db, clock) && ParentsExist(db) && user >= 1 && now <= clock
    requires DiffersOnlyAt(db.policy, p, user, artists)
    ensures QueueWaits(Realign(db.(policy := p), user, artists, now), clock)
  {
    RealignRestores(db.(policy := p), db.policy, db.deliveries, user, artists, now, clock);
  }

  lemma PositiveSingle(artist: Id)
    requires artist >= 1
    ensures Positive([artist]) == {artist}
  {
  }

  lemma UnfollowKeepsWaiting(db: Db, user: Id, artist: Id, now: Time, clock: Time)
    requires QueueWaits(db, clock) && ParentsExist(db) && PolicyInv(db.policy) && now <= clock
    ensures QueueWaits(Unfollow(db, user, artist, now), clock)
  {
    if (user, artist) in db.policy.follows {
      PositiveSingle(artist);
      WithFollowDiffers(db.policy, user, artist);
      var db2 := Abandon(db.(policy := WithoutFollow(db.policy, user, artist)), user, artist, now);
      RealignRestores(db2, db.policy, db.deliveries, user, {artist}, now, clock);
    }
  }

  lemma RulesKeepWaiting(db: Db, user: Id, artists: seq<Id>, rule: Rule, now: Time, clock: Time)
    requires QueueWaits(db, clock) && ParentsExist(db) && now <= clock
    ensures QueueWaits(UpdateRules(db, user, artists, rule, now), clock)
  {
    if user >= 1 && FollowsAll(db.policy, user, Positive(artists)) {
      var ids := Positive(artists);
      WithRulesDiffers(db.policy, user, ids, rule);
      PolicyStepKeepsWaiting(db, WithRules(db.policy, user, ids, rule), user, ids, now, clock);
    }
  }

  lemma FollowsAllIsPositive(p: Policy, user: Id, artists: set<Id>)
    requires PolicyInv(p) && FollowsAll(p, user, artists)
    ensures user >= 1
  {
    var a :| a in artists;
    assert (user, a) in p.follows;
  }

  lemma ModesKeepWaiting(db: Db, user: Id, artists: seq<Id>, mode: Mode, now: Time, clock: Time)
    requires QueueWaits(db, clock) && ParentsExist(db) && PolicyInv(db.policy) && now <= clock
    ensures QueueWaits(SetMode(db, user, artists, mode, now), clock)
  {
    var ids := Positive(artists);
    if FollowsAll(db.policy, user, ids) {
      FollowsAllIsPositive(db.policy, user, ids);
      WithModesDiffers(db.policy, user, ids, mode);
      PolicyStepKeepsWaiting(db, WithModes(db.policy, user, ids, mode), user, ids, now, clock);
    }
  }

  lemma PauseKeepsWaiting(db: Db, user: Id, artist: Id, until: Option<Time>, now: Time, clock: Time)
    requires QueueWaits(db, clock) && ParentsExist(db) && PolicyInv(db.policy) && now <= clock
    ensures QueueWaits(PauseFollow(db, user, artist, until, now), clock)
  {
    if (user, artist) in db.policy.follows {
      var rule := RuleOf(db.policy, user, artist).(pausedUntil := until);
      PositiveSingle(artist);
      WithRulesDiffers(db.policy, user, {artist}, rule);
      PolicyStepKeepsWaiting(db, WithRules(db.policy, user, {artist}, rule), user, {artist}, now, clock);
    }
  }

  lemma FollowKeepsWaiting(db: Db, user: Id, artist: Id, now: Time, clock: Time)
    requires QueueWaits(db, clock) && ParentsExist(db) && user >= 1 && artist >= 1 && now <= clock
    ensures QueueWaits(Follow(db, user, artist, now), clock)
  {
    PositiveSingle(artist);
    WithFollowDiffers(db.policy, user, artist);
    PolicyStepKeepsWaiting(db, WithFollow(db.policy, user, artist), user, {artist}, now, clock);
  }

  predicate ChangesRules(tx: Tx) {
    tx.FollowTx? || tx.UnfollowTx? || tx.Rules? || tx.Modes? || tx.Pause?
  }

  lemma RuleStepsKeepWaiting(db: Db, tx: Tx, clock: Time)
    requires DbInv(db) && QueueWaits(db, clock) && Feasible(db, tx)
    requires TimeOf(tx, clock) <= clock && ChangesRules(tx)
    ensures QueueWaits(Commit(db, tx), clock)
  {
    if tx.FollowTx? {
      FollowKeepsWaiting(db, tx.user, tx.artist, tx.now, clock);
    } else if tx.UnfollowTx? {
      UnfollowKeepsWaiting(db, tx.user, tx.artist, tx.now, clock);
    } else if tx.Rules? {
      RulesKeepWaiting(db, tx.user, tx.artists, tx.rule, tx.now, clock);
    } else if tx.Modes? {
      ModesKeepWaiting(db, tx.user, tx.artists, tx.mode, tx.now, clock);
    } else {
      PauseKeepsWaiting(db, tx.user, tx.artist, tx.until, tx.now, clock);
    }
  }

  // ---- follows without realignment

  lemma OutranksIsOneWay(p: Policy, user: Id, rel: Release, c: Candidate, d: Candidate)
    requires c.rule == RuleOf(p, user, c.artist) && d.rule == RuleOf(p, user, d.artist)
    ensures !(Outranks(p, user, rel, c, d.artist) && Outranks(p, user, rel, d, c.artist))
  {
  }

  /** Two governors that both contend under either policy, with the same rules, are one. */
  lemma SameWinner(p: Policy, p': Policy, user: Id, release: Id, moment: Moment, c: Candidate, c': Candidate)
    requires release in p.releases && p'.releases == p.releases && p'.prefs == p.prefs
    requires Governor(p, user, release, moment) == Some(c) && Governor(p', user, release, moment) == Some(c')
    requires Contends(p', user, p.releases[release], moment, c.artist)
    requires Contends(p, user, p.releases[release], moment, c'.artist)
    requires RuleOf(p, user, c.artist) == RuleOf(p', user, c.artist)
    requires RuleOf(p, user, c'.artist) == RuleOf(p', user, c'.artist)
    ensures c == c'
  {
    var rel := p.releases[release];
    GovernorWins(p, user, release, moment);
    GovernorWins(p', user, release, moment);
    OutranksIsOneWay(p, user, rel, c, c');
  }

  /** A new follow governs an event itself, with the default rule, or changes nothing about who does. */
  lemma NewFollowGovernsOrNothing(p: Policy, user: Id, artist: Id, e: Event)
    requires PolicyInv(p) && (user, artist) !in p.follows && e.user == user && e.release in p.releases
    ensures var g := GovernorOf(WithFollow(p, user, artist), e);
            g == GovernorOf(p, e) || (g.Some? && g.value.rule == DEFAULT_RULE)
  {
    var p' := WithFollow(p, user, artist);
    var rel := p.releases[e.release];
    WithFollowDiffers(p, user, artist);
    GovernorWins(p, user, e.release, e.moment);
    GovernorWins(p', user, e.release, e.moment);
    forall a | a != artist
      ensures Contends(p, user, rel, e.moment, a) <==> Contends(p', user, rel, e.moment, a)
    {
      assert RuleOf(p, user, a) == RuleOf(p', user, a);
    }
    assert !Contends(p, user, rel, e.moment, artist);
    var g, g' := GovernorOf(p, e), GovernorOf(p', e);
    if g'.Some? && g'.value.artist != artist && g.Some? {
      SameWinner(p, p', user, e.release, e.moment, g.value, g'.value);
    }
  }

  /** A follow added without rescheduling can end a pause over an event, but never starts one. */
  lemma FollowOnlyUndefers(db: Db, user: Id, artist: Id, eid: Id, clock: Time)
    requires PolicyInv(db.policy)
    ensures var p' := FollowOnly(db, user, artist).policy;
            DeferredUntil(p', db.events, eid, clock).Some? ==>
              DeferredUntil(p', db.events, eid, clock) == DeferredUntil(db.policy, db.events, eid, clock)
  {
    var p' := FollowOnly(db, user, artist).policy;
    if eid in db.events {
      var e := db.events[eid];
      if (user, artist) in db.policy.follows || e.user != user {
        WithFollowDiffers(db.policy, user, artist);
        var changed := if e.user != user then {artist} else {};
        assert DiffersOnlyAt(db.policy, p', user, changed);
        GovernorIsLocal(db.policy, p', user, changed, e);
      } else if e.release in db.policy.releases {
        NewFollowGovernsOrNothing(db.policy, user, artist, e);
      }
    }
  }

  lemma FollowOnlyKeepsWaiting(db: Db, user: Id, artist: Id, clock: Time)
    requires QueueWaits(db, clock) && PolicyInv(db.policy)
    ensures QueueWaits(FollowOnly(db, user, artist), clock)
  {
    var db' := FollowOnly(db, user, artist);
    forall id | id in db'.deliveries
      ensures Waits(db'.policy, db'.events, db'.deliveries[id], clock)
    {
      assert Waits(db.policy, db.events, db.deliveries[id], clock);
      FollowOnlyUndefers(db, user, artist, db.deliveries[id].parent, clock);
    }
  }

  // ---- admission

  /** Old rows keep their parents, and parents keep their governors. */
  lemma OldRowsWait(db: Db, db': Db, clock: Time)
    requires QueueWaits(db, clock) && ParentsExist(db) && db'.policy == db.policy
    requires forall e | e in db.events :: e in db'.events && db'.events[e] == db.events[e]
    ensures AllWait(db'.policy, db'.events, db.deliveries, clock)
  {
    forall id | id in db.deliveries
      ensures Waits(db'.policy, db'.events, db.deliveries[id], clock)
    {
      assert Waits(db.policy, db.events, db.deliveries[id], clock);
    }
  }

  lemma FannedRow(db: Db, t: map<Id, Row>, parent: Id, rows: map<Id, Id>, at: Time, id: Id)
    ensures var t' := FanOut(db, t, parent, rows, at);
            && (id in t' <==> id in t || id in rows)
            && (id in t ==> t'[id] == t[id])
            && (id in rows && id !in t ==> t'[id] == Row(parent, rows[id], QueueStatus(db, rows[id]), 0, at, None, None))
  {
  }

  lemma InsertedRows(db: Db, a: Admission, at: Time, id: Id)
    ensures var t' := InsertEvent(db, a, true, at).deliveries;
            && (id in t' <==> id in db.deliveries || id in a.rows)
            && (id in db.deliveries ==> t'[id] == db.deliveries[id])
            && (id in a.rows && id !in db.deliveries ==>
                  Open(t'[id]) && t'[id].parent == a.eid && t'[id].nextAt == at)
  {
    var db1 := InsertEvent(db, a, false, at);
    FannedRow(db1, db1.deliveries, a.eid, a.rows, at, id);
  }

  /** An insertion at `at` keeps the queue waiting exactly when it queues nothing or nothing too early. */
  lemma InsertWaits(db: Db, a: Admission, at: Time, clock: Time, until: Option<Time>)
    requires QueueWaits(db, clock) && ParentsExist(db) && Fits(db, a)
    requires until == DeferredUntil(db.policy, InsertEvent(db, a, true, at).events, a.eid, clock)
    ensures QueueWaits(InsertEvent(db, a, true, at), clock)
       <==> until.None? || until.value <= at || forall id :: id !in a.rows
  {
    var db' := InsertEvent(db, a, true, at);
    InsertedEvents(db, a, true, at);
    forall id: Id
      ensures id in db'.deliveries && id !in db.deliveries ==>
        id in a.rows && (Waits(db'.policy, db'.events, db'.deliveries[id], clock) <==> until.None? || until.value <= at)
    {
      InsertedRows(db, a, at, id);
    }
    if id :| id in a.rows {
      InsertedRows(db, a, at, id);
      assert id !in db.deliveries && id in db'.deliveries;
    }
    if until.None? || until.value <= at || forall id :: id !in a.rows {
      OldRowsWait(db, db', clock);
      forall id | id in db'.deliveries
        ensures Waits(db'.policy, db'.events, db'.deliveries[id], clock)
      {
        InsertedRows(db, a, at, id);
        if id in db.deliveries {
          assert Waits(db'.policy, db'.events, db.deliveries[id], clock);
        }
      }
    }
  }

  lemma InsertedEvents(db: Db, a: Admission, queue: bool, at: Time)
    ensures var db' := InsertEvent(db, a, queue, at);
            && db'.policy == db.policy
            && db'.events == if a.eid in db.events then db.events
                             else db.events[a.eid := Event(a.user, a.release, a.moment, a.now)]
  {
  }

  lemma AdmittedEventDefers(db: Db, a: Admission, at: Time, clock: Time)
    requires Fits(db, a)
    ensures DeferredUntil(db.policy, InsertEvent(db, a, true, at).events, a.eid, clock)
         == match Governor(db.policy, a.user, a.release, a.moment)
            case None => None
            case Some(c) => ResumesAt(c.rule, clock)
  {
    InsertedEvents(db, a, true, at);
    var e := InsertEvent(db, a, true, at).events[a.eid];
    assert HasKey(e, a.user, a.release, a.moment);
    assert GovernorOf(db.policy, e) == Governor(db.policy, a.user, a.release, a.moment);
  }

  lemma UnqueuedWaits(db: Db, a: Admission, at: Time, clock: Time)
    requires QueueWaits(db, clock) && ParentsExist(db)
    ensures QueueWaits(InsertEvent(db, a, false, at), clock)
  {
    InsertedEvents(db, a, false, at);
    OldRowsWait(db, InsertEvent(db, a, false, at), clock);
  }

  lemma GateWaits(db: Db, a: Admission, c: Candidate, clock: Time)
    requires QueueWaits(db, clock) && ParentsExist(db) && Fits(db, a) && a.now <= clock
    requires Governor(db.policy, a.user, a.release, a.moment) == Some(c) && TakesGate(db, a, c.rule)
    ensures QueueWaits(HoldConflicting(db, a).db, clock) <==> !GateLeaks(db, a, clock)
  {
    var g := HoldConflicting(db, a);
    if !EventExists(db, a.user, a.release, a.moment)
       && !HoldExists(db, a.user, a.release, a.moment, Discarded) && Blank(Join(IssuesOf(db, a.release))) {
      assert g.db == InsertEvent(db, a, true, a.now);
      AdmittedEventDefers(db, a, a.now, clock);
      InsertWaits(db, a, a.now, clock, ResumesAt(c.rule, clock));
    } else {
      assert g.db == db.(holds := g.db.holds);
    }
  }

  lemma DirectWaits(db: Db, a: Admission, c: Candidate, clock: Time)
    requires QueueWaits(db, clock) && ParentsExist(db) && Fits(db, a) && a.now <= clock
    requires Governor(db.policy, a.user, a.release, a.moment) == Some(c)
    ensures QueueWaits(InsertEvent(db, a, true, OrElse(ResumesAt(c.rule, a.now), a.now)), clock)
  {
    var at := OrElse(ResumesAt(c.rule, a.now), a.now);
    AdmittedEventDefers(db, a, at, clock);
    InsertWaits(db, a, at, clock, ResumesAt(c.rule, clock));
  }

  /** An admission respects every pause unless it leaks through the conflict gate. */
  lemma EnqueueWaits(db: Db, a: Admission, clock: Time)
    requires QueueWaits(db, clock) && ParentsExist(db) && Fits(db, a) && a.now <= clock
    ensures QueueWaits(Enqueue(db, a).db, clock) <==> !GateLeaks(db, a, clock)
  {
    match Governor(db.policy, a.user, a.release, a.moment)
    case None =>
    case Some(c) =>
      if TakesGate(db, a, c.rule) {
        GateWaits(db, a, c, clock);
      } else if QueuesImmediate(c.rule, a.now) || ResumesAt(c.rule, a.now).Some? {
        DirectWaits(db, a, c, clock);
      } else {
        UnqueuedWaits(db, a, OrElse(ResumesAt(c.rule, a.now), a.now), clock);
      }
  }

  lemma ReAdmitWaits(db: Db, h: Id, a: Admission, clock: Time)
    requires QueueWaits(db, clock) && ParentsExist(db) && Fits(db, a) && a.now <= clock
    ensures QueueWaits(ReAdmit(db, h, a), clock) <==> !GateLeaks(db, a, clock)
  {
    EnqueueWaits(db, a, clock);
    SettlingWaits(Enqueue(db, a).db, h, Released, clock);
  }

  lemma SettlingWaits(db: Db, h: Id, status: HoldStatus, clock: Time)
    ensures QueueWaits(SettleHold(db, h, status), clock) <==> QueueWaits(db, clock)
  {
  }

  lemma AdmissionsKeepWaiting(db: Db, tx: Tx, clock: Time)
    requires QueueWaits(db, clock) && ParentsExist(db) && Feasible(db, tx)
    requires TimeOf(tx, clock) <= clock && Admits(tx)
    ensures QueueWaits(Commit(db, tx), clock) <==> !AdmissionLeaks(db, tx, clock)
  {
    if tx.Admit? {
      EnqueueWaits(db, tx.a, clock);
    } else if tx.Drain? {
      ReAdmitWaits(db, tx.h, tx.a, clock);
    } else if tx.Notify? {
      ReAdmitWaits(db, tx.h, tx.a, clock);
    } else {
      EnqueueWaits(db, tx.a.(bypass := true), clock);
    }
  }

  // ---- every transaction

  predicate SparesDeliveries(tx: Tx) {
    tx.Discard? || tx.Restore? || tx.DigestTx? || tx.NewDestination? || tx.EditIssuesTx?
  }

  /** Everything that decides when a delivery waits is left alone. */
  ghost predicate SameQueue(db: Db, db': Db) {
    db'.policy == db.policy && db'.events == db.events && db'.deliveries == db.deliveries
  }

  lemma DiscardSparesDeliveries(db: Db, user: Id, h: Id)
    ensures SameQueue(db, DiscardHold(db, user, h))
  {
  }

  lemma RestoreSparesDeliveries(db: Db, user: Id, h: Id)
    ensures SameQueue(db, RestoreHold(db, user, h))
  {
  }

  lemma DigestSparesDeliveries(db: Db, plan: DigestPlan)
    ensures SameQueue(db, QueueDigest(db, plan))
  {
    QueueDigestWrites(db, plan);
  }

  lemma DestinationSparesDeliveries(db: Db, d: Id, user: Id, supported: bool, now: Time)
    ensures SameQueue(db, AddDestination(db, d, user, supported, now))
  {
  }

  lemma IssuesSpareDeliveries(db: Db, issues: map<Id, seq<string>>)
    ensures SameQueue(db, EditIssues(db, issues))
  {
  }

  lemma SparedDeliveriesAreSame(db: Db, tx: Tx)
    requires SparesDeliveries(tx)
    ensures SameQueue(db, Commit(db, tx))
  {
    if tx.Discard? {
      DiscardSparesDeliveries(db, tx.user, tx.h);
    } else if tx.Restore? {
      RestoreSparesDeliveries(db, tx.user, tx.h);
    } else if tx.DigestTx? {
      DigestSparesDeliveries(db, tx.plan);
    } else if tx.NewDestination? {
      DestinationSparesDeliveries(db, tx.d, tx.user, tx.supported, tx.now);
    } else {
      IssuesSpareDeliveries(db, tx.issues);
    }
  }

  lemma SparedDeliveriesWait(db: Db, db': Db, clock: Time)
    requires SameQueue(db, db') && QueueWaits(db, clock)
    ensures QueueWaits(db', clock)
  {
  }

  lemma EditWaitsIff(db: Db, tx: Tx, clock: Time)
    requires tx.EditPolicyTx?
    ensures QueueWaits(Commit(db, tx), clock) <==> !EditUndercuts(db, tx, clock)
  {
    var db' := Commit(db, tx);
    assert db'.policy == EditedPolicy(db, tx) && db'.events == db.events && db'.deliveries == db.deliveries;
    forall id | id in db.deliveries
      ensures Waits(db'.policy, db'.events, db'.deliveries[id], clock)
         <==> !(Open(db.deliveries[id])
                && Undercuts(db.deliveries[id].nextAt, db'.policy, db.events, db.deliveries[id].parent, clock))
    {
    }
  }

  lemma CommitKeepsWaiting(db: Db, tx: Tx, clock: Time)
    requires DbInv(db) && QueueWaits(db, clock) && Feasible(db, tx)
    requires TimeOf(tx, clock) <= clock
    ensures QueueWaits(Commit(db, tx), clock) <==> !(AdmissionLeaks(db, tx, clock) || EditUndercuts(db, tx, clock))
  {
    assert ParentsExist(db);
    if Admits(tx) {
      AdmissionsKeepWaiting(db, tx, clock);
    } else if ChangesRules(tx) {
      RuleStepsKeepWaiting(db, tx, clock);
    } else if SparesDeliveries(tx) {
      SparedDeliveriesAreSame(db, tx);
      SparedDeliveriesWait(db, Commit(db, tx), clock);
    } else if tx.EditPolicyTx? {
      EditWaitsIff(db, tx, clock);
    } else if tx.FollowOnlyTx? {
      FollowOnlyKeepsWaiting(db, tx.user, tx.artist, clock);
    } else if tx.Retry? {
      RetryKeepsWaiting(db, tx.user, tx.dest, tx.now, clock);
    } else if tx.Repair? {
      RepairKeepsWaiting(db, tx.now, tx.horizon, clock);
    } else {
      MaintenanceKeepsWaiting(db, tx, clock);
    }
  }

  // ---- workers

  /** Replacing one delivery keeps the queue waiting exactly when the new row waits. */
  lemma PutWaits(db: Db, db': Db, id: Id, r': Row, clock: Time)
    requires QueueWaits(db, clock) && id in db.deliveries
    requires db' == PutRow(db, Deliveries, id, r').(runs := db'.runs)
    ensures QueueWaits(db', clock) <==> Waits(db.policy, db.events, r', clock)
  {
    assert db'.deliveries[id] == r';
  }

  lemma PutDigestWaits(db: Db, db': Db, id: Id, r': Row, clock: Time)
    requires db' == PutRow(db, Digests, id, r').(runs := db'.runs)
    ensures QueueWaits(db', clock) <==> QueueWaits(db, clock)
  {
  }

  lemma CompletionWaits(db: Db, q: Queue, id: Id, clock: Time)
    requires QueueWaits(db, clock) && id in Tab(db, q)
    ensures QueueWaits(CompleteRow(db, q, id), clock)
  {
    CompleteTouches(db, q, id);
    if q.Deliveries? {
      PutWaits(db, CompleteRow(db, q, id), id, SentRow(db.deliveries[id]), clock);
    } else {
      PutDigestWaits(db, CompleteRow(db, q, id), id, SentRow(db.digests[id]), clock);
    }
  }

  lemma FailedRowWaits(db: Db, k: WorkKey, attempts: nat, now: Time, clock: Time)
    requires QueueWaits(db, clock) && Hits(Tab(db, k.q), k.id, k.owner)
    ensures QueueWaits(MarkFailed(db, k.q, k.id, attempts, k.owner, now), clock)
       <==> k.q.Deliveries? ==> Waits(db.policy, db.events, FailedRow(db.deliveries[k.id], attempts, now), clock)
  {
    var db' := MarkFailed(db, k.q, k.id, attempts, k.owner, now);
    MarkFailedTouches(db, k.q, k.id, attempts, k.owner, now);
    if k.q.Deliveries? {
      PutWaits(db, db', k.id, FailedRow(db.deliveries[k.id], attempts, now), clock);
    } else {
      PutDigestWaits(db, db', k.id, FailedRow(db.digests[k.id], attempts, now), clock);
    }
  }

  /** A failed row that is retried waits exactly when its retry does not undercut a pause. */
  lemma FailedWaitsIff(p: Policy, events: map<Id, Event>, r: Row, attempts: nat, now: Time, clock: Time)
    ensures Waits(p, events, FailedRow(r, attempts, now), clock)
       <==> !(AuditRetry(attempts, now).Some? && Undercuts(AuditRetry(attempts, now).value, p, events, r.parent, clock))
  {
  }

  lemma FailureWaits(db: Db, k: WorkKey, w: Work, action: Action, clock: Time)
    requires QueueWaits(db, clock) && !Blank(k.owner)
    requires Rewrites(w, action) == AuditRetry(Attempt(w), w.now)
    ensures QueueWaits(MarkFailed(db, k.q, k.id, Attempt(w), k.owner, w.now), clock)
       <==> !WriteUndoes(db, k, w, action, clock)
  {
    if Hits(Tab(db, k.q), k.id, k.owner) {
      FailedRowWaits(db, k, Attempt(w), w.now, clock);
      if k.q.Deliveries? {
        FailedWaitsIff(db.policy, db.events, db.deliveries[k.id], Attempt(w), w.now, clock);
      }
    }
  }

  lemma LimitWaits(db: Db, k: WorkKey, w: Work, next: Time, clock: Time)
    requires QueueWaits(db, clock) && !Blank(k.owner) && Rewrites(w, Record(true)) == Some(next)
    ensures QueueWaits(MarkRateLimited(db, k.q, k.id, k.owner, next), clock)
       <==> !WriteUndoes(db, k, w, Record(true), clock)
  {
    if Hits(Tab(db, k.q), k.id, k.owner) {
      LimitedRowWaits(db, k, next, clock);
    }
  }

  lemma LimitedRowWaits(db: Db, k: WorkKey, next: Time, clock: Time)
    requires QueueWaits(db, clock) && Hits(Tab(db, k.q), k.id, k.owner)
    ensures QueueWaits(MarkRateLimited(db, k.q, k.id, k.owner, next), clock)
       <==> k.q.Deliveries? ==> Waits(db.policy, db.events, LimitedRow(db.deliveries[k.id], next), clock)
  {
    var db' := MarkRateLimited(db, k.q, k.id, k.owner, next);
    if k.q.Deliveries? {
      PutWaits(db, db', k.id, LimitedRow(db.deliveries[k.id], next), clock);
    } else {
      PutDigestWaits(db, db', k.id, LimitedRow(db.digests[k.id], next), clock);
    }
  }

  lemma FinishIsQuiet(db: Db, dest: Id, v: Verdict, next: Option<Time>)
    ensures var db' := FinishAttempt(db, dest, v, next);
            && db'.policy == db.policy && db'.events == db.events && db'.deliveries.Keys == db.deliveries.Keys
            && forall id | id in db.deliveries :: Quiet(db.deliveries[id], db'.deliveries[id])
  {
  }

  lemma FinishingWaits(db: Db, k: WorkKey, w: Work, clock: Time)
    requires QueueWaits(db, clock) && Finishing(w)
    ensures QueueWaits(RecordDb(db, k, w), clock)
  {
    var v := if w.phase.ToFinishFailed? then Rejected else if w.phase.ToCoolDown? then RateLimited else Accepted;
    var next := if w.phase.ToFinishFailed? then AuditRetry(Attempt(w), w.now)
                else if w.phase.ToCoolDown? then Some(w.phase.next) else None;
    var db' := RecordDb(db, k, w);
    assert db' == db || db' == FinishAttempt(db, w.dest, v, next);
    FinishIsQuiet(db, w.dest, v, next);
    QuietKeepsWaiting(db.policy, db.events, db.deliveries, db'.deliveries, clock);
  }

  lemma RecordWaits(db: Db, k: WorkKey, w: Work, clock: Time)
    requires QueueWaits(db, clock) && !Blank(k.owner)
    ensures QueueWaits(RecordDb(db, k, w), clock) <==> !WriteUndoes(db, k, w, Record(true), clock)
  {
    if w.phase.ToMarkFailed? {
      FailureWaits(db, k, w, Record(true), clock);
    } else if w.phase.ToMarkLimited? {
      LimitWaits(db, k, w, w.phase.next, clock);
    } else if Finishing(w) {
      FinishingWaits(db, k, w, clock);
    } else if w.phase.ToMarkSent? || w.phase.ToFinalize? {
      if k.id in Tab(db, k.q) {
        CompletionWaits(db, k.q, k.id, clock);
      }
    }
  }

  lemma ActWaits(db: Db, k: WorkKey, w: Work, action: Action, clock: Time)
    requires QueueWaits(db, clock) && !Blank(k.owner)
    ensures QueueWaits(ActDb(db, k, w, action), clock) <==> !WriteUndoes(db, k, w, action, clock)
  {
    if action.Panic? && action.ok {
      FailureWaits(db, k, w, action, clock);
    } else if action.Record? && action.ok {
      RecordWaits(db, k, w, clock);
    }
  }

  // ---- every step, and whole runs

  lemma LeaseWaits(db: Db, q: Queue, ids: set<Id>, owner: string, expires: Time, clock: Time)
    requires QueueWaits(db, clock)
    ensures QueueWaits(Lease(db, q, ids, owner, expires), clock)
  {
    var db' := Lease(db, q, ids, owner, expires);
    QuietKeepsWaiting(db.policy, db.events, db.deliveries, db'.deliveries, clock);
  }

  /**
   Exactly the steps of `UndoesPause` break the schedule of paused deliveries: every other step of any worker,
   member or operator, every other edit of catalogue and preferences, and every tick of the clock, keeps it.
   */
  lemma StepKeepsWaiting(s: Sys, step: Step)
    requires SysInv(s) && QueueWaits(s.db, s.clock) && Allowed(s, step)
    ensures QueueWaits(Next(s, step).db, Next(s, step).clock) <==> !UndoesPause(s, step)
  {
    if step.Tick? {
      TickKeepsWaiting(s.db, s.clock, step.to);
    } else if step.Claim? {
      LeaseWaits(s.db, step.q, step.ids, step.owner, step.expires, s.clock);
    } else if step.Transact? {
      CommitKeepsWaiting(s.db, step.tx, s.clock);
    } else if step.key in s.work {
      assert WorkOk(s.db, step.key, s.work[step.key]);
      ActWaits(s.db, step.key, s.work[step.key], step.action, s.clock);
    }
  }

  /** A run without such steps. */
  ghost predicate Respects(s: Sys, steps: seq<Step>)
    decreases |steps|
  {
    steps == [] ||
    (&& Allowed(s, steps[0]) && !UndoesPause(s, steps[0])
     && Respects(Next(s, steps[0]), steps[1..]))
  }

  lemma {:induction false} PausesHold(s: Sys, steps: seq<Step>)
    requires SysInv(s) && QueueWaits(s.db, s.clock) && Respects(s, steps)
    ensures SysInv(After(s, steps)) && QueueWaits(After(s, steps).db, After(s, steps).clock)
    decreases |steps|
  {
    if steps != [] {
      NextKeeps(s, steps[0]);
      StepKeepsWaiting(s, steps[0]);
      PausesHold(Next(s, steps[0]), steps[1..]);
    }
  }

  /** No runner claims a delivery before its governing follow resumes. */
  lemma NoEarlyClaim(s: Sys, step: Step, id: Id)
    requires QueueWaits(s.db, s.clock) && Allowed(s, step) && step.Claim? && step.q.Deliveries? && id in step.ids
    ensures id in s.db.deliveries
    ensures DeferredUntil(s.db.policy, s.db.events, s.db.deliveries[id].parent, s.clock).None?
  {
    assert Due(s.db, Deliveries, step.now, id);
    assert Waits(s.db.policy, s.db.events, s.db.deliveries[id], s.clock);
    DeferralOnlyEnds(s.db.policy, s.db.events, s.db.deliveries[id].parent, s.clock, s.clock);
  }

  // ---- edits of catalogue and preferences

  /** The choice of a governor for the event reads the same release and the same preferences after the edit. */
  ghost predicate SameReading(p: Policy, p': Policy, e: Event) {
    && (e.release in p.releases <==> e.release in p'.releases)
    && (e.release in p.releases ==> p'.releases[e.release] == p.releases[e.release])
    && PrefsOf(p', e.user) == PrefsOf(p, e.user)
  }

  /** The edit keeps what every event with an open delivery reads. */
  ghost predicate KeepsReadings(db: Db, tx: Tx)
    requires tx.EditPolicyTx?
  {
    forall id | id in db.deliveries && Open(db.deliveries[id]) && db.deliveries[id].parent in db.events ::
      SameReading(db.policy, EditedPolicy(db, tx), db.events[db.deliveries[id].parent])
  }

  lemma ReadingDecides(p: Policy, p': Policy, e: Event)
    requires p'.follows == p.follows && p'.rules == p.rules && SameReading(p, p', e)
    ensures GovernorOf(p', e) == GovernorOf(p, e)
  {
    if e.release in p.releases {
      var rel := p.releases[e.release];
      CandidatesLocal(p, p', e.user, rel, AdmissionOrder(rel));
    }
  }

  lemma EditKeepsDeferral(db: Db, tx: Tx, id: Id, clock: Time)
    requires tx.EditPolicyTx? && KeepsReadings(db, tx) && id in db.deliveries && Open(db.deliveries[id])
    ensures DeferredUntil(EditedPolicy(db, tx), db.events, db.deliveries[id].parent, clock)
         == DeferredUntil(db.policy, db.events, db.deliveries[id].parent, clock)
  {
    var e := db.deliveries[id].parent;
    if e in db.events {
      ReadingDecides(db.policy, EditedPolicy(db, tx), db.events[e]);
    }
  }

  /** The edit changes what the event of this open delivery reads, and its pause then ends after its schedule. */
  ghost predicate Reread(db: Db, tx: Tx, id: Id, clock: Time)
    requires tx.EditPolicyTx? && id in db.deliveries
  {
    var r := db.deliveries[id];
    && Open(r) && r.parent in db.events && !SameReading(db.policy, EditedPolicy(db, tx), db.events[r.parent])
    && Undercuts(r.nextAt, EditedPolicy(db, tx), db.events, r.parent, clock)
  }

  lemma UndercutIsReread(db: Db, tx: Tx, id: Id, clock: Time)
    requires tx.EditPolicyTx? && id in db.deliveries && Waits(db.policy, db.events, db.deliveries[id], clock)
    requires Open(db.deliveries[id])
    requires Undercuts(db.deliveries[id].nextAt, EditedPolicy(db, tx), db.events, db.deliveries[id].parent, clock)
    ensures Reread(db, tx, id, clock)
  {
    var e := db.deliveries[id].parent;
    if SameReading(db.policy, EditedPolicy(db, tx), db.events[e]) {
      ReadingDecides(db.policy, EditedPolicy(db, tx), db.events[e]);
    }
  }

  /** Only deliveries whose release or preferences the edit changes have to be looked at. */
  lemma EditUndercutsIff(db: Db, tx: Tx, clock: Time)
    requires tx.EditPolicyTx? && QueueWaits(db, clock)
    ensures EditUndercuts(db, tx, clock) <==> exists id | id in db.deliveries :: Reread(db, tx, id, clock)
  {
    forall id | id in db.deliveries
      ensures Open(db.deliveries[id])
           && Undercuts(db.deliveries[id].nextAt, EditedPolicy(db, tx), db.events, db.deliveries[id].parent, clock)
         <==> Reread(db, tx, id, clock)
    {
      assert Waits(db.policy, db.events, db.deliveries[id], clock);
      if Open(db.deliveries[id])
        && Undercuts(db.deliveries[id].nextAt, EditedPolicy(db, tx), db.events, db.deliveries[id].parent, clock)
      {
        UndercutIsReread(db, tx, id, clock);
      }
    }
  }

  /** Such an edit undercuts nothing. */
  lemma KeptReadingsWait(db: Db, tx: Tx, clock: Time)
    requires tx.EditPolicyTx? && KeepsReadings(db, tx) && QueueWaits(db, clock)
    ensures !EditUndercuts(db, tx, clock)
  {
    EditUndercutsIff(db, tx, clock);
    forall id | id in db.deliveries
      ensures !Reread(db, tx, id, clock)
    {
    }
  }

  /** Cataloguing new releases always is one: no event names them yet. */
  lemma NewReleasesKeepReadings(db: Db, tx: Tx)
    requires tx.EditPolicyTx? && tx.prefs == db.policy.prefs
    requires forall r | r in db.policy.releases :: r in tx.releases && tx.releases[r] == db.policy.releases[r]
    requires forall e | e in db.events && db.events[e].release in tx.releases ::
               db.events[e].release in db.policy.releases
    ensures KeepsReadings(db, tx)
  {
  }

  // ---- the hypothesis on rule steps

  /** No delivery is being sent while its governing follow is paused. */
  ghost predicate Undisturbed(db: Db, clock: Time) {
    forall id | id in db.deliveries && db.deliveries[id].owner.Some? ::
      DeferredUntil(db.policy, db.events, db.deliveries[id].parent, clock).None?
  }

  function RuleUser(tx: Tx): Id
    requires ChangesRules(tx)
  {
    tx.user
  }

  function RuleArtists(tx: Tx): set<Id>
    requires ChangesRules(tx)
  {
    if tx.Rules? || tx.Modes? then Positive(tx.artists) else {tx.artist}
  }

  /** The step changes no follow that could govern a claimed delivery. */
  ghost predicate HitsNoClaim(db: Db, tx: Tx)
    requires ChangesRules(tx)
  {
    forall id | id in db.deliveries && db.deliveries[id].owner.Some? && db.deliveries[id].parent in db.events ::
      !Correlated(db.policy, db.events[db.deliveries[id].parent], RuleUser(tx), RuleArtists(tx))
  }

  /** `db'` may differ from `db` in the follows and rules of the member, for these artists, and in its rows. */
  ghost predicate RulesDiffer(db: Db, db': Db, user: Id, artists: set<Id>) {
    DiffersOnlyAt(db.policy, db'.policy, user, artists) && db'.events == db.events
  }

  lemma RealignDiffers(db: Db, db1: Db, user: Id, artists: set<Id>, user': Id, artists': set<Id>, now: Time)
    requires DiffersOnlyAt(db.policy, db1.policy, user, artists) && db1.events == db.events
    ensures RulesDiffer(db, Realign(db1, user', artists', now), user, artists)
  {
  }

  lemma FollowDiffers(db: Db, user: Id, artist: Id, now: Time)
    ensures RulesDiffer(db, Follow(db, user, artist, now), user, {artist})
    ensures RulesDiffer(db, Unfollow(db, user, artist, now), user, {artist})
  {
    WithFollowDiffers(db.policy, user, artist);
    RealignDiffers(db, db.(policy := WithFollow(db.policy, user, artist)), user, {artist}, user, Positive([artist]), now);
    var db1 := db.(policy := WithoutFollow(db.policy, user, artist));
    RealignDiffers(db, Abandon(db1, user, artist, now), user, {artist}, user, Positive([artist]), now);
  }

  lemma UpdateDiffers(db: Db, user: Id, artists: seq<Id>, rule: Rule, now: Time)
    ensures RulesDiffer(db, UpdateRules(db, user, artists, rule, now), user, Positive(artists))
  {
    var ids := Positive(artists);
    WithRulesDiffers(db.policy, user, ids, rule);
    RealignDiffers(db, db.(policy := WithRules(db.policy, user, ids, rule)), user, ids, user, ids, now);
  }

  lemma ModeDiffers(db: Db, user: Id, artists: seq<Id>, mode: Mode, now: Time)
    ensures RulesDiffer(db, SetMode(db, user, artists, mode, now), user, Positive(artists))
  {
    var ids := Positive(artists);
    WithModesDiffers(db.policy, user, ids, mode);
    RealignDiffers(db, db.(policy := WithModes(db.policy, user, ids, mode)), user, ids, user, ids, now);
  }

  lemma PauseDiffers(db: Db, user: Id, artist: Id, until: Option<Time>, now: Time)
    ensures RulesDiffer(db, PauseFollow(db, user, artist, until, now), user, {artist})
  {
    var rule := RuleOf(db.policy, user, artist).(pausedUntil := until);
    WithRulesDiffers(db.policy, user, {artist}, rule);
    var db1 := db.(policy := WithRules(db.policy, user, {artist}, rule));
    RealignDiffers(db, db1, user, {artist}, user, Positive([artist]), now);
  }

  /** A rule step changes what its member follows, and how, for its artists only. */
  lemma RuleStepDiffers(db: Db, tx: Tx)
    requires ChangesRules(tx)
    ensures RulesDiffer(db, Commit(db, tx), RuleUser(tx), RuleArtists(tx))
  {
    if tx.FollowTx? || tx.UnfollowTx? {
      FollowDiffers(db, tx.user, tx.artist, tx.now);
    } else if tx.Rules? {
      UpdateDiffers(db, tx.user, tx.artists, tx.rule, tx.now);
    } else if tx.Modes? {
      ModeDiffers(db, tx.user, tx.artists, tx.mode, tx.now);
    } else {
      PauseDiffers(db, tx.user, tx.artist, tx.until, tx.now);
    }
  }

  /** Changing one member's follows leaves the governor of every event that names none of the artists alone. */
  lemma RuleStepIsLocal(db: Db, tx: Tx, e: Event)
    requires ChangesRules(tx) && !Correlated(db.policy, e, RuleUser(tx), RuleArtists(tx))
    ensures GovernorOf(Commit(db, tx).policy, e) == GovernorOf(db.policy, e)
  {
    RuleStepDiffers(db, tx);
    GovernorIsLocal(db.policy, Commit(db, tx).policy, RuleUser(tx), RuleArtists(tx), e);
  }

  lemma EnqueueKeepsPolicy(db: Db, a: Admission)
    ensures Enqueue(db, a).db.policy == db.policy
  {
    match Governor(db.policy, a.user, a.release, a.moment)
    case None =>
    case Some(c) =>
      GateKeepsPolicy(db, a);
      var deferred := ResumesAt(c.rule, a.now);
      InsertKeepsPolicy(db, a, QueuesImmediate(c.rule, a.now) || deferred.Some?, OrElse(deferred, a.now));
  }

  lemma AdmissionKeepsPolicy(db: Db, tx: Tx)
    requires Admits(tx)
    ensures Commit(db, tx).policy == db.policy
  {
    if tx.ApproveTx? {
      EnqueueKeepsPolicy(db, tx.a.(bypass := true));
    } else {
      EnqueueKeepsPolicy(db, tx.a);
    }
  }

  lemma OtherTxKeepsPolicy(db: Db, tx: Tx)
    requires !ChangesRules(tx) && !tx.FollowOnlyTx? && !tx.EditPolicyTx? && !Admits(tx)
    ensures Commit(db, tx).policy == db.policy
  {
    if tx.DigestTx? {
      DigestSparesDeliveries(db, tx.plan);
    }
  }

  /** Apart from edits and follows, only rule steps change who governs. */
  lemma OnlyRuleStepsMoveGovernors(s: Sys, step: Step)
    requires step.Transact? ==> !step.tx.EditPolicyTx? && !step.tx.FollowOnlyTx? && !ChangesRules(step.tx)
    ensures Next(s, step).db.policy == s.db.policy
  {
    if step.Worker? && step.key in s.work {
      WorkerWrites(s.db, step.key, s.work[step.key], step.action);
    } else if step.Transact? && Admits(step.tx) {
      AdmissionKeepsPolicy(s.db, step.tx);
    } else if step.Transact? {
      OtherTxKeepsPolicy(s.db, step.tx);
    }
  }

  /** Rule steps hit no claimed delivery, and edits keep what open deliveries read. */
  ghost predicate SparesClaims(s: Sys, step: Step) {
    step.Transact? ==>
      && (step.tx.EditPolicyTx? ==> KeepsReadings(s.db, step.tx))
      && (ChangesRules(step.tx) ==> HitsNoClaim(s.db, step.tx))
  }

  ghost predicate NotNewlyDeferred(db: Db, db': Db, eid: Id, clock: Time) {
    DeferredUntil(db'.policy, db'.events, eid, clock).Some? ==> DeferredUntil(db.policy, db.events, eid, clock).Some?
  }

  lemma UnmovedKeepsDeferral(db: Db, db': Db, eid: Id, clock: Time)
    requires eid in db.events && eid in db'.events && db'.events[eid] == db.events[eid]
    requires GovernorOf(db'.policy, db.events[eid]) == GovernorOf(db.policy, db.events[eid])
    ensures NotNewlyDeferred(db, db', eid, clock)
  {
  }

  lemma EditStartsNoDeferral(db: Db, tx: Tx, id: Id, clock: Time)
    requires tx.EditPolicyTx? && KeepsReadings(db, tx) && id in db.deliveries && Open(db.deliveries[id])
    ensures NotNewlyDeferred(db, Commit(db, tx), db.deliveries[id].parent, clock)
  {
    EditKeepsDeferral(db, tx, id, clock);
  }

  lemma FollowOnlyStartsNoDeferral(db: Db, user: Id, artist: Id, eid: Id, clock: Time)
    requires PolicyInv(db.policy)
    ensures NotNewlyDeferred(db, FollowOnly(db, user, artist), eid, clock)
  {
    FollowOnlyUndefers(db, user, artist, eid, clock);
  }

  lemma CommitKeepsEvent(db: Db, tx: Tx, e: Id)
    requires DbInv(db) && Feasible(db, tx) && e in db.events
    ensures e in Commit(db, tx).events && Commit(db, tx).events[e] == db.events[e]
  {
    CommitKeeps(db, tx);
  }

  lemma StepKeepsEvent(s: Sys, step: Step, e: Id)
    requires SysInv(s) && Allowed(s, step) && e in s.db.events
    ensures e in Next(s, step).db.events && Next(s, step).db.events[e] == s.db.events[e]
  {
    if step.Transact? {
      CommitKeepsEvent(s.db, step.tx, e);
    } else if step.Worker? && step.key in s.work {
      WorkerWrites(s.db, step.key, s.work[step.key], step.action);
    } else if step.Claim? {
      LeaseKeepsEvents(s.db, step.q, step.ids, step.owner, step.expires);
    }
  }

  lemma StepStartsNoDeferral(s: Sys, step: Step, id: Id)
    requires SysInv(s) && Allowed(s, step) && SparesClaims(s, step)
    requires id in s.db.deliveries && s.db.deliveries[id].owner.Some?
    ensures NotNewlyDeferred(s.db, Next(s, step).db, s.db.deliveries[id].parent, s.clock)
  {
    var e := s.db.deliveries[id].parent;
    assert RowInv(s.db.deliveries[id]);
    if step.Transact? && step.tx.EditPolicyTx? {
      EditStartsNoDeferral(s.db, step.tx, id, s.clock);
    } else if step.Transact? && step.tx.FollowOnlyTx? {
      FollowOnlyStartsNoDeferral(s.db, step.tx.user, step.tx.artist, e, s.clock);
    } else {
      StepKeepsEvent(s, step, e);
      if step.Transact? && ChangesRules(step.tx) {
        RuleStepIsLocal(s.db, step.tx, s.db.events[e]);
      } else {
        OnlyRuleStepsMoveGovernors(s, step);
      }
      UnmovedKeepsDeferral(s.db, Next(s, step).db, e, s.clock);
    }
  }

  lemma ClaimedBefore(s: Sys, step: Step, id: Id)
    requires SysInv(s) && Allowed(s, step)
    requires id in Next(s, step).db.deliveries && Next(s, step).db.deliveries[id].owner.Some?
    ensures id in s.db.deliveries && Next(s, step).db.deliveries[id].parent == s.db.deliveries[id].parent
    ensures s.db.deliveries[id].owner.Some? || (step.Claim? && step.q.Deliveries? && id in step.ids)
  {
    if step.Transact? {
      NextKeepsTransact(s, step.tx);
    } else if step.Worker? {
      NextKeepsWorker(s, step.key, step.action);
    }
    StepMovesRow(s, step, Deliveries, id);
    EdgeKeepsRowInv(s.db.deliveries[id], Next(s, step).db.deliveries[id]);
    if Edge(s.db.deliveries[id], Next(s, step).db.deliveries[id]) {
      EdgeTakesNoLease(s.db.deliveries[id], Next(s, step).db.deliveries[id]);
    }
  }

  /**
   As long as rule steps hit no claimed delivery and edits keep readings, no delivery is in flight while its follow
   is paused.
   */
  lemma StaysUndisturbed(s: Sys, step: Step)
    requires SysInv(s) && QueueWaits(s.db, s.clock) && Undisturbed(s.db, s.clock)
    requires Allowed(s, step) && SparesClaims(s, step)
    ensures Undisturbed(Next(s, step).db, Next(s, step).clock)
  {
    var s' := Next(s, step);
    forall id | id in s'.db.deliveries && s'.db.deliveries[id].owner.Some?
      ensures DeferredUntil(s'.db.policy, s'.db.events, s'.db.deliveries[id].parent, s'.clock).None?
    {
      ClaimedBefore(s, step, id);
      if s.db.deliveries[id].owner.Some? {
        StepStartsNoDeferral(s, step, id);
        DeferralOnlyEnds(s.db.policy, s.db.events, s.db.deliveries[id].parent, s.clock, s'.clock);
      } else {
        NoEarlyClaim(s, step, id);
      }
    }
  }

  lemma ConsiderateStepKeepsWaiting(s: Sys, step: Step)
    requires SysInv(s) && QueueWaits(s.db, s.clock) && Undisturbed(s.db, s.clock)
    requires Allowed(s, step) && SparesClaims(s, step)
    requires step.Transact? ==> !AdmissionLeaks(s.db, step.tx, s.clock)
    ensures QueueWaits(Next(s, step).db, Next(s, step).clock)
  {
    if step.Transact? && step.tx.EditPolicyTx? {
      KeptReadingsWait(s.db, step.tx, s.clock);
    }
    StepKeepsWaiting(s, step);
  }

  /**
   Rule steps hit no claimed delivery, edits of catalogue and preferences keep what open deliveries read, and no
   admission leaks through the conflict gate.
   */
  ghost predicate Considerate(s: Sys, steps: seq<Step>)
    decreases |steps|
  {
    steps == [] ||
    (&& Allowed(s, steps[0]) && SparesClaims(s, steps[0])
     && (steps[0].Transact? ==> !AdmissionLeaks(s.db, steps[0].tx, s.clock))
     && Considerate(Next(s, steps[0]), steps[1..]))
  }

  /**
   Pause safety: from an empty database on, in every state of such a run a delivery whose governing follow is
   paused is scheduled no earlier than the end of the pause, and no runner holds it.
   */
  lemma {:induction false} PauseSafe(s: Sys, steps: seq<Step>)
    requires SysInv(s) && QueueWaits(s.db, s.clock) && Undisturbed(s.db, s.clock) && Considerate(s, steps)
    ensures var s' := After(s, steps);
            SysInv(s') && QueueWaits(s'.db, s'.clock) && Undisturbed(s'.db, s'.clock)
    decreases |steps|
  {
    if steps != [] {
      NextKeeps(s, steps[0]);
      ConsiderateStepKeepsWaiting(s, steps[0]);
      StaysUndisturbed(s, steps[0]);
      PauseSafe(Next(s, steps[0]), steps[1..]);
    }
  }

  lemma ReachableStatesArePauseSafe(steps: seq<Step>)
    requires Considerate(START, steps)
    ensures var s := After(START, steps);
            SysInv(s) && QueueWaits(s.db, s.clock) && Undisturbed(s.db, s.clock)
  {
    EmptyInv();
    PauseSafe(START, steps);
  }
}
