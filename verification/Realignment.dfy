/** What rescheduling the queue after a rule change achieves. */
module Realignment {
  import opened Prelude
  import opened Tables
  import opened Governing
  import opened Transactions
  import opened Eligibility

  /**
   The schedule a realigned delivery gets: the end of the pause, or the backoff if that is later and there is one;
   without a pause an unattempted delivery is due now at the latest, an attempted one keeps its backoff, and one that no
   follow governs is left alone.
   */
  lemma RealignedCases(db: Db, r: Row, now: Time)
    ensures var r' := RealignedRow(db, r, now);
            var until := DeferredUntil(db.policy, db.events, r.parent, now);
            && r' == r.(nextAt := r'.nextAt)
            && (until.Some? && r.attempts == 0 ==> r'.nextAt == until.value)
            && (until.Some? && r.attempts > 0 ==> r'.nextAt == Max(until.value, r.nextAt))
            && (until.None? && r.attempts > 0 ==> r'.nextAt == r.nextAt)
            && (until.None? && r.attempts == 0 && IsGoverned(db, r) ==> r'.nextAt == Min(r.nextAt, now))
            && (!IsGoverned(db, r) ==> r'.nextAt == r.nextAt)
  {
    GovernedIff(db, r);
  }

  lemma GovernedIff(db: Db, r: Row)
    ensures IsGoverned(db, r) <==> r.parent in db.events && GovernorOf(db.policy, db.events[r.parent]).Some?
  {
    if r.parent in db.events && GovernorOf(db.policy, db.events[r.parent]).Some? {
      var e := db.events[r.parent];
      GovernorGoverns(db.policy, e.user, e.release, e.moment);
      assert GovernsRow(db, r, GovernorOf(db.policy, e).value.artist);
    }
    if artist :| GovernsRow(db, r, artist) {
      var e := db.events[r.parent];
      ChosenIff(db.policy, e.user, e.release, e.moment, artist);
    }
  }

  /** Some follow governs the event of the row. */
  ghost predicate IsGoverned(db: Db, r: Row) {
    exists artist :: GovernsRow(db, r, artist)
  }

  ghost predicate GovernsRow(db: Db, r: Row, artist: Id) {
    && r.parent in db.events
    && var e := db.events[r.parent]; Governs(db.policy, e.user, e.release, e.moment, artist)
  }

  /** A queued row on which realigning has no effect. */
  predicate Aligned(db: Db, r: Row, now: Time) {
    Open(r) ==> RealignedRow(db, r, now) == r
  }

  /** Reschedules the whole queue. */
  function RealignAll(db: Db, now: Time): Db {
    db.(deliveries := map id | id in db.deliveries ::
      if Open(db.deliveries[id]) then RealignedRow(db, db.deliveries[id], now) else db.deliveries[id])
  }

  lemma RealignedRowIsAligned(db: Db, r: Row, now: Time)
    ensures RealignedRow(db, RealignedRow(db, r, now), now) == RealignedRow(db, r, now)
  {
  }

  /** Rows are realigned from the policy and the events only. */
  lemma RealignedRowReads(db: Db, db': Db, r: Row, now: Time)
    requires db'.policy == db.policy && db'.events == db.events
    ensures RealignedRow(db', r, now) == RealignedRow(db, r, now)
  {
  }

  lemma RealignsRow(db: Db, user: Id, artists: set<Id>, now: Time, id: Id)
    requires id in db.deliveries
    ensures var db' := Realign(db, user, artists, now);
            && id in db'.deliveries && db'.policy == db.policy && db'.events == db.events
            && db'.deliveries[id] == if user >= 1 && Affected(db, db.deliveries[id], user, artists)
                                     then RealignedRow(db, db.deliveries[id], now) else db.deliveries[id]
  {
  }

  lemma RowTwice(db: Db, user: Id, artists: set<Id>, now: Time, id: Id)
    requires id in db.deliveries
    ensures var db1 := Realign(db, user, artists, now);
            var db2 := Realign(db1, user, artists, now);
            id in db1.deliveries && id in db2.deliveries && db2.deliveries[id] == db1.deliveries[id]
  {
    var db1 := Realign(db, user, artists, now);
    var r := db.deliveries[id];
    RealignsRow(db, user, artists, now, id);
    RealignsRow(db1, user, artists, now, id);
    RealignedRowIsAligned(db, r, now);
    RealignedRowReads(db, db1, db1.deliveries[id], now);
    AffectedReads(db, db1, r, db1.deliveries[id], user, artists);
  }

  lemma AffectedReads(db: Db, db': Db, r: Row, r': Row, user: Id, artists: set<Id>)
    requires db'.policy == db.policy && db'.events == db.events && r' == r.(nextAt := r'.nextAt)
    ensures Affected(db', r', user, artists) <==> Affected(db, r, user, artists)
  {
  }

  /** Realigning twice at the same instant does what realigning once does. */
  lemma RealignIsIdempotent(db: Db, user: Id, artists: set<Id>, now: Time)
    ensures Realign(Realign(db, user, artists, now), user, artists, now) == Realign(db, user, artists, now)
  {
    var db1 := Realign(db, user, artists, now);
    var db2 := Realign(db1, user, artists, now);
    forall id | id in db.deliveries
      ensures id in db1.deliveries && id in db2.deliveries && db2.deliveries[id] == db1.deliveries[id]
    {
      RowTwice(db, user, artists, now, id);
    }
    assert db2.deliveries == db1.deliveries;
  }

  // ---- the reach of a rule change

  /** Every queued row that the realignment does not visit is aligned already. */
  ghost predicate RestAligned(db: Db, user: Id, artists: set<Id>, now: Time) {
    forall id | id in db.deliveries && !Affected(db, db.deliveries[id], user, artists) ::
      Aligned(db, db.deliveries[id], now)
  }

  lemma RealignsAllRow(db: Db, now: Time, id: Id)
    requires id in db.deliveries
    ensures var r := db.deliveries[id];
            id in RealignAll(db, now).deliveries
            && RealignAll(db, now).deliveries[id] == if Open(r) then RealignedRow(db, r, now) else r
  {
  }

  lemma RowsAgree(db: Db, user: Id, artists: set<Id>, now: Time, id: Id)
    requires user >= 1 && id in db.deliveries
    ensures var local, global := Realign(db, user, artists, now).deliveries, RealignAll(db, now).deliveries;
            && id in local && id in global
            && (if Affected(db, db.deliveries[id], user, artists) || Aligned(db, db.deliveries[id], now)
                then local[id] == global[id] else local[id] != global[id])
  {
    RealignsRow(db, user, artists, now, id);
    RealignsAllRow(db, now, id);
  }

  lemma RestAlignedAgrees(db: Db, user: Id, artists: set<Id>, now: Time)
    requires user >= 1 && RestAligned(db, user, artists, now)
    ensures Realign(db, user, artists, now) == RealignAll(db, now)
  {
    var local, global := Realign(db, user, artists, now), RealignAll(db, now);
    forall id | id in db.deliveries
      ensures local.deliveries[id] == global.deliveries[id]
    {
      RowsAgree(db, user, artists, now, id);
    }
    assert local.deliveries == global.deliveries;
  }

  /** Realigning for some follows does what rescheduling the whole queue does exactly when the rest is aligned. */
  lemma LocalRealignIsGlobal(db: Db, user: Id, artists: set<Id>, now: Time)
    requires user >= 1
    ensures Realign(db, user, artists, now) == RealignAll(db, now) <==> RestAligned(db, user, artists, now)
  {
    if RestAligned(db, user, artists, now) {
      RestAlignedAgrees(db, user, artists, now);
    } else {
      var id :| id in db.deliveries && !Affected(db, db.deliveries[id], user, artists)
        && !Aligned(db, db.deliveries[id], now);
      RowsAgree(db, user, artists, now, id);
    }
  }

  /** What decides the schedule of the row is the same before and after. */
  ghost predicate SameSchedule(db: Db, db': Db, r: Row) {
    && (r.parent in db.events ==>
          GovernorOf(db'.policy, db.events[r.parent]) == GovernorOf(db.policy, db.events[r.parent]))
    && forall at ::
         DeferredUntil(db'.policy, db'.events, r.parent, at) == DeferredUntil(db.policy, db.events, r.parent, at)
  }

  lemma OutOfReach(db: Db, p: Policy, user: Id, artists: set<Id>, r: Row)
    requires DiffersOnlyAt(db.policy, p, user, artists) && Open(r)
    requires !Affected(db.(policy := p), r, user, artists)
    ensures SameSchedule(db, db.(policy := p), r)
  {
    if r.parent in db.events {
      GovernorIsLocal(db.policy, p, user, artists, db.events[r.parent]);
    }
  }

  lemma SameScheduleKeepsAlignment(db: Db, db': Db, r: Row, now: Time)
    requires SameSchedule(db, db', r) && db'.events == db.events
    ensures Aligned(db', r, now) <==> Aligned(db, r, now)
  {
  }

  /**
   The local change restores the global schedule: whatever state the queue was in, afterwards every delivery within
   reach of the change is aligned with its present governor; every other one keeps its row, its governor and its
   deferral, and is aligned exactly if it was before.
   */
  lemma LocalRealignRestores(db: Db, p: Policy, user: Id, artists: set<Id>, now: Time, id: Id)
    requires DiffersOnlyAt(db.policy, p, user, artists) && user >= 1 && id in db.deliveries
    ensures var r := db.deliveries[id];
            var db' := Realign(db.(policy := p), user, artists, now);
            && id in db'.deliveries
            && if Affected(db.(policy := p), r, user, artists)
               then db'.deliveries[id] == RealignedRow(db', r, now) && Aligned(db', db'.deliveries[id], now)
               else db'.deliveries[id] == r
                    && (Open(r) ==> SameSchedule(db, db', r) && (Aligned(db', r, now) <==> Aligned(db, r, now)))
  {
    var r := db.deliveries[id];
    var db1 := db.(policy := p);
    var db' := Realign(db1, user, artists, now);
    RealignsRow(db1, user, artists, now, id);
    if Affected(db1, r, user, artists) {
      RealignedRowIsAligned(db1, r, now);
      RealignedRowReads(db1, db', r, now);
      RealignedRowReads(db1, db', RealignedRow(db1, r, now), now);
    } else if Open(r) {
      OutOfReach(db, p, user, artists, r);
      assert SameSchedule(db, db', r);
      SameScheduleKeepsAlignment(db, db', r, now);
    }
  }

  // ---- what a rule change means for the queue

  /** The schedule a delivery should have under this rule: no earlier than its pause, else due unless it backs off. */
  predicate Follows(rule: Rule, r: Row, r': Row, now: Time) {
    var pausing := (rule.mode == Inherit || rule.mode == Immediate)
                   && rule.pausedUntil.Some? && now < rule.pausedUntil.value;
    && r' == r.(nextAt := r'.nextAt)
    && (pausing && r.attempts == 0 ==> r'.nextAt == rule.pausedUntil.value)
    && (pausing && r.attempts > 0 ==> r'.nextAt == Max(r.nextAt, rule.pausedUntil.value))
    && (!pausing && r.attempts == 0 ==> r'.nextAt == Min(r.nextAt, now))
    && (!pausing && r.attempts > 0 ==> r'.nextAt == r.nextAt)
  }

  lemma GovernedRowFollows(db: Db, r: Row, artist: Id, now: Time)
    requires GovernsRow(db, r, artist)
    ensures Follows(RuleRow(db.policy, db.events[r.parent].user, artist), r, RealignedRow(db, r, now), now)
  {
    var rule := RuleRow(db.policy, db.events[r.parent].user, artist);
    RealignedCases(db, r, now);
    var until := DeferredUntil(db.policy, db.events, r.parent, now);
    if until.Some? {
      DefersIff(db.policy, db.events, r.parent, artist, now, until.value);
    }
    if rule.pausedUntil.Some? {
      DefersIff(db.policy, db.events, r.parent, artist, now, rule.pausedUntil.value);
    }
  }

  /** An open delivery of the member that the follow of one of these artists governs. */
  ghost predicate IsTheirs(db: Db, r: Row, user: Id, artists: set<Id>, artist: Id) {
    Open(r) && artist in artists && GovernsRow(db, r, artist) && db.events[r.parent].user == user
  }

  lemma TheirsAreAffected(db: Db, r: Row, user: Id, artists: set<Id>, artist: Id)
    requires IsTheirs(db, r, user, artists, artist)
    ensures Affected(db, r, user, artists)
  {
    ListedIsAssociated(db.policy.releases[db.events[r.parent].release], artist);
  }

  /** After a realignment every open delivery these follows govern has the schedule their rules ask for. */
  lemma RealignFollows(db: Db, user: Id, artists: set<Id>, now: Time, id: Id, artist: Id)
    requires user >= 1 && id in db.deliveries && IsTheirs(db, db.deliveries[id], user, artists, artist)
    ensures var db' := Realign(db, user, artists, now);
            id in db'.deliveries
            && Follows(RuleRow(db.policy, user, artist), db.deliveries[id], db'.deliveries[id], now)
  {
    TheirsAreAffected(db, db.deliveries[id], user, artists, artist);
    RealignsRow(db, user, artists, now, id);
    GovernedRowFollows(db, db.deliveries[id], artist, now);
  }

  /** Every open delivery that one of these follows governs now has the schedule its rule asks for. */
  ghost predicate Reschedules(db: Db, db': Db, user: Id, artists: set<Id>, now: Time) {
    forall id, artist | id in db.deliveries && IsTheirs(db', db.deliveries[id], user, artists, artist) ::
      id in db'.deliveries
      && Follows(RuleRow(db'.policy, user, artist), db.deliveries[id], db'.deliveries[id], now)
  }

  lemma RealignReschedules(db: Db, p: Policy, user: Id, artists: set<Id>, now: Time)
    requires user >= 1
    ensures var db' := Realign(db.(policy := p), user, artists, now);
            && db'.policy == p && Reschedules(db, db', user, artists, now)
            && db' == db.(policy := p, deliveries := db'.deliveries)
  {
    var db1 := db.(policy := p);
    var db' := Realign(db1, user, artists, now);
    forall id, artist | id in db.deliveries && IsTheirs(db', db.deliveries[id], user, artists, artist)
      ensures id in db'.deliveries
           && Follows(RuleRow(db'.policy, user, artist), db.deliveries[id], db'.deliveries[id], now)
    {
      assert IsTheirs(db1, db1.deliveries[id], user, artists, artist);
      RealignFollows(db1, user, artists, now, id, artist);
    }
  }

  /** Deliveries of other members, and of releases that list none of the artists, are left alone. */
  lemma RealignSpares(db: Db, user: Id, artists: set<Id>, now: Time, id: Id)
    requires id in db.deliveries
    requires var r := db.deliveries[id];
             && r.parent in db.events && db.events[r.parent].user == user
             && db.events[r.parent].release in db.policy.releases
             ==> forall a | a in artists :: !IsListed(db.policy.releases[db.events[r.parent].release], a)
    ensures var db' := Realign(db, user, artists, now); id in db'.deliveries && db'.deliveries[id] == db.deliveries[id]
  {
    var r := db.deliveries[id];
    if r.parent in db.events && db.events[r.parent].release in db.policy.releases {
      forall a | a in artists
        ensures Associated(db.policy.releases[db.events[r.parent].release], a)
           <==> IsListed(db.policy.releases[db.events[r.parent].release], a)
      {
        ListedIsAssociated(db.policy.releases[db.events[r.parent].release], a);
      }
    }
  }

  // ---- the rule changes

  /** The member has these rule rows now, and nothing else of the policy changes. */
  ghost predicate RulesBecome(p: Policy, p': Policy, user: Id, rules: map<Id, Rule>) {
    && p' == p.(rules := p'.rules)
    && (forall a | a in rules :: (user, a) in p'.rules && p'.rules[(user, a)] == rules[a])
    && (forall u, a | u != user || a !in rules ::
          ((u, a) in p'.rules <==> (u, a) in p.rules)
          && ((u, a) in p.rules ==> p'.rules[(u, a)] == p.rules[(u, a)]))
  }

  /**
   Pausing a follow, or lifting its pause, changes that column alone and reschedules every open delivery the follow
   then governs; a follow that does not exist changes nothing.
   */
  lemma PauseOutcome(db: Db, user: Id, artist: Id, until: Option<Time>, now: Time)
    requires user >= 1
    ensures var db' := PauseFollow(db, user, artist, until, now);
            if artist >= 1 && (user, artist) in db.policy.follows then
              && RulesBecome(db.policy, db'.policy, user,
                   map[artist := RuleRow(db.policy, user, artist).(pausedUntil := until)])
              && Reschedules(db, db', user, {artist}, now)
              && db' == db.(policy := db'.policy, deliveries := db'.deliveries)
            else db' == db
  {
    if artist >= 1 && (user, artist) in db.policy.follows {
      var rule := RuleOf(db.policy, user, artist).(pausedUntil := until);
      var p := WithRules(db.policy, user, {artist}, rule);
      RowsAreRead(db.policy, user, artist);
      assert Positive([artist]) == {artist};
      RealignReschedules(db, p, user, {artist}, now);
    }
  }

  /** Lifting a pause makes every unattempted open delivery that the follow governs due. */
  lemma LiftingAPauseReleases(db: Db, user: Id, artist: Id, until: Option<Time>, now: Time, id: Id)
    requires user >= 1 && artist >= 1 && (user, artist) in db.policy.follows && id in db.deliveries
    requires until.Some? ==> until.value <= now
    requires IsTheirs(PauseFollow(db, user, artist, until, now), db.deliveries[id], user, {artist}, artist)
    ensures id in PauseFollow(db, user, artist, until, now).deliveries
    ensures var r := PauseFollow(db, user, artist, until, now).deliveries[id];
            if r.attempts == 0 then r.nextAt <= now else r == db.deliveries[id]
  {
    PauseOutcome(db, user, artist, until, now);
  }

  /** The ids a request may name. */
  function Ids(artists: seq<Id>): set<Id> {
    set a | a in artists && a > 0
  }

  predicate AllFollowed(p: Policy, user: Id, ids: set<Id>) {
    ids != {} && forall a | a in ids :: (user, a) in p.follows
  }

  /** All requested follows get the rule and their deliveries are rescheduled, or nothing changes. */
  lemma UpdateOutcome(db: Db, user: Id, artists: seq<Id>, rule: Rule, now: Time)
    ensures var db', ids := UpdateRules(db, user, artists, rule, now), Ids(artists);
            if user >= 1 && AllFollowed(db.policy, user, ids) then
              && RulesBecome(db.policy, db'.policy, user, map a | a in ids :: rule)
              && Reschedules(db, db', user, ids, now)
              && db' == db.(policy := db'.policy, deliveries := db'.deliveries)
            else db' == db
  {
    var ids := Ids(artists);
    assert Positive(artists) == ids;
    if user >= 1 && AllFollowed(db.policy, user, ids) {
      assert exists a :: a in ids;
      RealignReschedules(db, WithRules(db.policy, user, ids, rule), user, ids, now);
    }
  }

  /** Only the mode of the requested follows' rule rows changes, for all of them or none. */
  lemma ModeOutcome(db: Db, user: Id, artists: seq<Id>, mode: Mode, now: Time)
    requires user >= 1
    ensures var db', ids := SetMode(db, user, artists, mode, now), Ids(artists);
            if AllFollowed(db.policy, user, ids) then
              && RulesBecome(db.policy, db'.policy, user,
                   map a | a in ids && (user, a) in db.policy.rules :: db.policy.rules[(user, a)].(mode := mode))
              && Reschedules(db, db', user, ids, now)
              && db' == db.(policy := db'.policy, deliveries := db'.deliveries)
            else db' == db
  {
    var ids := Ids(artists);
    assert Positive(artists) == ids;
    if AllFollowed(db.policy, user, ids) {
      assert exists a :: a in ids;
      RealignReschedules(db, WithModes(db.policy, user, ids, mode), user, ids, now);
      ModesBecome(db.policy, user, ids, mode);
    }
  }

  lemma ModesBecome(p: Policy, user: Id, ids: set<Id>, mode: Mode)
    ensures RulesBecome(p, WithModes(p, user, ids, mode), user,
              map a | a in ids && (user, a) in p.rules :: p.rules[(user, a)].(mode := mode))
  {
  }

  /** A new follow gets the default rule, an old one keeps its own; deliveries it governs are rescheduled. */
  lemma FollowOutcome(db: Db, user: Id, artist: Id, now: Time)
    requires user >= 1 && artist >= 1
    ensures var db' := Follow(db, user, artist, now);
            && db'.policy.follows == db.policy.follows + {(user, artist)}
            && RulesBecome(db.policy.(follows := db'.policy.follows), db'.policy, user,
                 map[artist := RuleRow(db.policy, user, artist)])
            && Reschedules(db, db', user, {artist}, now)
            && db' == db.(policy := db'.policy, deliveries := db'.deliveries)
  {
    var p := WithFollow(db.policy, user, artist);
    assert Positive([artist]) == {artist};
    RealignReschedules(db, p, user, {artist}, now);
  }

  /** An unfollow takes follow and rule away, and nothing else from the policy. */
  lemma UnfollowOutcome(db: Db, user: Id, artist: Id, now: Time)
    ensures var p' := Unfollow(db, user, artist, now).policy;
            if (user, artist) in db.policy.follows then
              && p'.follows == db.policy.follows - {(user, artist)} && p'.rules == db.policy.rules - {(user, artist)}
              && p' == db.policy.(follows := p'.follows, rules := p'.rules)
            else Unfollow(db, user, artist, now) == db
  {
  }
}
