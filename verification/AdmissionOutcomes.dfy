/** What an admission leaves in the tables, told by the columns of the follow it is admitted under. */
module AdmissionOutcomes {
  import opened Prelude
  import opened Tables
  import opened Governing
  import opened Transactions
  import opened Eligibility

  // ---- fan-out

  /** The destination was there when the parent was created, is the member's own, enabled, and has no row yet. */
  predicate Awaits(db: Db, t: map<Id, Row>, user: Id, parent: Id, createdAt: Time, d: Id) {
    && d in db.dests && db.dests[d].user == user && db.dests[d].enabled && db.dests[d].createdAt <= createdAt
    && forall id | id in t :: t[id].parent == parent ==> t[id].dest != d
  }

  predicate IsHalted(db: Db, d: Id) {
    (d in db.dests && !db.dests[d].supported) || (d in db.health && db.health[d].status == Paused)
  }

  predicate IsFreshRow(db: Db, r: Row, parent: Id, at: Time) {
    && r.parent == parent && r.attempts == 0 && r.nextAt == at && r.owner == None && r.expires == None
    && r.status == if IsHalted(db, r.dest) then Blocked else Pending
  }

  ghost predicate HasNewRow(t: map<Id, Row>, t': map<Id, Row>, d: Id) {
    exists id :: id in t' && id !in t && t'[id].dest == d
  }

  /** Every waiting destination gets one new row, and the queue changes in no other way. */
  ghost predicate FansOut(
      db: Db, t: map<Id, Row>, t': map<Id, Row>, user: Id, parent: Id, createdAt: Time, at: Time)
  {
    && (forall id | id in t :: id in t' && t'[id] == t[id])
    && (forall id | id in t' && id !in t ::
          IsFreshRow(db, t'[id], parent, at) && Awaits(db, t, user, parent, createdAt, t'[id].dest))
    && (forall a, b | a in t' && a !in t && b in t' && b !in t && t'[a].dest == t'[b].dest :: a == b)
    && (forall d | Awaits(db, t, user, parent, createdAt, d) :: HasNewRow(t, t', d))
  }

  lemma TargetsAwait(db: Db, t: map<Id, Row>, user: Id, parent: Id, createdAt: Time, d: Id)
    ensures d in Targets(db, t, user, parent, createdAt) <==> Awaits(db, t, user, parent, createdAt, d)
  {
  }

  lemma FanOutReaches(
      db: Db, t: map<Id, Row>, user: Id, parent: Id, createdAt: Time, rows: map<Id, Id>, at: Time)
    requires Fresh(t, rows, Targets(db, t, user, parent, createdAt))
    ensures FansOut(db, t, FanOut(db, t, parent, rows, at), user, parent, createdAt, at)
  {
    var t' := FanOut(db, t, parent, rows, at);
    forall id | id in t' && id !in t
      ensures IsFreshRow(db, t'[id], parent, at) && Awaits(db, t, user, parent, createdAt, t'[id].dest)
    {
      TargetsAwait(db, t, user, parent, createdAt, t'[id].dest);
    }
    forall d | Awaits(db, t, user, parent, createdAt, d)
      ensures HasNewRow(t, t', d)
    {
      TargetsAwait(db, t, user, parent, createdAt, d);
      assert Serves(rows, d);
      var id :| id in rows && rows[id] == d;
      assert id in t' && id !in t && t'[id].dest == d;
    }
  }

  // ---- recording and queueing one event

  /** The event is on record, under its own id if it was already, and nothing else about events changes. */
  ghost predicate Records(db: Db, db': Db, a: Admission) {
    db'.events == if a.eid in db.events then db.events
                  else db.events[a.eid := Event(a.user, a.release, a.moment, a.now)]
  }

  ghost predicate Queues(db: Db, db': Db, a: Admission, at: Time) {
    && a.eid in db'.events
    && FansOut(db, db.deliveries, db'.deliveries, a.user, a.eid, db'.events[a.eid].createdAt, at)
  }

  lemma FanOutReads(db: Db, db': Db, t: map<Id, Row>, parent: Id, rows: map<Id, Id>, at: Time)
    requires db'.dests == db.dests && db'.health == db.health
    ensures FanOut(db', t, parent, rows, at) == FanOut(db, t, parent, rows, at)
  {
    forall id | id in rows
      ensures QueueStatus(db', rows[id]) == QueueStatus(db, rows[id])
    {
    }
    assert FanOut(db', t, parent, rows, at).Keys == FanOut(db, t, parent, rows, at).Keys;
  }

  lemma InsertOutcome(db: Db, a: Admission, queue: bool, at: Time)
    requires Fits(db, a)
    ensures var db' := InsertEvent(db, a, queue, at);
            && Records(db, db', a)
            && (if queue then Queues(db, db', a, at) else db'.deliveries == db.deliveries)
            && db' == db.(events := db'.events, deliveries := db'.deliveries)
  {
    RecordedOutcome(db, a);
    InsertIsFanOut(db, a, queue, at);
    if queue {
      QueuedOutcome(db, a, at);
    }
  }

  lemma RecordedOutcome(db: Db, a: Admission)
    ensures var db' := Recorded(db, a);
            && Records(db, db', a) && db' == db.(events := db'.events)
            && a.eid in db'.events && db'.events[a.eid].createdAt == EventCreated(db, a)
  {
  }

  lemma QueuedOutcome(db: Db, a: Admission, at: Time)
    requires Fits(db, a)
    ensures var db1 := Recorded(db, a);
            Queues(db, db1.(deliveries := FanOut(db1, db.deliveries, a.eid, a.rows, at)), a, at)
  {
    var db1 := Recorded(db, a);
    RecordedOutcome(db, a);
    FanOutReads(db, db1, db.deliveries, a.eid, a.rows, at);
    FanOutReaches(db, db.deliveries, a.user, a.eid, EventCreated(db, a), a.rows, at);
  }

  function Recorded(db: Db, a: Admission): Db {
    if a.eid in db.events then db
    else db.(events := db.events[a.eid := Event(a.user, a.release, a.moment, a.now)])
  }

  lemma InsertIsFanOut(db: Db, a: Admission, queue: bool, at: Time)
    ensures InsertEvent(db, a, queue, at) ==
      if queue then Recorded(db, a).(deliveries := FanOut(Recorded(db, a), db.deliveries, a.eid, a.rows, at))
      else Recorded(db, a)
  {
  }

  // ---- the conflict gate

  ghost predicate IsOnRecord(db: Db, a: Admission) {
    exists id | id in db.events ::
      db.events[id].user == a.user && db.events[id].release == a.release && db.events[id].moment == a.moment
  }

  ghost predicate IsHeld(db: Db, a: Admission, status: HoldStatus) {
    exists h | h in db.holds :: db.holds[h] == Hold(a.user, a.release, a.moment, status)
  }

  /** The open evidence of the release says something; two issues always do, if only by the mark between them. */
  predicate Doubted(db: Db, a: Admission) {
    a.release in db.issues && (|db.issues[a.release]| >= 2 || exists s | s in db.issues[a.release] :: !IsPadding(s))
  }

  predicate IsPadding(s: string) {
    forall c | c in s :: IsSpace(c)
  }

  lemma DoubtedIff(db: Db, a: Admission)
    ensures Doubted(db, a) <==> !Blank(Join(IssuesOf(db, a.release)))
  {
    var parts := IssuesOf(db, a.release);
    if |parts| >= 2 {
      assert Join(parts) == parts[0] + "; " + Join(parts[1..]);
      assert Join(parts)[|parts[0]|] == ';';
    } else if |parts| == 1 {
      assert Blank(parts[0]) <==> IsPadding(parts[0]);
      assert forall s | s in parts :: s == parts[0];
      assert parts[0] in parts;
    }
  }

  /** What the gate makes of an alert, and whether it counts as admitted. */
  ghost predicate Gates(db: Db, db': Db, a: Admission, admitted: bool) {
    if IsOnRecord(db, a) then db' == db && admitted
    else if IsHeld(db, a, Discarded) then db' == db && !admitted
    else if !Doubted(db, a) then
      && admitted && Records(db, db', a) && Queues(db, db', a, a.now)
      && db' == db.(events := db'.events, deliveries := db'.deliveries)
    else if IsHeld(db, a, Held) then db' == db && !admitted
    else
      && !admitted && a.holdId !in db.holds
      && db' == db.(holds := db.holds[a.holdId := Hold(a.user, a.release, a.moment, Held)])
  }

  lemma GateOutcome(db: Db, a: Admission)
    requires Fits(db, a)
    ensures Gates(db, HoldConflicting(db, a).db, a, !HoldConflicting(db, a).held)
  {
    InsertOutcome(db, a, true, a.now);
    DoubtedIff(db, a);
    assert IsOnRecord(db, a) <==> EventExists(db, a.user, a.release, a.moment);
  }

  // ---- admission

  predicate DeliversAtOnce(rule: Rule) {
    rule.mode == Inherit || rule.mode == Immediate
  }

  predicate IsPausedNow(rule: Rule, now: Time) {
    rule.pausedUntil.Some? && now < rule.pausedUntil.value
  }

  /** Members may have immediate alerts held for review, except those an operator bypasses. */
  predicate IsGated(db: Db, a: Admission, rule: Rule) {
    PrefsRow(db.policy, a.user).holdConflicts && !a.bypass && DeliversAtOnce(rule)
  }

  /**
   The event is recorded whatever the mode; an immediate follow queues it for now, or for the end of its pause; a
   digest that is not paused collects it; a paused digest and a disabled follow only keep it on record.
   */
  ghost predicate IsAdmitted(db: Db, db': Db, a: Admission, rule: Rule, admitted: bool) {
    && Records(db, db', a)
    && db' == db.(events := db'.events, deliveries := db'.deliveries)
    && (if DeliversAtOnce(rule)
        then Queues(db, db', a, if IsPausedNow(rule, a.now) then rule.pausedUntil.value else a.now)
        else db'.deliveries == db.deliveries)
    && (admitted <==> DeliversAtOnce(rule) || (rule.mode == Digest && !IsPausedNow(rule, a.now)))
  }

  /** An event that no follow accepts leaves no trace. */
  lemma UnacceptedLeavesNoTrace(db: Db, a: Admission)
    requires forall artist :: !Governs(db.policy, a.user, a.release, a.moment, artist)
    ensures Enqueue(db, a) == Admitted(db, false)
  {
    if Governor(db.policy, a.user, a.release, a.moment).Some? {
      GovernorGoverns(db.policy, a.user, a.release, a.moment);
    }
  }

  lemma GateIsTaken(db: Db, a: Admission, rule: Rule)
    ensures TakesGate(db, a, rule) <==> IsGated(db, a, rule)
  {
    RowsAreRead(db.policy, a.user, 0);
  }

  /** Any other event goes through the gate, or is recorded and queued as the columns of its governing follow say. */
  lemma AdmissionOutcome(db: Db, a: Admission, artist: Id)
    requires Fits(db, a) && Governs(db.policy, a.user, a.release, a.moment, artist)
    ensures var rule, r := RuleRow(db.policy, a.user, artist), Enqueue(db, a);
            if IsGated(db, a, rule) then Gates(db, r.db, a, r.admitted) else IsAdmitted(db, r.db, a, rule, r.admitted)
  {
    var rule := RuleRow(db.policy, a.user, artist);
    ChosenIff(db.policy, a.user, a.release, a.moment, artist);
    GovernorGoverns(db.policy, a.user, a.release, a.moment);
    GateIsTaken(db, a, rule);
    if IsGated(db, a, rule) {
      GateOutcome(db, a);
      assert Enqueue(db, a) == Admitted(HoldConflicting(db, a).db, !HoldConflicting(db, a).held);
    } else {
      UngatedOutcome(db, a, rule);
      assert Enqueue(db, a) == Ungated(db, a, rule);
    }
  }

  /** Admission past the gate, under a given rule. */
  function Ungated(db: Db, a: Admission, rule: Rule): Admitted {
    var deferred := ResumesAt(rule, a.now);
    Admitted(InsertEvent(db, a, QueuesImmediate(rule, a.now) || deferred.Some?, OrElse(deferred, a.now)),
             !EffectiveMode(rule, a.now).Off? || deferred.Some?)
  }

  lemma UngatedOutcome(db: Db, a: Admission, rule: Rule)
    requires Fits(db, a)
    ensures var r := Ungated(db, a, rule); IsAdmitted(db, r.db, a, rule, r.admitted)
  {
    var deferred := ResumesAt(rule, a.now);
    InsertOutcome(db, a, QueuesImmediate(rule, a.now) || deferred.Some?, OrElse(deferred, a.now));
  }

  /** A new destination is the member's own and enabled, and counts from the moment it was added. */
  lemma DestinationOutcome(db: Db, d: Id, user: Id, supported: bool, now: Time)
    requires d !in db.dests
    ensures var db' := AddDestination(db, d, user, supported, now);
            && db' == db.(dests := db.dests[d := db'.dests[d]])
            && db'.dests[d].user == user && db'.dests[d].enabled && db'.dests[d].supported == supported
            && db'.dests[d].createdAt == now
  {
  }

  // ---- digests

  ghost predicate NewRun(db: Db, db': Db, plan: DigestPlan) {
    db'.runs == db.runs[plan.runId := Run(plan.user, plan.now, RunPending)]
  }

  /** A new period gets its run; a pending run without rows is completed; every row is queued for now. */
  lemma DigestOutcome(db: Db, plan: DigestPlan)
    requires FitsDigest(db, plan)
    ensures var db' := QueueDigest(db, plan);
            match plan.found
            case None =>
              && NewRun(db, db', plan) && db' == db.(runs := db'.runs, digests := db'.digests)
              && FansOut(db, db.digests, db'.digests, plan.user, plan.runId, plan.now, plan.now)
            case Some(run) =>
              if db.runs[run].status == RunPending && IsEmptyRun(db, run) then
                && db' == db.(digests := db'.digests)
                && FansOut(db, db.digests, db'.digests, plan.user, run, db.runs[run].createdAt, plan.now)
              else db' == db
  {
    match plan.found
    case None => NewRunOutcome(db, plan);
    case Some(run) => FoundRunOutcome(db, plan, run);
  }

  lemma NewRunOutcome(db: Db, plan: DigestPlan)
    requires FitsDigest(db, plan) && plan.found == None
    ensures var db' := QueueDigest(db, plan);
            && NewRun(db, db', plan) && db' == db.(runs := db'.runs, digests := db'.digests)
            && FansOut(db, db.digests, db'.digests, plan.user, plan.runId, plan.now, plan.now)
  {
    var db1 := db.(runs := db.runs[plan.runId := Run(plan.user, plan.now, RunPending)]);
    FanOutReads(db, db1, db.digests, plan.runId, plan.rows, plan.now);
    FanOutReaches(db, db.digests, plan.user, plan.runId, plan.now, plan.rows, plan.now);
    NewRunFansOut(db, plan, db1);
  }

  lemma NewRunFansOut(db: Db, plan: DigestPlan, db1: Db)
    requires plan.found == None && db1 == db.(runs := db.runs[plan.runId := Run(plan.user, plan.now, RunPending)])
    ensures QueueDigest(db, plan) == db1.(digests := FanOut(db1, db.digests, plan.runId, plan.rows, plan.now))
  {
  }

  predicate IsEmptyRun(db: Db, run: Id) {
    forall id | id in db.digests :: db.digests[id].parent != run
  }

  lemma FoundRunOutcome(db: Db, plan: DigestPlan, run: Id)
    requires FitsDigest(db, plan) && plan.found == Some(run)
    ensures var db' := QueueDigest(db, plan);
            if db.runs[run].status == RunPending && IsEmptyRun(db, run) then
              && db' == db.(digests := db'.digests)
              && FansOut(db, db.digests, db'.digests, plan.user, run, db.runs[run].createdAt, plan.now)
            else db' == db
  {
    FanOutReaches(db, db.digests, plan.user, run, db.runs[run].createdAt, plan.rows, plan.now);
    FoundRunFansOut(db, plan, run);
  }

  lemma FoundRunFansOut(db: Db, plan: DigestPlan, run: Id)
    requires plan.found == Some(run) && run in db.runs
    ensures QueueDigest(db, plan) ==
      if db.runs[run].status == RunPending && IsEmptyRun(db, run)
      then db.(digests := FanOut(db, db.digests, run, plan.rows, plan.now)) else db
  {
  }
}
