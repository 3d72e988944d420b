/** Runs from the empty database showing that the exceptions named by the protocol theorems do occur. */
module ProtocolGaps {
  import opened Prelude
  import opened Tables
  import opened Governing
  import opened Transactions
  import opened RowAutomaton
  import opened Invariants
  import opened DeliverySystem
  import opened ProtocolSafety
  import opened RunSafety
  import opened Realignment
  import opened PauseGaps
  import opened PauseRun

  // ---- runs, step by step

  ghost predicate Reaches(s: Sys, steps: seq<Step>, t: Sys) {
    Runs(s, steps) && After(s, steps) == t
  }

  lemma Staying(s: Sys)
    ensures Reaches(s, [], s)
  {
  }

  lemma Stepping(s: Sys, step: Step, t: Sys, rest: seq<Step>, u: Sys)
    requires Allowed(s, step) && Next(s, step) == t && Reaches(t, rest, u)
    ensures Reaches(s, [step] + rest, u)
  {
    assert ([step] + rest)[1..] == rest;
  }

  lemma Following(s: Sys, a: seq<Step>, t: Sys, b: seq<Step>, u: Sys)
    requires Reaches(s, a, t) && Reaches(t, b, u)
    ensures Reaches(s, a + b, u)
  {
    RunsJoin(s, a, b);
  }

  lemma {:induction false} ConsiderateRuns(s: Sys, steps: seq<Step>)
    requires PauseSafety.Considerate(s, steps)
    ensures Runs(s, steps)
    decreases |steps|
  {
    if steps != [] {
      ConsiderateRuns(Next(s, steps[0]), steps[1..]);
    }
  }

  /** A release is catalogued and followed, a destination added, and the release announced. */
  lemma QueueingRun() returns (steps: seq<Step>)
    ensures Reaches(START, steps, Sys(Queued(DEFAULT_RULE, 0), 0, map[]))
  {
    var end := Queued(DEFAULT_RULE, 0);
    AdmitLeads([], end);
    AddLeads([ADMIT] + [], end);
    FollowLeads([ADD] + ([ADMIT] + []), end);
    EditLeads([FOLLOW] + ([ADD] + ([ADMIT] + [])), end);
    var txs := [EDIT] + ([FOLLOW] + ([ADD] + ([ADMIT] + [])));
    LeadsIsConsiderate(EMPTY, txs, end);
    steps := Steps(txs);
    ConsiderateRuns(START, steps);
  }

  // ---- one delivery and its runner

  const RECORD := Worker(KEY, Record(true))

  /** The delivery with these columns, at a destination of this health. */
  function Waiting(attempts: nat, at: Time, health: map<Id, Health>): Db {
    Queued(DEFAULT_RULE, 0).(
      deliveries := map[1 := Row(1, 1, Pending, attempts, at, None, None)], health := health)
  }

  function ClaimedBy(owner: string, attempts: nat, at: Time, expires: Time, health: map<Id, Health>): Db {
    Queued(DEFAULT_RULE, 0).(
      deliveries := map[1 := Row(1, 1, Pending, attempts, at, Some(owner), Some(expires))], health := health)
  }

  function ClaimAt(owner: string, now: Time, expires: Time): Step {
    Claim(Deliveries, now, {1}, owner, expires)
  }

  function Doing(attempts: nat, now: Time, audited: bool, phase: Phase): map<WorkKey, Work> {
    map[KEY := Work(1, attempts, now, audited, phase)]
  }

  predicate MayClaim(health: map<Id, Health>, now: Time) {
    1 in health ==> !health[1].status.Paused? && (health[1].nextRetry.Some? ==> health[1].nextRetry.value <= now)
  }

  lemma Claiming(attempts: nat, at: Time, health: map<Id, Health>, now: Time, expires: Time)
    requires at <= now < expires && MayClaim(health, now)
    ensures var s := Sys(Waiting(attempts, at, health), now, map[]);
            && Allowed(s, ClaimAt(RUNNER, now, expires))
            && Next(s, ClaimAt(RUNNER, now, expires))
               == Sys(ClaimedBy(RUNNER, attempts, at, expires, health), now, Doing(attempts, now, false, Claimed))
  {
    var db := Waiting(attempts, at, health);
    assert !IsSpace(RUNNER[0]);
    assert Due(db, Deliveries, now, 1);
    assert LeaseAll(db.deliveries, {1}, RUNNER, expires) == ClaimedBy(RUNNER, attempts, at, expires, health).deliveries;
    assert NewWork(db, Deliveries, {1}, RUNNER, now) == Doing(attempts, now, false, Claimed);
  }

  function Answered(verdict: Verdict, now: Time): Phase {
    match verdict
    case Accepted => ToMarkSent
    case Rejected => ToMarkFailed
    case RateLimited => ToCoolDown(now + MINUTE)
  }

  lemma Asking(db: Db, clock: Time, attempts: nat, now: Time, verdict: Verdict)
    ensures Next(Sys(db, clock, Doing(attempts, now, false, Claimed)), Worker(KEY, Send(true, verdict, 0)))
         == Sys(db, clock, Doing(attempts, now, true, Answered(verdict, now)))
  {
    assert RateLimitRetryAt(0, now) == now + MINUTE;
  }

  /** One attempt: the delivery is claimed for two minutes, and the provider answers. */
  function Attempting(attempts: nat, at: Time, health: map<Id, Health>, now: Time, verdict: Verdict): Sys {
    Sys(ClaimedBy(RUNNER, attempts, at, now + 2 * MINUTE, health), now,
        Doing(attempts, now, true, Answered(verdict, now)))
  }

  lemma AttemptSteps(attempts: nat, at: Time, health: map<Id, Health>, now: Time, verdict: Verdict)
    returns (steps: seq<Step>)
    requires at <= now && MayClaim(health, now)
    ensures Reaches(
      Sys(Waiting(attempts, at, health), now, map[]), steps, Attempting(attempts, at, health, now, verdict))
  {
    var claimed := ClaimedBy(RUNNER, attempts, at, now + 2 * MINUTE, health);
    var ask := Worker(KEY, Send(true, verdict, 0));
    var end := Attempting(attempts, at, health, now, verdict);
    Claiming(attempts, at, health, now, now + 2 * MINUTE);
    Asking(claimed, now, attempts, now, verdict);
    Staying(end);
    Stepping(Sys(claimed, now, Doing(attempts, now, false, Claimed)), ask, end, [], end);
    steps := [ClaimAt(RUNNER, now, now + 2 * MINUTE)] + ([ask] + []);
    Stepping(
      Sys(Waiting(attempts, at, health), now, map[]), ClaimAt(RUNNER, now, now + 2 * MINUTE),
      Sys(claimed, now, Doing(attempts, now, false, Claimed)), [ask] + [], end);
  }

  /** The first attempt, from the empty database on. */
  lemma FirstAttempt(verdict: Verdict) returns (steps: seq<Step>)
    ensures Reaches(START, steps, Attempting(0, 0, map[], 0, verdict))
  {
    var queueing := QueueingRun();
    assert Queued(DEFAULT_RULE, 0) == Waiting(0, 0, map[]);
    var attempt := AttemptSteps(0, 0, map[], 0, verdict);
    Following(START, queueing, Sys(Waiting(0, 0, map[]), 0, map[]), attempt, Attempting(0, 0, map[], 0, verdict));
    steps := queueing + attempt;
  }

  // ---- an accepted message whose row is deleted

  const LATER: Time := 2 * MINUTE
  const LEAVE := Transact(UnfollowTx(1, 1, LATER))
  const UNFOLLOWED := Policy(map[1 := ALBUM], map[1 := DEFAULT_PREFS], {}, map[])

  /** The member follows nobody any more, and the delivery is gone. */
  function Deserted(health: map<Id, Health>): Db {
    Queued(DEFAULT_RULE, 0).(policy := UNFOLLOWED, deliveries := map[], health := health)
  }

  function Expiring(verdict: Verdict): Sys {
    Attempting(0, 0, map[], 0, verdict).(clock := LATER)
  }

  lemma Leaving()
    ensures Deletes(Expiring(Accepted).db, LEAVE, Deliveries, 1)
    ensures Next(Expiring(Accepted), LEAVE) == Sys(Deserted(map[]), LATER, Doing(0, 0, true, ToMarkSent))
  {
    var db := Expiring(Accepted).db;
    var db1 := db.(policy := UNFOLLOWED);
    assert WithoutFollow(db.policy, 1, 1) == UNFOLLOWED;
    assert Associated(ALBUM, 1) && 1 in {1};
    assert Abandoned(db1, db.deliveries[1], 1, 1, LATER);
    assert Abandon(db1, 1, 1, LATER).deliveries == map[];
    assert Unfollow(db, 1, 1, LATER).deliveries == map[];
  }

  lemma LosingRow(rest: seq<Step>, end: Sys)
    requires Reaches(Sys(Deserted(map[]), LATER, Doing(0, 0, true, ToMarkSent)), rest, end)
    ensures Reaches(Attempting(0, 0, map[], 0, Accepted), [Tick(LATER)] + ([LEAVE] + rest), end)
  {
    Leaving();
    Stepping(Expiring(Accepted), LEAVE, Sys(Deserted(map[]), LATER, Doing(0, 0, true, ToMarkSent)), rest, end);
    Stepping(
      Attempting(0, 0, map[], 0, Accepted), Tick(LATER), Expiring(Accepted), [LEAVE] + rest, end);
  }

  const RECORDS := [RECORD] + ([RECORD] + ([RECORD] + []))
  const HEALED: map<Id, Health> := map[1 := Health(Healthy, 0, None)]

  lemma LosingClaim(db: Db)
    requires !Hits(db.deliveries, 1, RUNNER)
    ensures Next(Sys(db, LATER, Doing(0, 0, true, ToMarkSent)), RECORD)
         == Sys(db, LATER, Doing(0, 0, true, ToFinishLost))
  {
  }

  lemma RecordingAttempt(db: Db)
    requires db.health == map[]
    ensures Next(Sys(db, LATER, Doing(0, 0, true, ToFinishLost)), RECORD)
         == Sys(db.(health := HEALED), LATER, Doing(0, 0, true, ToFinalize))
  {
  }

  lemma Finalising(db: Db)
    ensures Next(Sys(db, LATER, Doing(0, 0, true, ToFinalize)), RECORD)
         == Sys(FinalizeSent(db, Deliveries, 1), LATER, map[])
  {
  }

  /** The claim is found lost, the accepted attempt is recorded, and whatever is there is finalised. */
  lemma LateRecords(db: Db, db': Db)
    requires !Hits(db.deliveries, 1, RUNNER) && db.health == map[]
    requires FinalizeSent(db.(health := HEALED), Deliveries, 1) == db'
    ensures Reaches(Sys(db, LATER, Doing(0, 0, true, ToMarkSent)), RECORDS, Sys(db', LATER, map[]))
  {
    var lost := Sys(db, LATER, Doing(0, 0, true, ToFinishLost));
    var audited := Sys(db.(health := HEALED), LATER, Doing(0, 0, true, ToFinalize));
    var end := Sys(db', LATER, map[]);
    Staying(end);
    Finalising(audited.db);
    Stepping(audited, RECORD, end, [], end);
    RecordingAttempt(db);
    Stepping(lost, RECORD, audited, [RECORD] + [], end);
    LosingClaim(db);
    Stepping(Sys(db, LATER, Doing(0, 0, true, ToMarkSent)), RECORD, lost, [RECORD] + ([RECORD] + []), end);
  }

  /**
   An accepted message can end without its row: the provider answers only after the lease has run out, and meanwhile
   the member unfollows the artist.
   */
  lemma AcceptedSendDeleted() returns (before: seq<Step>, steps: seq<Step>)
    ensures Runs(START, before) && HasSent(After(START, before), KEY) && 1 in After(START, before).db.deliveries
    ensures Runs(After(START, before), steps) && OwnCallsSucceed(steps, KEY)
    ensures KEY !in After(After(START, before), steps).work
    ensures 1 !in After(After(START, before), steps).db.deliveries
  {
    before := FirstAttempt(Accepted);
    LateRecords(Deserted(map[]), Deserted(HEALED));
    LosingRow(RECORDS, Sys(Deserted(HEALED), LATER, map[]));
    steps := [Tick(LATER)] + ([LEAVE] + RECORDS);
  }

  // ---- a row that takes over the id

  const DUE_DAY := Admission(1, 1, ReleaseDay, LATER, false, 2, map[1 := 1], 1)
  const BOTH_EVENTS := EVENTS[2 := Event(1, 1, ReleaseDay, LATER)]

  function Refollowed(health: map<Id, Health>): Db {
    Queued(DEFAULT_RULE, 0).(deliveries := map[], health := health)
  }

  /** The delivery of another event under the old id. */
  function Reused(status: Status, attempts: nat, health: map<Id, Health>): Db {
    Queued(DEFAULT_RULE, 0).(
      events := BOTH_EVENTS, deliveries := map[1 := Row(2, 1, status, attempts, LATER, None, None)], health := health)
  }

  lemma FollowingAgain()
    ensures Follow(Deserted(map[]), 1, 1, LATER) == Refollowed(map[])
  {
    assert WithFollow(UNFOLLOWED, 1, 1) == OneFollow(DEFAULT_RULE, DEFAULT_PREFS);
    assert Follow(Deserted(map[]), 1, 1, LATER).deliveries == map[];
  }

  lemma DueDayFits()
    ensures Fits(Refollowed(map[]), DUE_DAY)
  {
    assert 1 in DUE_DAY.rows;
    assert Serves(DUE_DAY.rows, 1);
    assert Targets(Refollowed(map[]), map[], 1, 2, LATER) == {1};
  }

  lemma DueDayIsQueued()
    ensures Enqueue(Refollowed(map[]), DUE_DAY).db == Reused(Pending, 0, map[])
  {
    OneFollowGoverns(DEFAULT_RULE, DEFAULT_PREFS, ReleaseDay);
    assert InsertEvent(Refollowed(map[]), DUE_DAY, true, LATER).deliveries == Reused(Pending, 0, map[]).deliveries;
  }

  const FOLLOW_AGAIN := Transact(FollowTx(1, 1, LATER))
  const ADMIT_DUE := Transact(Admit(DUE_DAY))
  const READMIT := [FOLLOW_AGAIN] + ([ADMIT_DUE] + [])

  lemma Admitting(db: Db, a: Admission, clock: Time, work: map<WorkKey, Work>, db': Db)
    requires Fits(db, a) && a.now <= clock && Enqueue(db, a).db == db'
    ensures Reaches(Sys(db, clock, work), [Transact(Admit(a))] + [], Sys(db', clock, work))
  {
    Staying(Sys(db', clock, work));
    Stepping(Sys(db, clock, work), Transact(Admit(a)), Sys(db', clock, work), [], Sys(db', clock, work));
  }

  lemma AdmittingAgain(work: map<WorkKey, Work>)
    ensures Reaches(Sys(Deserted(map[]), LATER, work), READMIT, Sys(Reused(Pending, 0, map[]), LATER, work))
  {
    DueDayFits();
    DueDayIsQueued();
    Admitting(Refollowed(map[]), DUE_DAY, LATER, work, Reused(Pending, 0, map[]));
    FollowingAgain();
    Stepping(
      Sys(Deserted(map[]), LATER, work), FOLLOW_AGAIN, Sys(Refollowed(map[]), LATER, work), [ADMIT_DUE] + [],
      Sys(Reused(Pending, 0, map[]), LATER, work));
  }

  lemma FinalisingAnotherRow()
    ensures !Hits(Reused(Pending, 0, map[]).deliveries, 1, RUNNER)
    ensures FinalizeSent(Reused(Pending, 0, map[]).(health := HEALED), Deliveries, 1) == Reused(Sent, 1, HEALED)
  {
    assert !IsSpace(RUNNER[0]);
  }

  predicate SendsNothing(steps: seq<Step>) {
    forall i | 0 <= i < |steps| :: steps[i].Worker? ==> !steps[i].action.Send?
  }

  lemma TakingOverTheId()
    ensures Reaches(
      Attempting(0, 0, map[], 0, Accepted), [Tick(LATER)] + ([LEAVE] + (READMIT + RECORDS)),
      Sys(Reused(Sent, 1, HEALED), LATER, map[]))
  {
    var work := Doing(0, 0, true, ToMarkSent);
    var queued, end := Sys(Reused(Pending, 0, map[]), LATER, work), Sys(Reused(Sent, 1, HEALED), LATER, map[]);
    FinalisingAnotherRow();
    LateRecords(queued.db, end.db);
    AdmittingAgain(work);
    Following(Sys(Deserted(map[]), LATER, work), READMIT, queued, RECORDS, end);
    LosingRow(READMIT + RECORDS, end);
  }

  /**
   A deleted row gives up its id, and the late worker finalises by id: here the delivery of an event that did not exist
   when the message was sent ends as sent, although nothing was sent for it.
   */
  lemma AnotherRowIsFinalised() returns (before: seq<Step>, steps: seq<Step>)
    ensures Runs(START, before) && HasSent(After(START, before), KEY) && 2 !in After(START, before).db.events
    ensures Runs(After(START, before), steps) && SendsNothing(steps)
    ensures var end := After(After(START, before), steps).db;
            1 in end.deliveries && end.deliveries[1].parent == 2 && end.deliveries[1].status.Sent?
  {
    before := FirstAttempt(Accepted);
    steps := [Tick(LATER)] + ([LEAVE] + (READMIT + RECORDS));
    TakingOverTheId();
  }

  // ---- a rate-limited first attempt

  const LIMITED: map<Id, Health> := map[1 := Health(Degraded, 0, Some(MINUTE))]

  lemma LimitingSteps(steps: seq<Step>)
    requires steps == [RECORD] + ([RECORD] + [])
    ensures Reaches(Attempting(0, 0, map[], 0, RateLimited), steps, Sys(Waiting(0, MINUTE, LIMITED), 0, map[]))
  {
    var cooled := Sys(ClaimedBy(RUNNER, 0, 0, LATER, LIMITED), 0, Doing(0, 0, true, ToMarkLimited(MINUTE)));
    var end := Sys(Waiting(0, MINUTE, LIMITED), 0, map[]);
    Staying(end);
    Stepping(cooled, RECORD, end, [], end);
    Stepping(Attempting(0, 0, map[], 0, RateLimited), RECORD, cooled, [RECORD] + [], end);
  }

  lemma LimitedIsUnaligned()
    ensures var db := Waiting(0, MINUTE, LIMITED);
            !Affected(db, db.deliveries[1], 1, {2}) && !Aligned(db, db.deliveries[1], 0)
  {
    var db := Waiting(0, MINUTE, LIMITED);
    OneFollowGoverns(DEFAULT_RULE, DEFAULT_PREFS, Announcement);
    assert RealignedRow(db, db.deliveries[1], 0).nextAt == 0;
  }

  /** A rate-limited first attempt is not aligned, so rescheduling for another artist is not rescheduling everything. */
  lemma LimitedAttemptStaysBehind() returns (steps: seq<Step>)
    ensures Runs(START, steps)
    ensures var db := After(START, steps).db;
            !RestAligned(db, 1, {2}, 0) && Realign(db, 1, {2}, 0) != RealignAll(db, 0)
  {
    var attempt := FirstAttempt(RateLimited);
    var records := [RECORD] + ([RECORD] + []);
    LimitingSteps(records);
    Following(
      START, attempt, Attempting(0, 0, map[], 0, RateLimited), records, Sys(Waiting(0, MINUTE, LIMITED), 0, map[]));
    steps := attempt + records;
    LimitedIsUnaligned();
    LocalRealignIsGlobal(Waiting(0, MINUTE, LIMITED), 1, {2}, 0);
  }

  // ---- a late worker that trips the circuit

  /** When the attempt after `k` failures is due. */
  function At(k: nat): Time {
    if k == 0 then 0 else At(k - 1) + MINUTE * Power2(k)
  }

  function Streak(k: nat): map<Id, Health> {
    if k == 0 then map[] else map[1 := Health(Degraded, k, Some(At(k)))]
  }

  function Failing(k: nat): Sys {
    Sys(Waiting(k, At(k), Streak(k)), At(k), map[])
  }

  lemma MarkingFailed(k: nat)
    requires k < 4
    ensures Next(Attempting(k, At(k), Streak(k), At(k), Rejected), RECORD)
         == Sys(Waiting(k + 1, At(k + 1), Streak(k)), At(k), Doing(k, At(k), true, ToFinishFailed))
  {
    var db := ClaimedBy(RUNNER, k, At(k), At(k) + LATER, Streak(k));
    assert FailedRow(db.deliveries[1], k + 1, At(k)) == Row(1, 1, Pending, k + 1, At(k + 1), None, None);
    assert MarkFailed(db, Deliveries, 1, k + 1, RUNNER, At(k)).deliveries
        == Waiting(k + 1, At(k + 1), Streak(k)).deliveries;
  }

  lemma FinishingFailed(k: nat)
    requires k < 4
    ensures Next(Sys(Waiting(k + 1, At(k + 1), Streak(k)), At(k), Doing(k, At(k), true, ToFinishFailed)), RECORD)
         == Sys(Waiting(k + 1, At(k + 1), Streak(k + 1)), At(k), map[])
  {
    assert AuditRetry(k + 1, At(k)) == Some(At(k + 1));
    assert NextHealth(Waiting(k + 1, At(k + 1), Streak(k)), 1, Rejected, Some(At(k + 1)))
        == Health(Degraded, k + 1, Some(At(k + 1)));
  }

  /** One failed attempt, and the wait for the next. */
  lemma Round(k: nat) returns (steps: seq<Step>)
    requires k < 4
    ensures Reaches(Failing(k), steps, Failing(k + 1))
  {
    var asked := Attempting(k, At(k), Streak(k), At(k), Rejected);
    var marked := Sys(Waiting(k + 1, At(k + 1), Streak(k)), At(k), Doing(k, At(k), true, ToFinishFailed));
    var finished := Sys(Waiting(k + 1, At(k + 1), Streak(k + 1)), At(k), map[]);
    var end := Failing(k + 1);
    var attempt := AttemptSteps(k, At(k), Streak(k), At(k), Rejected);
    Staying(end);
    Stepping(finished, Tick(At(k + 1)), end, [], end);
    FinishingFailed(k);
    Stepping(marked, RECORD, finished, [Tick(At(k + 1))] + [], end);
    MarkingFailed(k);
    var records := [RECORD] + ([RECORD] + ([Tick(At(k + 1))] + []));
    Stepping(asked, RECORD, marked, [RECORD] + ([Tick(At(k + 1))] + []), end);
    Following(Failing(k), attempt, asked, records, end);
    steps := attempt + records;
  }

  lemma {:induction false} Rounds(k: nat) returns (steps: seq<Step>)
    requires k <= 4
    ensures Reaches(START, steps, Failing(k))
  {
    if k == 0 {
      steps := QueueingRun();
      assert Queued(DEFAULT_RULE, 0) == Waiting(0, 0, map[]);
    } else {
      var before := Rounds(k - 1);
      var round := Round(k - 1);
      Following(START, before, Failing(k - 1), round, Failing(k));
      steps := before + round;
    }
  }

  const OTHER := "other"
  const OTHER_KEY := WorkKey(OTHER, Deliveries, 1)

  /** The lease of the attempt made at `at` has run out, and another runner has claimed the row. */
  function TakenOver(at: Time, health: map<Id, Health>, phase: Phase): Sys {
    Sys(ClaimedBy(OTHER, 4, at, at + LATER + LATER, health), at + LATER,
        map[KEY := Work(1, 4, at, true, phase), OTHER_KEY := Work(1, 4, at + LATER, false, Claimed)])
  }

  function TakeAt(at: Time): Step {
    ClaimAt(OTHER, at + LATER, at + LATER + LATER)
  }

  lemma HeldIsDue(at: Time, health: map<Id, Health>)
    requires MayClaim(health, at + LATER)
    ensures AllDue(ClaimedBy(RUNNER, 4, at, at + LATER, health), Deliveries, at + LATER, {1})
  {
    assert Due(ClaimedBy(RUNNER, 4, at, at + LATER, health), Deliveries, at + LATER, 1);
  }

  lemma LeasingHeld(at: Time, health: map<Id, Health>)
    ensures var db := ClaimedBy(RUNNER, 4, at, at + LATER, health);
            && Lease(db, Deliveries, {1}, OTHER, at + LATER + LATER) == TakenOver(at, health, ToMarkFailed).db
            && NewWork(db, Deliveries, {1}, OTHER, at + LATER)
               == map[OTHER_KEY := Work(1, 4, at + LATER, false, Claimed)]
  {
    var db := ClaimedBy(RUNNER, 4, at, at + LATER, health);
    assert LeaseAll(db.deliveries, {1}, OTHER, at + LATER + LATER)
        == TakenOver(at, health, ToMarkFailed).db.deliveries;
  }

  lemma OtherIsIdle(db: Db, clock: Time, at: Time)
    ensures Idle(Sys(db, clock, Doing(4, at, true, ToMarkFailed)), OTHER, Deliveries) && !Blank(OTHER)
  {
    assert !IsSpace(OTHER[0]) && RUNNER[0] != OTHER[0];
  }

  lemma TakingOver(at: Time, health: map<Id, Health>)
    requires MayClaim(health, at + LATER)
    ensures var s := Attempting(4, at, health, at, Rejected).(clock := at + LATER);
            Allowed(s, TakeAt(at)) && Next(s, TakeAt(at)) == TakenOver(at, health, ToMarkFailed)
  {
    var db := ClaimedBy(RUNNER, 4, at, at + LATER, health);
    HeldIsDue(at, health);
    LeasingHeld(at, health);
    OtherIsIdle(db, at + LATER, at);
    assert Doing(4, at, true, ToMarkFailed) + map[OTHER_KEY := Work(1, 4, at + LATER, false, Claimed)]
        == TakenOver(at, health, ToMarkFailed).work;
  }

  lemma ClaimIsLost(at: Time, health: map<Id, Health>)
    ensures Next(TakenOver(at, health, ToMarkFailed), RECORD) == TakenOver(at, health, ToFinishFailed)
  {
    assert !IsSpace(RUNNER[0]) && RUNNER[0] != OTHER[0];
  }

  lemma TakeOverSteps(at: Time, health: map<Id, Health>) returns (steps: seq<Step>)
    requires MayClaim(health, at) && MayClaim(health, at + LATER)
    ensures Reaches(Sys(Waiting(4, at, health), at, map[]), steps, TakenOver(at, health, ToFinishFailed))
  {
    var asked := Attempting(4, at, health, at, Rejected);
    var late := asked.(clock := at + LATER);
    var end := TakenOver(at, health, ToFinishFailed);
    var attempt := AttemptSteps(4, at, health, at, Rejected);
    Staying(end);
    ClaimIsLost(at, health);
    Stepping(TakenOver(at, health, ToMarkFailed), RECORD, end, [], end);
    TakingOver(at, health);
    Stepping(late, TakeAt(at), TakenOver(at, health, ToMarkFailed), [RECORD] + [], end);
    var rest := [Tick(at + LATER)] + ([TakeAt(at)] + ([RECORD] + []));
    Stepping(asked, Tick(at + LATER), late, [TakeAt(at)] + ([RECORD] + []), end);
    Following(Sys(Waiting(4, at, health), at, map[]), attempt, asked, rest, end);
    steps := attempt + rest;
  }

  lemma LateFailureTrips(at: Time, health: map<Id, Health>)
    requires 1 in health && health[1].failures == 4
    ensures var s := TakenOver(at, health, ToFinishFailed);
            && Trips(s.db, s.work[KEY], Record(true))
            && Next(s, RECORD).db.deliveries == map[1 := Row(1, 1, Blocked, 4, at, None, None)]
  {
    var db := TakenOver(at, health, ToFinishFailed).db;
    assert BlockAll(db.deliveries, 1) == map[1 := Row(1, 1, Blocked, 4, at, None, None)];
  }

  /**
   A late worker can change a row that another runner has claimed: after four failures the fifth attempt outlasts its
   lease, another runner claims the delivery, and the first one's recorded failure trips the circuit and blocks it.
   */
  lemma LateWorkerTrips() returns (steps: seq<Step>)
    ensures Runs(START, steps)
    ensures var s := After(START, steps);
            && KEY in s.work && Trips(s.db, s.work[KEY], Record(true))
            && 1 in s.db.deliveries && s.db.deliveries[1].owner == Some(OTHER) && OTHER != KEY.owner
            && LiveLease(s.db.deliveries[1], s.clock)
            && 1 in Next(s, RECORD).db.deliveries && Next(s, RECORD).db.deliveries[1].status.Blocked?
  {
    var before := Rounds(4);
    var end := TakenOver(At(4), Streak(4), ToFinishFailed);
    var rest := TakeOverSteps(At(4), Streak(4));
    Following(START, before, Failing(4), rest, end);
    steps := before + rest;
    LateFailureTrips(At(4), Streak(4));
    assert RUNNER[0] != OTHER[0];
  }
}
