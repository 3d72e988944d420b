/** What one delivery attempt leaves in the tables, from the claimed row to the recorded outcome. */
module AttemptOutcomes {
  import opened Prelude
  import opened Tables
  import opened Transactions
  import opened RowAutomaton
  import opened Invariants
  import opened DeliverySystem
  import opened ProtocolSafety
  import opened DeliveryRunner

  // ---- the row

  /** The row of the attempt becomes `r'`; no other row of either queue changes, nor anything else but digest runs. */
  ghost predicate RowBecomes(db: Db, db': Db, k: WorkKey, r': Row) {
    && k.id in Tab(db, k.q) && Tab(db', k.q) == Tab(db, k.q)[k.id := r']
    && (k.q == Deliveries ==> db'.digests == db.digests) && (k.q == Digests ==> db'.deliveries == db.deliveries)
    && db' == db.(deliveries := db'.deliveries, digests := db'.digests, runs := db'.runs)
    && (k.q == Deliveries ==> db'.runs == db.runs)
  }

  lemma PutBecomes(db: Db, db': Db, k: WorkKey, r': Row)
    requires k.id in Tab(db, k.q) && db' == PutRow(db, k.q, k.id, r').(runs := db'.runs)
    requires k.q == Deliveries ==> db'.runs == db.runs
    ensures RowBecomes(db, db', k, r')
  {
  }

  function SentOff(r: Row): Row {
    r.(status := Sent, attempts := r.attempts + 1, owner := None, expires := None)
  }

  /** The claim still holds when the send is recorded. */
  lemma SentOutcome(db: Db, k: WorkKey)
    requires !Blank(k.owner)
    ensures var db' := MarkSent(db, k.q, k.id, k.owner);
            if HoldsLease(db, k) then RowBecomes(db, db', k, SentOff(Tab(db, k.q)[k.id])) else db' == db
  {
    if HoldsLease(db, k) {
      CompleteTouches(db, k.q, k.id);
    }
  }

  /** After a lost claim, an open row that nobody claims is completed, and any other is left alone. */
  lemma FinalOutcome(db: Db, k: WorkKey)
    ensures var db' := FinalizeSent(db, k.q, k.id);
            if k.id in Tab(db, k.q) && Tab(db, k.q)[k.id].owner == None
               && (Tab(db, k.q)[k.id].status == Pending || Tab(db, k.q)[k.id].status == Blocked)
            then RowBecomes(db, db', k, SentOff(Tab(db, k.q)[k.id])) else db' == db
  {
    if Finalizable(Tab(db, k.q), k.id) {
      CompleteTouches(db, k.q, k.id);
    }
  }

  /** Minutes until the next attempt after this many. */
  function Backoff(attempts: nat): Time
    requires 1 <= attempts <= 5
  {
    [2, 4, 8, 16, 32][attempts - 1] * MINUTE
  }

  lemma LadderIs(attempts: nat, now: Time)
    requires 1 <= attempts <= 5
    ensures RetrySchedule(attempts, now)
         == Schedule(if attempts == 5 then Failed else Pending, now + Backoff(attempts), attempts < 5)
  {
    assert Power2(1) == 2 && Power2(2) == 4 && Power2(3) == 8 && Power2(4) == 16;
    assert Power2(5) == 2 * Power2(4);
  }

  function TurnedDown(r: Row, attempts: nat, now: Time): Row
    requires 1 <= attempts <= 5
  {
    r.(status := if attempts == 5 then Failed else Pending, attempts := attempts, nextAt := now + Backoff(attempts),
       owner := None, expires := None)
  }

  lemma FailedRowIs(r: Row, attempts: nat, now: Time)
    requires 1 <= attempts <= 5
    ensures FailedRow(r, attempts, now) == TurnedDown(r, attempts, now)
  {
    LadderIs(attempts, now);
  }

  /** A failure puts the claimed row on the next rung of the ladder, and gives it up on the fifth. */
  lemma FailedOutcome(db: Db, k: WorkKey, attempts: nat, now: Time)
    requires !Blank(k.owner) && 1 <= attempts <= 5
    ensures var db' := MarkFailed(db, k.q, k.id, attempts, k.owner, now);
            if HoldsLease(db, k) then RowBecomes(db, db', k, TurnedDown(Tab(db, k.q)[k.id], attempts, now))
            else db' == db
  {
    if HoldsLease(db, k) {
      var r := Tab(db, k.q)[k.id];
      MarkFailedTouches(db, k.q, k.id, attempts, k.owner, now);
      FailedRowIs(r, attempts, now);
      PutBecomes(db, MarkFailed(db, k.q, k.id, attempts, k.owner, now), k, FailedRow(r, attempts, now));
    }
  }

  /** A rate limit puts the claimed row back on the queue, for the instant given, without counting an attempt. */
  lemma LimitedOutcome(db: Db, k: WorkKey, next: Time)
    requires !Blank(k.owner)
    ensures var db' := MarkRateLimited(db, k.q, k.id, k.owner, next);
            if HoldsLease(db, k)
            then RowBecomes(db, db', k,
                   Tab(db, k.q)[k.id].(status := Pending, nextAt := next, owner := None, expires := None))
            else db' == db
  {
  }

  // ---- the routine

  function FinishedIf(ok: bool, db: Db, d: Id, v: Verdict, next: Option<Time>): Db {
    if ok then FinishAttempt(db, d, v, next) else db
  }

  function FinalisedIf(ok: bool, db: Db, k: WorkKey): Db {
    if ok then FinalizeSent(db, k.q, k.id) else db
  }

  /**
   After an acceptance: a failed first write ends the routine; a held claim is completed and the attempt recorded; a
   lost one has its attempt recorded first, and only then is the row finalised.
   */
  function AfterAcceptance(db: Db, k: WorkKey, d: Id, f: Fate): Db {
    if !f.first then db
    else if HasLease(db, k) then
      FinishedIf(f.audited && f.second, MarkSent(db, k.q, k.id, k.owner), d, Accepted, None)
    else if !f.audited then FinalisedIf(f.second, db, k)
    else if !f.second then db
    else FinalisedIf(f.third, FinishAttempt(db, d, Accepted, None), k)
  }

  predicate HasLease(db: Db, k: WorkKey) {
    k.id in Tab(db, k.q) && Tab(db, k.q)[k.id].owner == Some(k.owner)
  }

  /** After a rejection: the row first, then the attempt, whatever became of the row. */
  function AfterRejection(db: Db, k: WorkKey, w: Work, f: Fate): Db {
    var attempts := w.attempts + 1;
    var marked := if f.first then MarkFailed(db, k.q, k.id, attempts, k.owner, w.now) else db;
    var s := RetrySchedule(attempts, w.now);
    FinishedIf(f.audited && f.second, marked, w.dest, Rejected, if s.willRetry then Some(s.next) else None)
  }

  /** After a rate limit: the cooldown first, then the row, both for the provider's instant. */
  function AfterLimit(db: Db, k: WorkKey, w: Work, f: Fate): Db {
    var next := w.now + ProviderDelay(f.retryAfter);
    var cooled := FinishedIf(f.audited && f.first, db, w.dest, RateLimited, Some(next));
    if f.second then MarkRateLimited(cooled, k.q, k.id, k.owner, next) else cooled
  }

  /** The provider's delay, a minute when it names none, kept within a second and an hour. */
  function ProviderDelay(retryAfter: Time): Time {
    if retryAfter <= 0 then MINUTE
    else if retryAfter < SECOND then SECOND else if retryAfter > HOUR then HOUR else retryAfter
  }

  lemma ProviderDelayIs(retryAfter: Time, now: Time)
    ensures RateLimitRetryAt(retryAfter, now) == now + ProviderDelay(retryAfter)
  {
  }

  /** The whole routine of one claimed delivery, for every answer and every failing store call. */
  lemma AttemptOutcome(db: Db, k: WorkKey, w: Work, f: Fate)
    requires w.phase == Claimed && !Blank(k.owner)
    ensures Play(Progress(db, Some(w)), k, Script(f)) == Progress(
      match f.verdict
      case Accepted => AfterAcceptance(db, k, w.dest, f)
      case Rejected => AfterRejection(db, k, w, f)
      case RateLimited => AfterLimit(db, k, w, f), None)
  {
    SendFirst(db, k, w, f);
    PlayRecords(db, k, AfterAnswer(w, f), f.first, f.second, f.third);
    match f.verdict
    case Accepted => AcceptanceSteps(db, k, AfterAnswer(w, f), f);
    case Rejected => RejectionSteps(db, k, AfterAnswer(w, f), f);
    case RateLimited => LimitSteps(db, k, AfterAnswer(w, f), f);
  }

  lemma AcceptanceSteps(db: Db, k: WorkKey, w: Work, f: Fate)
    requires w.phase == ToMarkSent && w.audited == f.audited && !Blank(k.owner)
    ensures AfterCall(AfterCall(AfterCall(Progress(db, Some(w)), k, f.first), k, f.second), k, f.third)
         == Progress(AfterAcceptance(db, k, w.dest, f), None)
  {
  }

  lemma RejectionSteps(db: Db, k: WorkKey, w: Work, f: Fate)
    requires w.phase == ToMarkFailed && w.audited == f.audited
    ensures AfterCall(AfterCall(AfterCall(Progress(db, Some(w)), k, f.first), k, f.second), k, f.third)
         == Progress(AfterRejection(db, k, w, f), None)
  {
  }

  lemma LimitSteps(db: Db, k: WorkKey, w: Work, f: Fate)
    requires w.audited == f.audited && w.phase == ToCoolDown(RateLimitRetryAt(f.retryAfter, w.now))
    ensures AfterCall(AfterCall(AfterCall(Progress(db, Some(w)), k, f.first), k, f.second), k, f.third)
         == Progress(AfterLimit(db, k, w, f), None)
  {
    ProviderDelayIs(f.retryAfter, w.now);
  }

  /** A routine that panics counts as a failed attempt of its row, and a vanished one leaves the row to its lease. */
  lemma AbortOutcome(db: Db, k: WorkKey, w: Work, ok: bool)
    ensures ActDb(db, k, w, Panic(ok)) == (if ok then MarkFailed(db, k.q, k.id, w.attempts + 1, k.owner, w.now) else db)
    ensures ActLeft(db, k, w, Panic(ok)) == None
    ensures ActDb(db, k, w, Drop) == db && ActLeft(db, k, w, Drop) == None
  {
  }
}
