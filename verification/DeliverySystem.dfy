/**
 The delivery protocol as a state machine: the committed tables, a clock, and the work every delivery runner has
 in flight. Each step is one write transaction or one piece of worker progress, so steps of any number of
 runners interleave freely.
 */
module DeliverySystem {
  import opened Prelude
  import opened Tables
  import opened Governing
  import opened Transactions
  import opened RowAutomaton
  import opened Invariants

  // ---- store transactions that are not worker records

  datatype Tx =
    | Retry(user: Id, dest: Id, now: Time)
    | ReleaseTx(now: Time)
    | Cancel(now: Time)
    | Recover(now: Time)
    | Repair(now: Time, horizon: Time)
    | FollowTx(user: Id, artist: Id, now: Time)
    | FollowOnlyTx(user: Id, artist: Id)
    | UnfollowTx(user: Id, artist: Id, now: Time)
    | Rules(user: Id, artists: seq<Id>, rule: Rule, now: Time)
    | Modes(user: Id, artists: seq<Id>, mode: Mode, now: Time)
    | Pause(user: Id, artist: Id, until: Option<Time>, now: Time)
    | Admit(a: Admission)
    | Drain(h: Id, a: Admission)
    | Notify(user: Id, h: Id, a: Admission)
    | Discard(user: Id, h: Id)
    | Restore(user: Id, h: Id)
    | ApproveTx(a: Admission, bypassBlocking: bool)
    | DigestTx(plan: DigestPlan)
    | NewDestination(d: Id, user: Id, supported: bool, now: Time)
    | EditPolicyTx(releases: map<Id, Release>, prefs: map<Id, Prefs>)
    | EditIssuesTx(issues: map<Id, seq<string>>)

  function Commit(db: Db, tx: Tx): Db {
    match tx
    case Retry(user, dest, now) => RetryFailed(db, user, dest, now)
    case ReleaseTx(now) => ReleaseBlocked(db, now)
    case Cancel(now) => CancelOrphaned(db, now)
    case Recover(now) => RecoverExpired(db, now)
    case Repair(now, horizon) => RepairSkewed(db, now, horizon)
    case FollowTx(user, artist, now) => Follow(db, user, artist, now)
    case FollowOnlyTx(user, artist) => FollowOnly(db, user, artist)
    case UnfollowTx(user, artist, now) => Unfollow(db, user, artist, now)
    case Rules(user, artists, rule, now) => UpdateRules(db, user, artists, rule, now)
    case Modes(user, artists, mode, now) => SetMode(db, user, artists, mode, now)
    case Pause(user, artist, until, now) => PauseFollow(db, user, artist, until, now)
    case Admit(a) => Enqueue(db, a).db
    case Drain(h, a) => DrainHold(db, h, a)
    case Notify(user, h, a) => NotifyHold(db, user, h, a)
    case Discard(user, h) => DiscardHold(db, user, h)
    case Restore(user, h) => RestoreHold(db, user, h)
    case ApproveTx(a, bypassBlocking) => Approve(db, a, bypassBlocking)
    case DigestTx(plan) => QueueDigest(db, plan)
    case NewDestination(d, user, supported, now) => AddDestination(db, d, user, supported, now)
    case EditPolicyTx(releases, prefs) => EditPolicy(db, releases, prefs)
    case EditIssuesTx(issues) => EditIssues(db, issues)
  }

  /** The clock reading a transaction works with; transactions without one use none. */
  function TimeOf(tx: Tx, clock: Time): Time {
    match tx
    case Retry(_, _, now) => now
    case ReleaseTx(now) => now
    case Cancel(now) => now
    case Recover(now) => now
    case Repair(now, _) => now
    case FollowTx(_, _, now) => now
    case UnfollowTx(_, _, now) => now
    case Rules(_, _, _, now) => now
    case Modes(_, _, _, now) => now
    case Pause(_, _, _, now) => now
    case Admit(a) => a.now
    case Drain(_, a) => a.now
    case Notify(_, _, a) => a.now
    case ApproveTx(a, _) => a.now
    case DigestTx(plan) => plan.now
    case NewDestination(_, _, _, now) => now
    case _ => clock
  }

  /** What the database and its callers guarantee: fresh ids, positive member and artist ids. */
  ghost predicate Feasible(db: Db, tx: Tx) {
    match tx
    case FollowTx(user, artist, _) => user >= 1 && artist >= 1
    case FollowOnlyTx(user, artist) => user >= 1 && artist >= 1
    case Admit(a) => Fits(db, a)
    case Drain(_, a) => Fits(db, a)
    case Notify(_, _, a) => Fits(db, a)
    case ApproveTx(a, _) => Fits(db, a)
    case DigestTx(plan) => FitsDigest(db, plan)
    case _ => true
  }

  lemma CommitKeeps(db: Db, tx: Tx)
    requires DbInv(db) && Feasible(db, tx)
    ensures Keeps(db, Commit(db, tx))
  {
    match tx
    case Retry(user, dest, now) => RetryFailedKeeps(db, user, dest, now);
    case ReleaseTx(now) => ReleaseBlockedKeeps(db, now);
    case Cancel(now) => CancelOrphanedKeeps(db, now);
    case Recover(now) => RecoverExpiredKeeps(db, now);
    case Repair(now, horizon) => RepairSkewedKeeps(db, now, horizon);
    case FollowTx(user, artist, now) => FollowKeeps(db, user, artist, now);
    case FollowOnlyTx(user, artist) => FollowOnlyKeeps(db, user, artist);
    case UnfollowTx(user, artist, now) => UnfollowKeeps(db, user, artist, now);
    case Rules(user, artists, rule, now) => UpdateRulesKeeps(db, user, artists, rule, now);
    case Modes(user, artists, mode, now) => SetModeKeeps(db, user, artists, mode, now);
    case Pause(user, artist, until, now) => PauseFollowKeeps(db, user, artist, until, now);
    case Admit(a) => EnqueueKeeps(db, a);
    case Drain(h, a) => DrainHoldKeeps(db, h, a);
    case Notify(user, h, a) => NotifyHoldKeeps(db, user, h, a);
    case Discard(user, h) => DiscardHoldKeeps(db, user, h);
    case Restore(user, h) => RestoreHoldKeeps(db, user, h);
    case ApproveTx(a, bypassBlocking) => ApproveKeeps(db, a, bypassBlocking);
    case DigestTx(plan) => QueueDigestKeeps(db, plan);
    case NewDestination(d, user, supported, now) => AddDestinationKeeps(db, d, user, supported, now);
    case EditPolicyTx(releases, prefs) => EditPolicyKeeps(db, releases, prefs);
    case EditIssuesTx(issues) => EditIssuesKeeps(db, issues);
  }

  // ---- one delivery in flight

  /** The store call a worker makes next; the phases follow the order of the delivery routine. */
  datatype Phase =
    | Claimed | ToMarkSent | ToFinishSent | ToFinishLost | ToFinalize
    | ToMarkFailed | ToFinishFailed | ToCoolDown(next: Time) | ToMarkLimited(next: Time)

  /** `attempts` and `now` were read when the batch was claimed; `audited` says the attempt row was written. */
  datatype Work = Work(dest: Id, attempts: nat, now: Time, audited: bool, phase: Phase)

  datatype WorkKey = WorkKey(owner: string, q: Queue, id: Id)

  datatype Action =
    | Send(audited: bool, verdict: Verdict, retryAfter: Time)
    | Record(ok: bool)
    | Panic(ok: bool)
    | Drop

  /** The provider's requested delay, one minute when it names none, kept within a second and an hour. */
  function RateLimitRetryAt(retryAfter: Time, now: Time): (at: Time)
    ensures now + SECOND <= at <= now + HOUR
    ensures SECOND <= retryAfter <= HOUR ==> at == now + retryAfter
  {
    now + Min(HOUR, Max(SECOND, if retryAfter > 0 then retryAfter else MINUTE))
  }

  function AuditRetry(attempts: nat, now: Time): Option<Time> {
    var s := RetrySchedule(attempts, now);
    if s.willRetry then Some(s.next) else None
  }

  function FinishIf(ok: bool, db: Db, dest: Id, v: Verdict, next: Option<Time>): Db {
    if ok then FinishAttempt(db, dest, v, next) else db
  }

  /** The number of the attempt the worker is making. */
  function Attempt(w: Work): nat {
    w.attempts + 1
  }

  function RecordFailure(db: Db, k: WorkKey, w: Work): Db {
    MarkFailed(db, k.q, k.id, Attempt(w), k.owner, w.now)
  }

  /** What the pending store call of a worker does to the tables when the write succeeds. */
  function RecordDb(db: Db, k: WorkKey, w: Work): Db {
    match w.phase
    case Claimed => db
    case ToMarkSent => MarkSent(db, k.q, k.id, k.owner)
    case ToFinishSent => FinishIf(w.audited, db, w.dest, Accepted, None)
    case ToFinishLost => FinishAttempt(db, w.dest, Accepted, None)
    case ToFinalize => FinalizeSent(db, k.q, k.id)
    case ToMarkFailed => RecordFailure(db, k, w)
    case ToFinishFailed => FinishIf(w.audited, db, w.dest, Rejected, AuditRetry(Attempt(w), w.now))
    case ToCoolDown(next) => FinishIf(w.audited, db, w.dest, RateLimited, Some(next))
    case ToMarkLimited(next) => MarkRateLimited(db, k.q, k.id, k.owner, next)
  }

  /** The work that is left after the store call; `ok` says whether the write succeeded. */
  function RecordLeft(db: Db, k: WorkKey, w: Work, ok: bool): Option<Work> {
    match w.phase
    case Claimed => Some(w)
    case ToMarkSent =>
      if !ok then None
      else if Hits(Tab(db, k.q), k.id, k.owner) then Some(w.(phase := ToFinishSent))
      else Some(w.(phase := if w.audited then ToFinishLost else ToFinalize))
    case ToFinishLost => if ok then Some(w.(phase := ToFinalize)) else None
    case ToMarkFailed => Some(w.(phase := ToFinishFailed))
    case ToCoolDown(next) => Some(w.(phase := ToMarkLimited(next)))
    case _ => None
  }

  function ActDb(db: Db, k: WorkKey, w: Work, action: Action): Db {
    match action
    case Record(ok) => if ok then RecordDb(db, k, w) else db
    case Panic(ok) => if ok then RecordFailure(db, k, w) else db
    case _ => db
  }

  function ActLeft(db: Db, k: WorkKey, w: Work, action: Action): Option<Work> {
    match action
    case Send(audited, verdict, retryAfter) =>
      if !w.phase.Claimed? then Some(w)
      else Some(w.(audited := audited, phase := match verdict
        case Accepted => ToMarkSent
        case Rejected => ToMarkFailed
        case RateLimited => ToCoolDown(RateLimitRetryAt(retryAfter, w.now))))
    case Record(ok) => RecordLeft(db, k, w, ok)
    case _ => None
  }

  // ---- the machine

  datatype Sys = Sys(db: Db, clock: Time, work: map<WorkKey, Work>)

  datatype Step =
    | Tick(to: Time)
    | Claim(q: Queue, now: Time, ids: set<Id>, owner: string, expires: Time)
    | Worker(key: WorkKey, action: Action)
    | Transact(tx: Tx)

  function NewWork(db: Db, q: Queue, ids: set<Id>, owner: string, now: Time): map<WorkKey, Work> {
    map k | k in (set id | id in ids :: WorkKey(owner, q, id)) && k.id in Tab(db, q) ::
      Work(Tab(db, q)[k.id].dest, Tab(db, q)[k.id].attempts, now, false, Claimed)
  }

  function Leasing(s: Sys, q: Queue, now: Time, ids: set<Id>, owner: string, expires: Time): Sys {
    Sys(Lease(s.db, q, ids, owner, expires), s.clock, s.work + NewWork(s.db, q, ids, owner, now))
  }

  function Next(s: Sys, step: Step): Sys {
    match step
    case Tick(to) => s.(clock := to)
    case Claim(q, now, ids, owner, expires) => Leasing(s, q, now, ids, owner, expires)
    case Worker(key, action) =>
      if key !in s.work then s
      else
        var left := ActLeft(s.db, key, s.work[key], action);
        s.(db := ActDb(s.db, key, s.work[key], action),
           work := if left.Some? then s.work[key := left.value] else s.work - {key})
    case Transact(tx) => s.(db := Commit(s.db, tx))
  }

  /** The runner has no delivery of this queue in flight. */
  ghost predicate Idle(s: Sys, owner: string, q: Queue) {
    forall k | k in s.work :: !(k.owner == owner && k.q == q)
  }

  /**
   The clock never runs backwards, a claim takes due rows, and a runner claims from a queue only after its
   previous batch is finished (one delivery task per runner at a time).
   */
  ghost predicate Allowed(s: Sys, step: Step) {
    match step
    case Tick(to) => s.clock <= to
    case Claim(q, now, ids, owner, expires) =>
      now <= s.clock && now < expires && !Blank(owner) && AllDue(s.db, q, now, ids) && Idle(s, owner, q)
    case Worker(_, _) => true
    case Transact(tx) => Feasible(s.db, tx) && TimeOf(tx, s.clock) <= s.clock
  }

  ghost predicate HoldsLease(db: Db, k: WorkKey) {
    k.id in Tab(db, k.q) && Tab(db, k.q)[k.id].owner == Some(k.owner)
  }

  ghost predicate WorkOk(db: Db, k: WorkKey, w: Work) {
    && !Blank(k.owner) && w.attempts < MAX_ATTEMPTS
    && (HoldsLease(db, k) ==> Tab(db, k.q)[k.id].attempts == w.attempts && Tab(db, k.q)[k.id].dest == w.dest)
    && (w.phase.ToFinishSent? ==> k.id in Tab(db, k.q) && Tab(db, k.q)[k.id].status.Sent?)
    && (w.phase.ToFinishLost? || w.phase.ToFinalize? ==> !HoldsLease(db, k))
  }

  ghost predicate WorkInv(s: Sys) {
    forall k | k in s.work :: WorkOk(s.db, k, s.work[k])
  }

  ghost predicate SysInv(s: Sys) {
    DbInv(s.db) && WorkInv(s)
  }

  // ---- every step keeps the invariant

  /** Tables that only move along edges leave all other work in order. */
  lemma WorkSurvives(db: Db, db': Db, k: WorkKey, w: Work)
    requires DbInv(db) && DbEvolves(db, db') && WorkOk(db, k, w)
    ensures WorkOk(db', k, w)
  {
    var t, t' := Tab(db, k.q), Tab(db', k.q);
    if k.id in t && k.id in t' {
      EdgeKeepsRowInv(t[k.id], t'[k.id]);
      TerminalRows(t[k.id], t'[k.id]);
      if t'[k.id].owner.Some? {
        EdgeTakesNoLease(t[k.id], t'[k.id]);
      }
    }
  }

  lemma RecordSentKeeps(db: Db, k: WorkKey, w: Work)
    requires DbInv(db) && !Blank(k.owner) && w.phase.ToMarkSent?
    ensures Keeps(db, RecordDb(db, k, w))
  {
    MarkSentKeeps(db, k.q, k.id, k.owner);
  }

  lemma RecordFailureKeeps(db: Db, k: WorkKey, w: Work)
    requires DbInv(db) && !Blank(k.owner)
    requires HoldsLease(db, k) ==> Tab(db, k.q)[k.id].attempts == w.attempts
    ensures Keeps(db, RecordFailure(db, k, w))
  {
    MarkFailedKeeps(db, k.q, k.id, Attempt(w), k.owner, w.now);
  }

  lemma RecordLimitedKeeps(db: Db, k: WorkKey, w: Work)
    requires DbInv(db) && !Blank(k.owner) && w.phase.ToMarkLimited?
    ensures Keeps(db, RecordDb(db, k, w))
  {
    MarkRateLimitedKeeps(db, k.q, k.id, k.owner, w.phase.next);
  }

  lemma RecordFinalKeeps(db: Db, k: WorkKey, w: Work)
    requires DbInv(db) && w.phase.ToFinalize?
    ensures Keeps(db, RecordDb(db, k, w))
  {
    FinalizeSentKeeps(db, k.q, k.id);
  }

  predicate Finishing(w: Work) {
    w.phase.ToFinishSent? || w.phase.ToFinishLost? || w.phase.ToFinishFailed? || w.phase.ToCoolDown?
  }

  lemma RecordFinishKeeps(db: Db, k: WorkKey, w: Work)
    requires DbInv(db) && Finishing(w)
    ensures Keeps(db, RecordDb(db, k, w))
  {
    if w.phase.ToFinishSent? {
      FinishIfKeeps(w.audited, db, w.dest, Accepted, None);
    } else if w.phase.ToFinishLost? {
      FinishAttemptKeeps(db, w.dest, Accepted, None);
    } else if w.phase.ToFinishFailed? {
      FinishIfKeeps(w.audited, db, w.dest, Rejected, AuditRetry(Attempt(w), w.now));
    } else {
      FinishIfKeeps(w.audited, db, w.dest, RateLimited, Some(w.phase.next));
    }
  }

  lemma FinishIfKeeps(ok: bool, db: Db, dest: Id, v: Verdict, next: Option<Time>)
    requires DbInv(db)
    ensures Keeps(db, FinishIf(ok, db, dest, v, next))
  {
    if ok {
      FinishAttemptKeeps(db, dest, v, next);
    }
  }

  lemma RecordKeeps(db: Db, k: WorkKey, w: Work)
    requires DbInv(db) && !Blank(k.owner)
    requires HoldsLease(db, k) ==> Tab(db, k.q)[k.id].attempts == w.attempts
    ensures Keeps(db, RecordDb(db, k, w))
  {
    if w.phase.ToMarkSent? {
      RecordSentKeeps(db, k, w);
    } else if w.phase.ToFinalize? {
      RecordFinalKeeps(db, k, w);
    } else if w.phase.ToMarkFailed? {
      RecordFailureKeeps(db, k, w);
    } else if w.phase.ToMarkLimited? {
      RecordLimitedKeeps(db, k, w);
    } else if Finishing(w) {
      RecordFinishKeeps(db, k, w);
    }
  }

  lemma ActKeeps(db: Db, k: WorkKey, w: Work, action: Action)
    requires DbInv(db) && !Blank(k.owner)
    requires HoldsLease(db, k) ==> Tab(db, k.q)[k.id].attempts == w.attempts
    ensures Keeps(db, ActDb(db, k, w, action))
  {
    if action.Panic? && action.ok {
      RecordFailureKeeps(db, k, w);
    } else if action.Record? && action.ok {
      RecordKeeps(db, k, w);
    }
  }

  lemma MarkSentInformsWorker(db: Db, k: WorkKey, w: Work)
    requires WorkOk(db, k, w) && w.phase.ToMarkSent?
    ensures var left := RecordLeft(db, k, w, true);
            left.Some? && WorkOk(MarkSent(db, k.q, k.id, k.owner), k, left.value)
  {
  }

  lemma PhaseOnly(db: Db, k: WorkKey, w: Work, w': Work)
    requires WorkOk(db, k, w) && w'.attempts == w.attempts && w'.dest == w.dest
    requires w'.phase.ToFinishSent? ==> w.phase.ToFinishSent?
    requires w'.phase.ToFinishLost? || w'.phase.ToFinalize? ==> w.phase.ToFinishLost? || w.phase.ToFinalize?
    ensures WorkOk(db, k, w')
  {
  }

  /** After its own store call a worker still knows where it stands. */
  lemma ActKeepsOwnWork(db: Db, k: WorkKey, w: Work, action: Action)
    requires DbInv(db) && DbEvolves(db, ActDb(db, k, w, action)) && WorkOk(db, k, w)
    ensures var left := ActLeft(db, k, w, action); left.Some? ==> WorkOk(ActDb(db, k, w, action), k, left.value)
  {
    var left := ActLeft(db, k, w, action);
    if left.Some? {
      if action.Record? && action.ok && w.phase.ToMarkSent? {
        MarkSentInformsWorker(db, k, w);
      } else {
        WorkSurvives(db, ActDb(db, k, w, action), k, w);
        PhaseOnly(ActDb(db, k, w, action), k, w, left.value);
      }
    }
  }

  lemma NextKeepsWorker(s: Sys, key: WorkKey, action: Action)
    requires SysInv(s)
    ensures SysInv(Next(s, Worker(key, action))) && DbEvolves(s.db, Next(s, Worker(key, action)).db)
  {
    if key in s.work {
      var db' := ActDb(s.db, key, s.work[key], action);
      ActKeeps(s.db, key, s.work[key], action);
      ActKeepsOwnWork(s.db, key, s.work[key], action);
      forall k | k in s.work
        ensures WorkOk(db', k, s.work[k])
      {
        WorkSurvives(s.db, db', k, s.work[k]);
      }
    }
  }

  lemma NextKeepsTransact(s: Sys, tx: Tx)
    requires SysInv(s) && Feasible(s.db, tx)
    ensures SysInv(Next(s, Transact(tx))) && DbEvolves(s.db, Next(s, Transact(tx)).db)
  {
    CommitKeeps(s.db, tx);
    forall k | k in s.work
      ensures WorkOk(Commit(s.db, tx), k, s.work[k])
    {
      WorkSurvives(s.db, Commit(s.db, tx), k, s.work[k]);
    }
  }

  lemma ClaimStartsWork(db: Db, q: Queue, now: Time, ids: set<Id>, owner: string, expires: Time, k: WorkKey)
    requires DbInv(db) && AllDue(db, q, now, ids) && !Blank(owner)
    requires k in NewWork(db, q, ids, owner, now)
    ensures WorkOk(Lease(db, q, ids, owner, expires), k, NewWork(db, q, ids, owner, now)[k])
  {
    assert k.id in ids && k.q == q && k.owner == owner;
    assert RowInv(Tab(db, q)[k.id]);
  }

  lemma ClaimSparesWork(db: Db, q: Queue, now: Time, ids: set<Id>, owner: string, expires: Time, k: WorkKey, w: Work)
    requires DbInv(db) && AllDue(db, q, now, ids) && WorkOk(db, k, w) && !(k.owner == owner && k.q == q)
    ensures WorkOk(Lease(db, q, ids, owner, expires), k, w)
  {
    if k.q == q && k.id in ids {
      assert Due(db, q, now, k.id);
    }
  }

  lemma DueIsPending(db: Db, q: Queue, now: Time, ids: set<Id>)
    requires AllDue(db, q, now, ids)
    ensures AllPending(Tab(db, q), ids)
  {
    forall id | id in ids
      ensures id in Tab(db, q) && Tab(db, q)[id].status.Pending?
    {
      assert Due(db, q, now, id);
    }
  }

  lemma ClaimKeepsWork(s: Sys, q: Queue, now: Time, ids: set<Id>, owner: string, expires: Time)
    requires SysInv(s) && AllDue(s.db, q, now, ids) && !Blank(owner)
    requires Idle(s, owner, q)
    ensures WorkInv(Sys(Lease(s.db, q, ids, owner, expires), s.clock, s.work + NewWork(s.db, q, ids, owner, now)))
  {
    var added := NewWork(s.db, q, ids, owner, now);
    forall k | k in s.work + added
      ensures WorkOk(Lease(s.db, q, ids, owner, expires), k, (s.work + added)[k])
    {
      if k in added {
        ClaimStartsWork(s.db, q, now, ids, owner, expires, k);
      } else {
        ClaimSparesWork(s.db, q, now, ids, owner, expires, k, s.work[k]);
      }
    }
  }

  lemma ClaimKeepsDb(db: Db, q: Queue, now: Time, ids: set<Id>, owner: string, expires: Time)
    requires DbInv(db) && AllDue(db, q, now, ids) && !Blank(owner)
    ensures DbInv(Lease(db, q, ids, owner, expires))
  {
    DueIsPending(db, q, now, ids);
    LeaseKeeps(db, q, ids, owner, expires);
  }

  lemma ClaimKeeps(s: Sys, q: Queue, now: Time, ids: set<Id>, owner: string, expires: Time)
    requires SysInv(s) && AllDue(s.db, q, now, ids) && !Blank(owner)
    requires Idle(s, owner, q)
    ensures SysInv(Leasing(s, q, now, ids, owner, expires))
  {
    ClaimKeepsDb(s.db, q, now, ids, owner, expires);
    ClaimKeepsWork(s, q, now, ids, owner, expires);
  }

  lemma NextKeepsClaim(s: Sys, step: Step)
    requires SysInv(s) && step.Claim? && Allowed(s, step)
    ensures SysInv(Next(s, step))
  {
    ClaimKeeps(s, step.q, step.now, step.ids, step.owner, step.expires);
  }

  lemma NextKeeps(s: Sys, step: Step)
    requires SysInv(s) && Allowed(s, step)
    ensures SysInv(Next(s, step))
  {
    if step.Claim? {
      NextKeepsClaim(s, step);
    } else if step.Worker? {
      NextKeepsWorker(s, step.key, step.action);
    } else if step.Transact? {
      NextKeepsTransact(s, step.tx);
    }
  }

  // ---- runs

  ghost predicate Runs(s: Sys, steps: seq<Step>)
    decreases |steps|
  {
    steps == [] || (Allowed(s, steps[0]) && Runs(Next(s, steps[0]), steps[1..]))
  }

  function After(s: Sys, steps: seq<Step>): Sys
    decreases |steps|
  {
    if steps == [] then s else After(Next(s, steps[0]), steps[1..])
  }

  const START := Sys(EMPTY, 0, map[])

  /** Every state any run reaches satisfies every invariant. */
  lemma {:induction false} RunsKeep(s: Sys, steps: seq<Step>)
    requires SysInv(s) && Runs(s, steps)
    ensures SysInv(After(s, steps))
    decreases |steps|
  {
    if steps != [] {
      NextKeeps(s, steps[0]);
      RunsKeep(Next(s, steps[0]), steps[1..]);
    }
  }

  /** From an empty database on, whatever members, runners, operators and the clock do. */
  lemma ReachableStatesAreSafe(steps: seq<Step>)
    requires Runs(START, steps)
    ensures SysInv(After(START, steps))
  {
    EmptyInv();
    RunsKeep(START, steps);
  }
}
