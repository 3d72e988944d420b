/** What the delivery protocol guarantees, step by step and over whole runs. */
module ProtocolSafety {
  import opened Prelude
  import opened Tables
  import opened Governing
  import opened Transactions
  import opened RowAutomaton
  import opened Invariants
  import opened DeliverySystem

  // ---- rows

  lemma EvolvedRow(db: Db, db': Db, q: Queue, id: Id)
    requires DbEvolves(db, db') && id in Tab(db, q)
    ensures if id in Tab(db', q) then Edge(Tab(db, q)[id], Tab(db', q)[id]) else Open(Tab(db, q)[id])
  {
  }

  lemma StaysEvolved(db: Db)
    ensures DbEvolves(db, db)
  {
  }

  lemma StepEvolves(s: Sys, step: Step)
    requires SysInv(s) && Allowed(s, step) && !step.Claim?
    ensures DbEvolves(s.db, Next(s, step).db)
  {
    if step.Worker? {
      NextKeepsWorker(s, step.key, step.action);
    } else if step.Transact? {
      NextKeepsTransact(s, step.tx);
    } else {
      StaysEvolved(s.db);
    }
  }

  lemma LeaseMovesRow(db: Db, q: Queue, now: Time, ids: set<Id>, owner: string, expires: Time, q': Queue, id: Id)
    requires AllDue(db, q, now, ids) && !Blank(owner) && id in Tab(db, q')
    ensures var t' := Tab(Lease(db, q, ids, owner, expires), q');
            id in t' && (t'[id] == Tab(db, q')[id] || Claims(Tab(db, q')[id], t'[id]))
  {
    if q == q' && id in ids {
      assert Due(db, q, now, id);
    }
  }

  /** Whatever step is taken, a row that stays moves along an edge of its automaton or is claimed. */
  lemma StepMovesRow(s: Sys, step: Step, q: Queue, id: Id)
    requires SysInv(s) && Allowed(s, step)
    requires id in Tab(s.db, q) && id in Tab(Next(s, step).db, q)
    ensures var r, r' := Tab(s.db, q)[id], Tab(Next(s, step).db, q)[id];
            Edge(r, r') || (step.Claim? && Claims(r, r'))
  {
    if step.Claim? {
      LeaseMovesRow(s.db, step.q, step.now, step.ids, step.owner, step.expires, q, id);
    } else {
      StepEvolves(s, step);
      EvolvedRow(s.db, Next(s, step).db, q, id);
    }
  }

  /** Only open rows are ever deleted. */
  lemma StepDeletesOnlyOpen(s: Sys, step: Step, q: Queue, id: Id)
    requires SysInv(s) && Allowed(s, step)
    requires id in Tab(s.db, q) && id !in Tab(Next(s, step).db, q)
    ensures Open(Tab(s.db, q)[id])
  {
    if step.Claim? {
      LeaseMovesRow(s.db, step.q, step.now, step.ids, step.owner, step.expires, q, id);
    } else {
      StepEvolves(s, step);
      EvolvedRow(s.db, Next(s, step).db, q, id);
    }
  }

  lemma SentStaysForOneStep(s: Sys, step: Step, q: Queue, id: Id)
    requires SysInv(s) && Allowed(s, step)
    requires id in Tab(s.db, q) && Tab(s.db, q)[id].status.Sent?
    ensures id in Tab(Next(s, step).db, q) && Tab(Next(s, step).db, q)[id] == Tab(s.db, q)[id]
  {
    if id !in Tab(Next(s, step).db, q) {
      StepDeletesOnlyOpen(s, step, q, id);
    } else {
      StepMovesRow(s, step, q, id);
      assert RowInv(Tab(s.db, q)[id]);
      TerminalRows(Tab(s.db, q)[id], Tab(Next(s, step).db, q)[id]);
    }
  }

  /** A sent row is never changed or deleted again, in any run. */
  lemma {:induction false} SentIsForever(s: Sys, steps: seq<Step>, q: Queue, id: Id)
    requires SysInv(s) && Runs(s, steps)
    requires id in Tab(s.db, q) && Tab(s.db, q)[id].status.Sent?
    ensures id in Tab(After(s, steps).db, q) && Tab(After(s, steps).db, q)[id] == Tab(s.db, q)[id]
    decreases |steps|
  {
    if steps != [] {
      SentStaysForOneStep(s, steps[0], q, id);
      NextKeeps(s, steps[0]);
      SentIsForever(Next(s, steps[0]), steps[1..], q, id);
    }
  }

  /** While a row stays claimed, by whomever, neither its attempts nor its status move. */
  lemma HeldClaimFreezesRow(s: Sys, step: Step, q: Queue, id: Id)
    requires SysInv(s) && Allowed(s, step)
    requires id in Tab(s.db, q) && id in Tab(Next(s, step).db, q)
    requires Tab(s.db, q)[id].owner.Some? && Tab(Next(s, step).db, q)[id].owner.Some?
    ensures var r, r' := Tab(s.db, q)[id], Tab(Next(s, step).db, q)[id];
            r'.attempts == r.attempts && r'.status == r.status
  {
    StepMovesRow(s, step, q, id);
    assert RowInv(Tab(s.db, q)[id]);
    if Edge(Tab(s.db, q)[id], Tab(Next(s, step).db, q)[id]) {
      EdgeTakesNoLease(Tab(s.db, q)[id], Tab(Next(s, step).db, q)[id]);
    }
  }

  /** A claim passes from one runner straight to another only once its lease has run out. */
  lemma LeasesNeverOverlap(s: Sys, step: Step, q: Queue, id: Id)
    requires SysInv(s) && Allowed(s, step)
    requires id in Tab(s.db, q) && id in Tab(Next(s, step).db, q)
    requires Tab(s.db, q)[id].owner.Some? && Tab(Next(s, step).db, q)[id].owner.Some?
    requires Tab(s.db, q)[id].owner != Tab(Next(s, step).db, q)[id].owner
    ensures step.Claim? && Tab(s.db, q)[id].expires.Some?
    ensures Tab(s.db, q)[id].expires.value <= step.now < Tab(Next(s, step).db, q)[id].expires.value
  {
    StepMovesRow(s, step, q, id);
    assert RowInv(Tab(s.db, q)[id]);
    if Edge(Tab(s.db, q)[id], Tab(Next(s, step).db, q)[id]) {
      EdgeTakesNoLease(Tab(s.db, q)[id], Tab(Next(s, step).db, q)[id]);
    } else {
      assert id in step.ids && step.q == q;
      assert Due(s.db, q, step.now, id);
    }
  }

  lemma CommitSparesFailed(db: Db, tx: Tx, q: Queue, id: Id)
    requires DbInv(db) && Feasible(db, tx) && id in Tab(db, q) && Tab(db, q)[id].status.Failed?
    ensures id in Tab(Commit(db, tx), q)
    ensures Tab(Commit(db, tx), q)[id] == Tab(db, q)[id] || (tx.Retry? && tx.dest == Tab(db, q)[id].dest)
  {
    CommitKeeps(db, tx);
    EvolvedRow(db, Commit(db, tx), q, id);
    OnlyRetryTouchesFailed(db, tx, q, id);
  }

  lemma LeaseSparesFailed(db: Db, q: Queue, now: Time, ids: set<Id>, owner: string, expires: Time, q': Queue, id: Id)
    requires AllDue(db, q, now, ids) && id in Tab(db, q') && Tab(db, q')[id].status.Failed?
    ensures var t' := Tab(Lease(db, q, ids, owner, expires), q'); id in t' && t'[id] == Tab(db, q')[id]
  {
    DueIsPending(db, q, now, ids);
  }

  /** `failed` is left only by an explicit retry of the row's own destination. */
  lemma FailedIsLeftOnlyByRetry(s: Sys, step: Step, q: Queue, id: Id)
    requires SysInv(s) && Allowed(s, step)
    requires id in Tab(s.db, q) && Tab(s.db, q)[id].status.Failed?
    ensures id in Tab(Next(s, step).db, q)
    ensures Tab(Next(s, step).db, q)[id] == Tab(s.db, q)[id]
      || (step.Transact? && step.tx.Retry? && step.tx.dest == Tab(s.db, q)[id].dest)
  {
    assert RowInv(Tab(s.db, q)[id]);
    if step.Transact? {
      CommitSparesFailed(s.db, step.tx, q, id);
    } else if step.Worker? && step.key in s.work {
      WorkersSpareFailed(s.db, step.key, s.work[step.key], step.action, q, id);
    } else if step.Claim? {
      LeaseSparesFailed(s.db, step.q, step.now, step.ids, step.owner, step.expires, q, id);
    }
  }

  lemma ClosingSparesRows(db: Db, run: Id)
    ensures var c := CloseRun(db, run); c == db.(runs := c.runs)
    ensures var c := FailRun(db, run); c == db.(runs := c.runs)
  {
  }

  lemma CompleteTouches(db: Db, q: Queue, id: Id)
    requires id in Tab(db, q)
    ensures var db' := CompleteRow(db, q, id); db' == PutRow(db, q, id, SentRow(Tab(db, q)[id])).(runs := db'.runs)
  {
    ClosingSparesRows(PutRow(db, q, id, SentRow(Tab(db, q)[id])), Tab(db, q)[id].parent);
  }

  lemma MarkFailedTouches(db: Db, q: Queue, id: Id, attempts: nat, owner: string, now: Time)
    requires Hits(Tab(db, q), id, owner)
    ensures var db' := MarkFailed(db, q, id, attempts, owner, now);
            db' == PutRow(db, q, id, FailedRow(Tab(db, q)[id], attempts, now)).(runs := db'.runs)
  {
    ClosingSparesRows(PutRow(db, q, id, FailedRow(Tab(db, q)[id], attempts, now)), Tab(db, q)[id].parent);
  }

  /** The worker owns the row it is about to write, or finalises an unclaimed one. */
  predicate MayWrite(db: Db, k: WorkKey, w: Work) {
    Hits(Tab(db, k.q), k.id, k.owner) || (w.phase.ToFinalize? && Finalizable(Tab(db, k.q), k.id))
  }

  /** Recording this failure pauses the destination. */
  predicate Trips(db: Db, w: Work, action: Action) {
    && action.Record? && action.ok && w.phase.ToFinishFailed? && w.audited
    && (if w.dest in db.health then db.health[w.dest].failures + 1 else 1) >= TRIP
  }

  ghost predicate Touches(db: Db, db': Db, k: WorkKey, w: Work, trips: bool, q: Queue, id: Id)
    requires id in Tab(db, q)
  {
    && id in Tab(db', q)
    && (Tab(db', q)[id] == (if trips then BlockRow(Tab(db, q)[id], w.dest) else Tab(db, q)[id])
        || (q == k.q && id == k.id && MayWrite(db, k, w) && !trips))
  }

  lemma PutTouches(db: Db, db': Db, k: WorkKey, w: Work, r': Row, q: Queue, id: Id)
    requires id in Tab(db, q) && MayWrite(db, k, w) && db' == PutRow(db, k.q, k.id, r').(runs := db'.runs)
    ensures Touches(db, db', k, w, false, q, id)
  {
    if q == k.q {
      assert Tab(db', q) == Tab(db, q)[k.id := r'];
    } else {
      assert Tab(db', q) == Tab(db, q);
    }
  }

  lemma FailureTouches(db: Db, k: WorkKey, w: Work, q: Queue, id: Id)
    requires id in Tab(db, q)
    ensures Touches(db, RecordFailure(db, k, w), k, w, false, q, id)
  {
    if Hits(Tab(db, k.q), k.id, k.owner) {
      MarkFailedTouches(db, k.q, k.id, Attempt(w), k.owner, w.now);
      PutTouches(db, RecordFailure(db, k, w), k, w, FailedRow(Tab(db, k.q)[k.id], Attempt(w), w.now), q, id);
    }
  }

  lemma CompletionTouches(db: Db, k: WorkKey, w: Work, q: Queue, id: Id)
    requires id in Tab(db, q) && MayWrite(db, k, w)
    ensures Touches(db, CompleteRow(db, k.q, k.id), k, w, false, q, id)
  {
    CompleteTouches(db, k.q, k.id);
    PutTouches(db, CompleteRow(db, k.q, k.id), k, w, SentRow(Tab(db, k.q)[k.id]), q, id);
  }

  lemma SentTouches(db: Db, k: WorkKey, w: Work, q: Queue, id: Id)
    requires id in Tab(db, q) && (w.phase.ToMarkSent? || w.phase.ToFinalize?)
    ensures Touches(db, RecordDb(db, k, w), k, w, false, q, id)
  {
    if MayWrite(db, k, w) {
      CompletionTouches(db, k, w, q, id);
    }
  }

  lemma LimitedTouches(db: Db, k: WorkKey, w: Work, q: Queue, id: Id)
    requires id in Tab(db, q) && w.phase.ToMarkLimited?
    ensures Touches(db, RecordDb(db, k, w), k, w, false, q, id)
  {
    if MayWrite(db, k, w) {
      PutTouches(db, RecordDb(db, k, w), k, w, LimitedRow(Tab(db, k.q)[k.id], w.phase.next), q, id);
    }
  }

  lemma FinishTouches(db: Db, k: WorkKey, w: Work, q: Queue, id: Id)
    requires id in Tab(db, q) && Finishing(w)
    ensures Touches(db, RecordDb(db, k, w), k, w, Trips(db, w, Record(true)), q, id)
  {
  }

  /** A worker's store call changes its own row only with its lease, and other rows only by tripping the circuit. */
  lemma WorkerTouches(db: Db, k: WorkKey, w: Work, action: Action, q: Queue, id: Id)
    requires id in Tab(db, q)
    ensures Touches(db, ActDb(db, k, w, action), k, w, Trips(db, w, action), q, id)
  {
    if action.Panic? {
      FailureTouches(db, k, w, q, id);
    } else if action.Record? {
      if w.phase.ToMarkFailed? {
        FailureTouches(db, k, w, q, id);
      } else if w.phase.ToMarkSent? || w.phase.ToFinalize? {
        SentTouches(db, k, w, q, id);
      } else if w.phase.ToMarkLimited? {
        LimitedTouches(db, k, w, q, id);
      } else if Finishing(w) {
        FinishTouches(db, k, w, q, id);
      }
    }
  }

  /** Workers write the queues, the digest runs and the destination health, and nothing else. */
  ghost predicate WritesQueues(db: Db, db': Db) {
    && db'.policy == db.policy && db'.events == db.events && db'.dests == db.dests
    && db'.holds == db.holds && db'.issues == db.issues
  }

  lemma PutWrites(db: Db, db': Db, q: Queue, id: Id, r': Row)
    requires db' == PutRow(db, q, id, r').(runs := db'.runs)
    ensures WritesQueues(db, db')
  {
  }

  lemma FailureWrites(db: Db, k: WorkKey, w: Work)
    ensures WritesQueues(db, RecordFailure(db, k, w))
  {
    if Hits(Tab(db, k.q), k.id, k.owner) {
      MarkFailedTouches(db, k.q, k.id, Attempt(w), k.owner, w.now);
      PutWrites(db, RecordFailure(db, k, w), k.q, k.id, FailedRow(Tab(db, k.q)[k.id], Attempt(w), w.now));
    }
  }

  lemma CompletionWrites(db: Db, q: Queue, id: Id)
    requires id in Tab(db, q)
    ensures WritesQueues(db, CompleteRow(db, q, id))
  {
    CompleteTouches(db, q, id);
    PutWrites(db, CompleteRow(db, q, id), q, id, SentRow(Tab(db, q)[id]));
  }

  lemma LimitWrites(db: Db, q: Queue, id: Id, owner: string, next: Time)
    ensures WritesQueues(db, MarkRateLimited(db, q, id, owner, next))
  {
  }

  lemma FinishWrites(ok: bool, db: Db, dest: Id, v: Verdict, next: Option<Time>)
    ensures WritesQueues(db, FinishIf(ok, db, dest, v, next))
  {
  }

  lemma RecordWrites(db: Db, k: WorkKey, w: Work)
    ensures WritesQueues(db, RecordDb(db, k, w))
  {
    if w.phase.ToMarkFailed? {
      FailureWrites(db, k, w);
    } else if w.phase.ToMarkSent? || w.phase.ToFinalize? {
      if k.id in Tab(db, k.q) {
        CompletionWrites(db, k.q, k.id);
      }
    } else if w.phase.ToMarkLimited? {
      LimitWrites(db, k.q, k.id, k.owner, w.phase.next);
    } else if w.phase.ToFinishSent? {
      FinishWrites(w.audited, db, w.dest, Accepted, None);
    } else if w.phase.ToFinishLost? {
      FinishWrites(true, db, w.dest, Accepted, None);
    } else if w.phase.ToFinishFailed? {
      FinishWrites(w.audited, db, w.dest, Rejected, AuditRetry(Attempt(w), w.now));
    } else if w.phase.ToCoolDown? {
      FinishWrites(w.audited, db, w.dest, RateLimited, Some(w.phase.next));
    }
  }

  lemma WorkerWrites(db: Db, k: WorkKey, w: Work, action: Action)
    ensures WritesQueues(db, ActDb(db, k, w, action))
  {
    if action.Record? {
      RecordWrites(db, k, w);
    } else if action.Panic? {
      FailureWrites(db, k, w);
    }
  }

  lemma LeaseKeepsEvents(db: Db, q: Queue, ids: set<Id>, owner: string, expires: Time)
    ensures Lease(db, q, ids, owner, expires).events == db.events
  {
  }

  lemma WorkersSpareFailed(db: Db, k: WorkKey, w: Work, action: Action, q: Queue, id: Id)
    requires id in Tab(db, q) && Tab(db, q)[id].status.Failed? && Tab(db, q)[id].owner.None? && !Blank(k.owner)
    ensures id in Tab(ActDb(db, k, w, action), q) && Tab(ActDb(db, k, w, action), q)[id] == Tab(db, q)[id]
  {
    WorkerTouches(db, k, w, action, q, id);
  }

  /** Admissions and edits add rows at most. */
  ghost predicate Spares(db: Db, db': Db) {
    && (forall id | id in db.deliveries :: id in db'.deliveries && db'.deliveries[id] == db.deliveries[id])
    && (forall id | id in db.digests :: id in db'.digests && db'.digests[id] == db.digests[id])
    && db'.health == db.health
  }

  predicate IsAddition(tx: Tx) {
    || tx.Admit? || tx.Drain? || tx.Notify? || tx.Discard? || tx.Restore? || tx.ApproveTx? || tx.DigestTx?
    || tx.NewDestination? || tx.FollowOnlyTx? || tx.EditPolicyTx? || tx.EditIssuesTx?
  }

  lemma EnqueueSpares(db: Db, a: Admission)
    ensures Spares(db, Enqueue(db, a).db)
  {
    match Governor(db.policy, a.user, a.release, a.moment)
    case None =>
    case Some(c) =>
      if TakesGate(db, a, c.rule) {
        HoldConflictingSpares(db, a);
      } else {
        var deferred := ResumesAt(c.rule, a.now);
        InsertEventSpares(db, a, QueuesImmediate(c.rule, a.now) || deferred.Some?, OrElse(deferred, a.now));
      }
  }

  lemma InsertEventSpares(db: Db, a: Admission, queue: bool, at: Time)
    ensures Spares(db, InsertEvent(db, a, queue, at))
  {
  }

  /** The gate leaves everything alone, inserts the event, or adds one hold. */
  lemma GateOutcomes(db: Db, a: Admission)
    ensures var db' := HoldConflicting(db, a).db;
            db' == db || db' == InsertEvent(db, a, true, a.now) || db' == db.(holds := db'.holds)
  {
  }

  lemma HoldConflictingSpares(db: Db, a: Admission)
    ensures Spares(db, HoldConflicting(db, a).db)
  {
    GateOutcomes(db, a);
    InsertEventSpares(db, a, true, a.now);
    HoldsOnlySpares(db, db.(holds := HoldConflicting(db, a).db.holds));
  }

  lemma HoldsOnlySpares(db: Db, db': Db)
    requires db' == db.(holds := db'.holds)
    ensures Spares(db, db')
  {
  }

  lemma SettleSpares(db: Db, h: Id, status: HoldStatus)
    ensures Spares(db, SettleHold(db, h, status))
  {
  }

  lemma RestoreSpares(db: Db, user: Id, h: Id)
    ensures Spares(db, RestoreHold(db, user, h))
  {
  }

  lemma ReAdmitSpares(db: Db, h: Id, a: Admission)
    ensures Spares(db, ReAdmit(db, h, a))
  {
    EnqueueSpares(db, a);
    SettleSpares(Enqueue(db, a).db, h, Released);
  }

  lemma FanOutSpares(db: Db, t: map<Id, Row>, parent: Id, rows: map<Id, Id>, at: Time)
    ensures var t' := FanOut(db, t, parent, rows, at); forall id | id in t :: id in t' && t'[id] == t[id]
  {
  }

  /** A digest transaction writes runs and digest rows only, and adds rows at most. */
  lemma QueueDigestWrites(db: Db, plan: DigestPlan)
    ensures var db' := QueueDigest(db, plan); db' == db.(runs := db'.runs, digests := db'.digests)
  {
    if plan.found.Some? {
      var attached := db.(digests := FanOut(db, db.digests, plan.found.value, plan.rows, plan.now));
      assert QueueDigest(db, plan) == db || QueueDigest(db, plan) == attached;
    } else {
      var db1 := db.(runs := db.runs[plan.runId := Run(plan.user, plan.now, RunPending)]);
      assert QueueDigest(db, plan) == db1.(digests := FanOut(db1, db1.digests, plan.runId, plan.rows, plan.now));
    }
  }

  lemma QueueDigestKeepsRows(db: Db, plan: DigestPlan, id: Id)
    requires id in db.digests
    ensures id in QueueDigest(db, plan).digests && QueueDigest(db, plan).digests[id] == db.digests[id]
  {
    var db1 := if plan.found.Some? then db else db.(runs := db.runs[plan.runId := Run(plan.user, plan.now, RunPending)]);
    FanOutSpares(db1, db.digests, RunFor(plan), plan.rows, plan.now);
  }

  lemma QueueDigestSpares(db: Db, plan: DigestPlan)
    ensures Spares(db, QueueDigest(db, plan))
  {
    var db' := QueueDigest(db, plan);
    QueueDigestWrites(db, plan);
    forall id | id in db.digests
      ensures id in db'.digests && db'.digests[id] == db.digests[id]
    {
      QueueDigestKeepsRows(db, plan, id);
    }
  }

  lemma DrainSpares(db: Db, h: Id, a: Admission)
    ensures Spares(db, DrainHold(db, h, a))
  {
    ReAdmitSpares(db, h, a);
  }

  lemma NotifySpares(db: Db, user: Id, h: Id, a: Admission)
    ensures Spares(db, NotifyHold(db, user, h, a))
  {
    ReAdmitSpares(db, h, a);
  }

  lemma DiscardSpares(db: Db, user: Id, h: Id)
    ensures Spares(db, DiscardHold(db, user, h))
  {
    SettleSpares(db, h, Discarded);
  }

  lemma ApproveSpares(db: Db, a: Admission, bypassBlocking: bool)
    ensures Spares(db, Approve(db, a, bypassBlocking))
  {
    EnqueueSpares(db, a.(bypass := true));
  }

  predicate Admits(tx: Tx) {
    tx.Admit? || tx.Drain? || tx.Notify? || tx.ApproveTx?
  }

  lemma AdmittingSpares(db: Db, tx: Tx)
    requires Admits(tx)
    ensures Spares(db, Commit(db, tx))
  {
    if tx.Admit? {
      EnqueueSpares(db, tx.a);
    } else if tx.Drain? {
      DrainSpares(db, tx.h, tx.a);
    } else if tx.Notify? {
      NotifySpares(db, tx.user, tx.h, tx.a);
    } else {
      ApproveSpares(db, tx.a, tx.bypassBlocking);
    }
  }

  predicate Edits(tx: Tx) {
    tx.NewDestination? || tx.FollowOnlyTx? || tx.EditPolicyTx? || tx.EditIssuesTx?
  }

  lemma EditingSpares(db: Db, tx: Tx)
    requires Edits(tx)
    ensures Spares(db, Commit(db, tx))
  {
  }

  lemma AddingSpares(db: Db, tx: Tx)
    requires IsAddition(tx)
    ensures Spares(db, Commit(db, tx))
  {
    if Admits(tx) {
      AdmittingSpares(db, tx);
    } else if tx.Discard? {
      DiscardSpares(db, tx.user, tx.h);
    } else if tx.Restore? {
      RestoreSpares(db, tx.user, tx.h);
    } else if tx.DigestTx? {
      QueueDigestSpares(db, tx.plan);
    } else {
      EditingSpares(db, tx);
    }
  }

  lemma OnlyRetryTouchesFailed(db: Db, tx: Tx, q: Queue, id: Id)
    requires id in Tab(db, q) && Tab(db, q)[id].status.Failed?
    requires id in Tab(Commit(db, tx), q)
    ensures Tab(Commit(db, tx), q)[id] == Tab(db, q)[id] || (tx.Retry? && tx.dest == Tab(db, q)[id].dest)
  {
    if IsAddition(tx) {
      AddingSpares(db, tx);
    } else {
      match tx
      case Retry(_, _, _) =>
      case ReleaseTx(_) =>
      case Cancel(_) =>
      case Recover(_) =>
      case Repair(_, _) =>
      case FollowTx(_, _, _) =>
      case UnfollowTx(_, _, _) =>
      case Rules(_, _, _, _) =>
      case Modes(_, _, _, _) =>
      case Pause(_, _, _, _) =>
    }
  }

  // ---- workers that lost their lease

  /**
   A worker whose row was claimed by another runner changes that row exactly when recording its own failure
   trips the circuit of the destination; then the row is blocked with the rest of the queue.
   */
  lemma LateWorkerOnlyTrips(s: Sys, key: WorkKey, action: Action, other: string)
    requires SysInv(s) && key in s.work && key.id in Tab(s.db, key.q)
    requires Tab(s.db, key.q)[key.id].owner == Some(other) && other != key.owner
    ensures var r := Tab(s.db, key.q)[key.id];
            var db' := Next(s, Worker(key, action)).db;
            && key.id in Tab(db', key.q)
            && (Tab(db', key.q)[key.id] != r <==> Trips(s.db, s.work[key], action) && s.work[key].dest == r.dest)
            && (Tab(db', key.q)[key.id] != r ==> IsBlocked(r, Tab(db', key.q)[key.id]))
  {
    assert WorkOk(s.db, key, s.work[key]);
    assert RowInv(Tab(s.db, key.q)[key.id]);
    WorkerTouches(s.db, key, s.work[key], action, key.q, key.id);
  }

  /** How the row of an accepted message can end: recorded, terminal, or taken over by another worker. */
  predicate Settled(r: Row, owner: string) {
    r.status.Sent? || r.status.Failed? || (r.owner.Some? && r.owner != Some(owner))
  }

  ghost predicate SendSettled(db: Db, key: WorkKey) {
    key.id in Tab(db, key.q) ==> Settled(Tab(db, key.q)[key.id], key.owner)
  }

  predicate AfterSend(w: Work) {
    w.phase.ToMarkSent? || w.phase.ToFinishSent? || w.phase.ToFinishLost? || w.phase.ToFinalize?
  }

  /**
   With a working store, a worker whose message was accepted lets go of it only once the send is settled. Its own
   calls delete nothing (`DeletionIff`), so a missing row was missing before.
   */
  lemma AcceptedSendSettles(s: Sys, key: WorkKey)
    requires SysInv(s) && key in s.work && AfterSend(s.work[key])
    requires key !in Next(s, Worker(key, Record(true))).work
    ensures SendSettled(Next(s, Worker(key, Record(true))).db, key)
  {
    var w := s.work[key];
    assert WorkOk(s.db, key, w);
    if key.id in Tab(s.db, key.q) {
      assert RowInv(Tab(s.db, key.q)[key.id]);
      if w.phase.ToFinishSent? {
        WorkerTouches(s.db, key, w, Record(true), key.q, key.id);
      } else if Finalizable(Tab(s.db, key.q), key.id) {
        CompleteTouches(s.db, key.q, key.id);
      }
    }
  }

  /** Three store calls at most separate an accepted message from that point. */
  lemma AcceptedSendTerminates(db: Db, key: WorkKey, w: Work)
    requires AfterSend(w)
    ensures var left := ActLeft(db, key, w, Record(true));
            left.Some? ==> AfterSend(left.value) && Distance(left.value) < Distance(w) <= 3
  {
  }

  function Distance(w: Work): nat {
    if w.phase.ToMarkSent? then 3 else if w.phase.ToFinishLost? then 2 else 1
  }

  // ---- leases

  predicate LiveLease(r: Row, clock: Time) {
    r.owner.Some? && r.expires.Some? && r.expires.value > clock
  }

  /** The row keeps its lease, or its own worker lets go of it, or the circuit of its destination trips. */
  predicate LeaseRespected(s: Sys, step: Step, r: Row, r': Row, q: Queue, id: Id)
    requires r.owner.Some?
  {
    || r' == r || r' == r.(nextAt := r'.nextAt)
    || (step.Worker? && step.key == WorkKey(r.owner.value, q, id))
    || (step.Worker? && step.key in s.work && Trips(s.db, s.work[step.key], step.action)
        && s.work[step.key].dest == r.dest && IsBlocked(r, r'))
  }

  lemma ClaimRespectsLease(
      db: Db, q: Queue, now: Time, ids: set<Id>, owner: string, expires: Time, clock: Time, q': Queue, id: Id)
    requires AllDue(db, q, now, ids) && now <= clock && id in Tab(db, q') && LiveLease(Tab(db, q')[id], clock)
    ensures var t' := Tab(Lease(db, q, ids, owner, expires), q'); id in t' && t'[id] == Tab(db, q')[id]
  {
    DueRowsAreFree(db, q, now, ids);
  }

  lemma DueRowsAreFree(db: Db, q: Queue, now: Time, ids: set<Id>)
    requires AllDue(db, q, now, ids)
    ensures forall id | id in ids :: id in Tab(db, q) && !LiveLease(Tab(db, q)[id], now)
  {
    forall id | id in ids
      ensures id in Tab(db, q) && !LiveLease(Tab(db, q)[id], now)
    {
      assert Due(db, q, now, id);
    }
  }

  lemma TransactRespectsLease(s: Sys, tx: Tx, q: Queue, id: Id)
    requires SysInv(s) && Allowed(s, Transact(tx))
    requires id in Tab(s.db, q) && LiveLease(Tab(s.db, q)[id], s.clock)
    ensures id in Tab(Commit(s.db, tx), q)
    ensures LeaseRespected(s, Transact(tx), Tab(s.db, q)[id], Tab(Commit(s.db, tx), q)[id], q, id)
  {
    assert RowInv(Tab(s.db, q)[id]);
    CommitRespectsLease(s.db, tx, s.clock, q, id);
  }

  lemma WorkerStepRespectsLease(s: Sys, key: WorkKey, action: Action, q: Queue, id: Id)
    requires SysInv(s) && key in s.work
    requires id in Tab(s.db, q) && LiveLease(Tab(s.db, q)[id], s.clock)
    ensures id in Tab(ActDb(s.db, key, s.work[key], action), q)
    ensures LeaseRespected(s, Worker(key, action), Tab(s.db, q)[id],
              Tab(ActDb(s.db, key, s.work[key], action), q)[id], q, id)
  {
    assert RowInv(Tab(s.db, q)[id]);
    assert WorkOk(s.db, key, s.work[key]);
    WorkerRespectsLease(s.db, key, s.work[key], action, q, id);
  }

  /** Only its own worker or the circuit breaker ends a live lease. */
  lemma LiveLeaseIsRespected(s: Sys, step: Step, q: Queue, id: Id)
    requires SysInv(s) && Allowed(s, step)
    requires id in Tab(s.db, q) && LiveLease(Tab(s.db, q)[id], s.clock)
    ensures id in Tab(Next(s, step).db, q)
    ensures LeaseRespected(s, step, Tab(s.db, q)[id], Tab(Next(s, step).db, q)[id], q, id)
  {
    if step.Transact? {
      TransactRespectsLease(s, step.tx, q, id);
    } else if step.Worker? && step.key in s.work {
      WorkerStepRespectsLease(s, step.key, step.action, q, id);
    } else if step.Claim? {
      ClaimRespectsLease(s.db, step.q, step.now, step.ids, step.owner, step.expires, s.clock, q, id);
    }
  }

  lemma WorkerRespectsLease(db: Db, k: WorkKey, w: Work, action: Action, q: Queue, id: Id)
    requires id in Tab(db, q) && Tab(db, q)[id].owner.Some? && RowInv(Tab(db, q)[id]) && !Blank(k.owner)
    ensures var t' := Tab(ActDb(db, k, w, action), q);
            && id in t'
            && (|| t'[id] == Tab(db, q)[id] || k == WorkKey(Tab(db, q)[id].owner.value, q, id)
                || (Trips(db, w, action) && w.dest == Tab(db, q)[id].dest && IsBlocked(Tab(db, q)[id], t'[id])))
  {
    WorkerTouches(db, k, w, action, q, id);
  }

  ghost predicate OnlyRescheduled(db: Db, db': Db, q: Queue, id: Id)
    requires id in Tab(db, q)
  {
    id in Tab(db', q) && Tab(db', q)[id] == Tab(db, q)[id].(nextAt := Tab(db', q)[id].nextAt)
  }

  lemma RealignReschedules(db: Db, user: Id, artists: set<Id>, now: Time, q: Queue, id: Id)
    requires id in Tab(db, q)
    ensures OnlyRescheduled(db, Realign(db, user, artists, now), q, id)
  {
  }

  lemma PolicyReschedules(db: Db, p: Policy, user: Id, artists: set<Id>, now: Time, q: Queue, id: Id)
    requires id in Tab(db, q)
    ensures OnlyRescheduled(db, Realign(db.(policy := p), user, artists, now), q, id)
  {
    RealignReschedules(db.(policy := p), user, artists, now, q, id);
  }

  lemma RuleStepsReschedule(db: Db, tx: Tx, q: Queue, id: Id)
    requires id in Tab(db, q) && (tx.FollowTx? || tx.Rules? || tx.Modes? || tx.Pause?)
    ensures OnlyRescheduled(db, Commit(db, tx), q, id)
  {
    var p := db.policy;
    if tx.FollowTx? {
      PolicyReschedules(db, WithFollow(p, tx.user, tx.artist), tx.user, Positive([tx.artist]), tx.now, q, id);
    } else if tx.Rules? {
      var ids := Positive(tx.artists);
      PolicyReschedules(db, WithRules(p, tx.user, ids, tx.rule), tx.user, ids, tx.now, q, id);
    } else if tx.Modes? {
      var ids := Positive(tx.artists);
      PolicyReschedules(db, WithModes(p, tx.user, ids, tx.mode), tx.user, ids, tx.now, q, id);
    } else {
      var rule := RuleOf(p, tx.user, tx.artist).(pausedUntil := tx.until);
      PolicyReschedules(
        db, WithRules(p, tx.user, {tx.artist}, rule), tx.user, Positive([tx.artist]), tx.now, q, id);
    }
  }

  lemma UnfollowRespectsLease(db: Db, user: Id, artist: Id, now: Time, q: Queue, id: Id)
    requires id in Tab(db, q) && LiveLease(Tab(db, q)[id], now)
    ensures OnlyRescheduled(db, Unfollow(db, user, artist, now), q, id)
  {
    var db2 := Abandon(db.(policy := WithoutFollow(db.policy, user, artist)), user, artist, now);
    assert id in Tab(db2, q) && Tab(db2, q)[id] == Tab(db, q)[id];
    RealignReschedules(db2, user, Positive([artist]), now, q, id);
  }

  lemma CommitRespectsLease(db: Db, tx: Tx, clock: Time, q: Queue, id: Id)
    requires id in Tab(db, q) && Tab(db, q)[id].status.Pending? && LiveLease(Tab(db, q)[id], clock)
    requires TimeOf(tx, clock) <= clock
    ensures OnlyRescheduled(db, Commit(db, tx), q, id)
  {
    if IsAddition(tx) {
      AddingSpares(db, tx);
    } else if tx.UnfollowTx? {
      UnfollowRespectsLease(db, tx.user, tx.artist, tx.now, q, id);
    } else if tx.FollowTx? || tx.Rules? || tx.Modes? || tx.Pause? {
      RuleStepsReschedule(db, tx, q, id);
    }
  }

  // ---- circuit breaker

  /** In every reachable state: paused means a streak of five, and no pending row in either queue. */
  lemma PausedDestinationsRest(s: Sys, d: Id)
    requires SysInv(s) && d in s.db.health
    ensures s.db.health[d].status.Paused? <==> s.db.health[d].failures >= TRIP
    ensures s.db.health[d].status.Paused? ==>
              forall q: Queue, id | id in Tab(s.db, q) && Tab(s.db, q)[id].dest == d ::
                !Tab(s.db, q)[id].status.Pending?
  {
    forall q: Queue, id | id in Tab(s.db, q) && Tab(s.db, q)[id].dest == d && Tab(s.db, q)[id].status.Pending?
      ensures !s.db.health[d].status.Paused?
    {
      assert QueueStatus(s.db, Tab(s.db, q)[id].dest).Pending?;
    }
  }

  /** Late successes, late failures and rate limits never un-pause a destination; only its owner's retry does. */
  lemma OnlyRetryUnpauses(s: Sys, step: Step, d: Id)
    requires SysInv(s) && Allowed(s, step) && IsPaused(s.db, d) && !IsPaused(Next(s, step).db, d)
    ensures step.Transact? && step.tx.Retry? && step.tx.dest == d
    ensures d in s.db.dests && s.db.dests[d].user == step.tx.user
  {
    if step.Transact? {
      if !(step.tx.Retry? && step.tx.dest == d && d in s.db.dests && s.db.dests[d].user == step.tx.user) {
        CommitKeepsPaused(s.db, step.tx, d);
      }
    } else if step.Worker? && step.key in s.work {
      ActKeepsPaused(s.db, step.key, s.work[step.key], step.action, d);
    }
  }

  lemma RealignKeepsHealth(db: Db, p: Policy, user: Id, artists: set<Id>, now: Time)
    ensures Realign(db.(policy := p), user, artists, now).health == db.health
  {
  }

  lemma UnfollowKeepsHealth(db: Db, user: Id, artist: Id, now: Time)
    ensures Unfollow(db, user, artist, now).health == db.health
  {
    var db1 := db.(policy := WithoutFollow(db.policy, user, artist));
    RealignKeepsHealth(Abandon(db1, user, artist, now), db1.policy, user, Positive([artist]), now);
  }

  lemma RuleStepsKeepHealth(db: Db, tx: Tx)
    requires tx.FollowTx? || tx.UnfollowTx? || tx.Rules? || tx.Modes? || tx.Pause?
    ensures Commit(db, tx).health == db.health
  {
    if tx.UnfollowTx? {
      UnfollowKeepsHealth(db, tx.user, tx.artist, tx.now);
    }
  }

  lemma CommitKeepsPaused(db: Db, tx: Tx, d: Id)
    requires IsPaused(db, d) && !(tx.Retry? && tx.dest == d && d in db.dests && db.dests[d].user == tx.user)
    ensures IsPaused(Commit(db, tx), d)
  {
    if IsAddition(tx) {
      AddingSpares(db, tx);
    } else if tx.FollowTx? || tx.UnfollowTx? || tx.Rules? || tx.Modes? || tx.Pause? {
      RuleStepsKeepHealth(db, tx);
    }
  }

  lemma FailureKeepsHealth(db: Db, k: WorkKey, w: Work)
    ensures RecordFailure(db, k, w).health == db.health
  {
    if Hits(Tab(db, k.q), k.id, k.owner) {
      MarkFailedTouches(db, k.q, k.id, Attempt(w), k.owner, w.now);
    }
  }

  lemma CompletionKeepsHealth(db: Db, q: Queue, id: Id)
    requires id in Tab(db, q)
    ensures CompleteRow(db, q, id).health == db.health
  {
    CompleteTouches(db, q, id);
  }

  lemma FinishKeepsPaused(db: Db, dest: Id, v: Verdict, next: Option<Time>, d: Id)
    requires IsPaused(db, d) && db.health[d].failures >= TRIP
    ensures IsPaused(FinishAttempt(db, dest, v, next), d)
  {
  }

  lemma ActKeepsPaused(db: Db, k: WorkKey, w: Work, action: Action, d: Id)
    requires IsPaused(db, d) && db.health[d].failures >= TRIP
    ensures IsPaused(ActDb(db, k, w, action), d)
  {
    if action.Panic? {
      FailureKeepsHealth(db, k, w);
    } else if action.Record? {
      if w.phase.ToMarkFailed? {
        FailureKeepsHealth(db, k, w);
      } else if w.phase.ToMarkSent? || w.phase.ToFinalize? {
        if k.id in Tab(db, k.q) {
          CompletionKeepsHealth(db, k.q, k.id);
        }
      } else if w.phase.ToFinishFailed? {
        FinishKeepsPaused(db, w.dest, Rejected, AuditRetry(Attempt(w), w.now), d);
      }
    }
  }

  // ---- conservation

  /**
   A delivery disappears only when its member follows neither the artist nor any credited artist of the release
   and no live claim exists; whether a governing follow can be found plays no part.
   */
  lemma DeliveriesDisappearOnlyAsOrphans(s: Sys, step: Step, id: Id)
    requires SysInv(s) && Allowed(s, step)
    requires id in s.db.deliveries && id !in Next(s, step).db.deliveries
    ensures var r := s.db.deliveries[id];
            && Open(r) && !LiveLease(r, s.clock) && r.parent in s.db.events
            && !IsFollowed(Next(s, step).db.policy, s.db.events[r.parent].user, s.db.events[r.parent].release)
            && step.Transact? && (step.tx.Cancel? || step.tx.UnfollowTx?)
  {
    if step.Worker? && step.key in s.work {
      WorkerTouches(s.db, step.key, s.work[step.key], step.action, Deliveries, id);
    } else if step.Transact? && IsAddition(step.tx) {
      AddingSpares(s.db, step.tx);
    } else if step.Transact? {
      OrphansOnly(s.db, step.tx, id);
    }
  }

  /** The step is a cancellation or an unfollow, and its DELETE statement takes the row. */
  predicate Deletes(db: Db, step: Step, q: Queue, id: Id) {
    q.Deliveries? && id in db.deliveries && step.Transact? &&
    match step.tx
    case Cancel(now) => Orphaned(db, db.deliveries[id], now)
    case UnfollowTx(user, artist, now) =>
      && (user, artist) in db.policy.follows
      && Abandoned(db.(policy := WithoutFollow(db.policy, user, artist)), db.deliveries[id], user, artist, now)
    case _ => false
  }

  /** A row disappears exactly by such a deletion; digest rows never do. */
  lemma DeletionIff(s: Sys, step: Step, q: Queue, id: Id)
    requires SysInv(s) && Allowed(s, step) && id in Tab(s.db, q)
    ensures id !in Tab(Next(s, step).db, q) <==> Deletes(s.db, step, q, id)
  {
    if step.Worker? && step.key in s.work {
      WorkerTouches(s.db, step.key, s.work[step.key], step.action, q, id);
    } else if step.Claim? {
      LeaseMovesRow(s.db, step.q, step.now, step.ids, step.owner, step.expires, q, id);
    } else if step.Transact? {
      CommitDeletesIff(s.db, step.tx, q, id);
    }
  }

  lemma CommitDeletesIff(db: Db, tx: Tx, q: Queue, id: Id)
    requires id in Tab(db, q)
    ensures id !in Tab(Commit(db, tx), q) <==> Deletes(db, Transact(tx), q, id)
  {
    if IsAddition(tx) {
      AddingSpares(db, tx);
    } else if tx.UnfollowTx? {
      UnfollowDeletesIff(db, tx.user, tx.artist, tx.now, q, id);
    } else if tx.FollowTx? || tx.Rules? || tx.Modes? || tx.Pause? {
      RuleStepsReschedule(db, tx, q, id);
    } else {
      MaintenanceDeletesIff(db, tx, q, id);
    }
  }

  lemma UnfollowDeletesIff(db: Db, user: Id, artist: Id, now: Time, q: Queue, id: Id)
    requires id in Tab(db, q)
    ensures id !in Tab(Unfollow(db, user, artist, now), q)
       <==> Deletes(db, Transact(UnfollowTx(user, artist, now)), q, id)
  {
    var db1 := db.(policy := WithoutFollow(db.policy, user, artist));
    RealignKeepsIds(Abandon(db1, user, artist, now), user, Positive([artist]), now);
  }

  lemma MaintenanceDeletesIff(db: Db, tx: Tx, q: Queue, id: Id)
    requires id in Tab(db, q) && (tx.Retry? || tx.ReleaseTx? || tx.Cancel? || tx.Recover? || tx.Repair?)
    ensures id !in Tab(Commit(db, tx), q) <==> tx.Cancel? && Deletes(db, Transact(tx), q, id)
  {
  }

  lemma OrphansOnly(db: Db, tx: Tx, id: Id)
    requires !IsAddition(tx) && id in db.deliveries && id !in Commit(db, tx).deliveries
    ensures tx.Cancel? || tx.UnfollowTx?
    ensures var r := db.deliveries[id];
            && Open(r) && Unclaimed(r, TimeOf(tx, 0)) && r.parent in db.events
            && !IsFollowed(Commit(db, tx).policy, db.events[r.parent].user, db.events[r.parent].release)
  {
    if tx.UnfollowTx? {
      UnfollowOrphans(db, tx.user, tx.artist, tx.now, id);
    } else if tx.FollowTx? || tx.Rules? || tx.Modes? || tx.Pause? {
      RuleStepsReschedule(db, tx, Deliveries, id);
    }
  }

  lemma RealignKeepsIds(db: Db, user: Id, artists: set<Id>, now: Time)
    ensures var db' := Realign(db, user, artists, now);
            db' == db.(deliveries := db'.deliveries) && db'.deliveries.Keys == db.deliveries.Keys
  {
  }

  lemma UnfollowOrphans(db: Db, user: Id, artist: Id, now: Time, id: Id)
    requires id in db.deliveries && id !in Unfollow(db, user, artist, now).deliveries
    ensures Orphaned(Unfollow(db, user, artist, now), db.deliveries[id], now)
  {
    var db1 := db.(policy := WithoutFollow(db.policy, user, artist));
    var db2 := Abandon(db1, user, artist, now);
    RealignKeepsIds(db2, user, Positive([artist]), now);
    AbandonedIsOrphaned(db1, db2, Unfollow(db, user, artist, now), user, artist, now, id);
  }

  lemma AbandonedIsOrphaned(db1: Db, db2: Db, db': Db, user: Id, artist: Id, now: Time, id: Id)
    requires db2 == Abandon(db1, user, artist, now) && db' == db2.(deliveries := db'.deliveries)
    requires id in db1.deliveries && id !in db2.deliveries
    ensures Orphaned(db', db1.deliveries[id], now)
  {
    assert Abandoned(db1, db1.deliveries[id], user, artist, now);
  }

  // ---- digest runs

  /** In every reachable state the status of a run is the one its rows imply. */
  lemma DigestRunStatus(s: Sys, run: Id)
    requires SysInv(s) && run in s.db.runs
    ensures var status := s.db.runs[run].status;
            var t := s.db.digests;
            && (HasRows(t, run) && !HasOpen(t, run) ==> status == if HasFailed(t, run) then RunFailed else RunSent)
            && (HasOpen(t, run) ==> !status.RunSent?)
            && (status.RunPending? && HasRows(t, run) ==> HasOpen(t, run))
            && (status.RunSent? ==> forall id | id in t && t[id].parent == run :: t[id].status.Sent?)
  {
    assert RunInv(s.db, run);
    if s.db.runs[run].status.RunSent? {
      forall id | id in s.db.digests && s.db.digests[id].parent == run
        ensures s.db.digests[id].status.Sent?
      {
        assert HasRows(s.db.digests, run) && !HasOpen(s.db.digests, run) && !HasFailed(s.db.digests, run);
      }
    }
  }

  /** The cheap pre-check is exact: a settled period queues nothing. */
  lemma SettledPeriodQueuesNothing(db: Db, plan: DigestPlan)
    requires DbInv(db) && FitsDigest(db, plan)
    ensures PeriodSettled(db, plan.found) ==> QueueDigest(db, plan) == db
    ensures QueueDigest(db, plan) == db && plan.found.Some? ==>
      PeriodSettled(db, plan.found) || forall id :: id !in plan.rows
  {
    if plan.found.Some? && !PeriodSettled(db, plan.found) {
      if id :| id in plan.rows {
        assert id in QueueDigest(db, plan).digests && id !in db.digests;
      }
    }
  }

  // ---- admission

  /** Admitting the same moment again, at any later reading of the clock, changes nothing. */
  lemma AdmissionIsIdempotent(db: Db, a: Admission, again: Admission)
    requires DbInv(db) && Fits(db, a) && Fits(Enqueue(db, a).db, again)
    requires again.user == a.user && again.release == a.release && again.moment == a.moment
    requires again.bypass == a.bypass
    ensures Enqueue(Enqueue(db, a).db, again).db == Enqueue(db, a).db
  {
    match Governor(db.policy, a.user, a.release, a.moment)
    case None =>
    case Some(c) =>
      if TakesGate(db, a, c.rule) {
        GatedTwice(db, a, again, c);
      } else {
        InsertedTwice(db, a, again, c);
      }
  }

  lemma GatedTwice(db: Db, a: Admission, again: Admission, c: Candidate)
    requires DbInv(db) && Fits(db, a) && Fits(HoldConflicting(db, a).db, again)
    requires again.user == a.user && again.release == a.release && again.moment == a.moment
    requires again.bypass == a.bypass
    requires Governor(db.policy, a.user, a.release, a.moment) == Some(c) && TakesGate(db, a, c.rule)
    ensures Enqueue(HoldConflicting(db, a).db, again).db == HoldConflicting(db, a).db
  {
    GateKeepsPolicy(db, a);
    QueueingIgnoresTheClock(c.rule, a.now, again.now);
    GateIsIdempotent(db, a, again);
  }

  function QueuesAt(rule: Rule, now: Time): bool {
    QueuesImmediate(rule, now) || ResumesAt(rule, now).Some?
  }

  lemma InsertedTwice(db: Db, a: Admission, again: Admission, c: Candidate)
    requires DbInv(db) && Fits(db, a)
    requires Fits(InsertEvent(db, a, QueuesAt(c.rule, a.now), OrElse(ResumesAt(c.rule, a.now), a.now)), again)
    requires again.user == a.user && again.release == a.release && again.moment == a.moment
    requires again.bypass == a.bypass
    requires Governor(db.policy, a.user, a.release, a.moment) == Some(c) && !TakesGate(db, a, c.rule)
    ensures var db1 := InsertEvent(db, a, QueuesAt(c.rule, a.now), OrElse(ResumesAt(c.rule, a.now), a.now));
            Enqueue(db1, again).db == db1
  {
    var queue, at := QueuesAt(c.rule, a.now), OrElse(ResumesAt(c.rule, a.now), a.now);
    InsertKeepsPolicy(db, a, queue, at);
    QueueingIgnoresTheClock(c.rule, a.now, again.now);
    InsertIsIdempotent(db, a, queue, at, again, OrElse(ResumesAt(c.rule, again.now), again.now));
  }

  /** A pause changes when a follow's alerts are queued for, never whether they are queued. */
  lemma QueueingIgnoresTheClock(rule: Rule, now: Time, later: Time)
    ensures QueuesImmediate(rule, now) || ResumesAt(rule, now).Some?
       <==> QueuesImmediate(rule, later) || ResumesAt(rule, later).Some?
  {
  }

  lemma InsertKeepsPolicy(db: Db, a: Admission, queue: bool, at: Time)
    ensures var db' := InsertEvent(db, a, queue, at);
            db'.policy == db.policy && db'.issues == db.issues && db'.dests == db.dests && db'.holds == db.holds
  {
  }

  lemma GateKeepsPolicy(db: Db, a: Admission)
    ensures HoldConflicting(db, a).db.policy == db.policy && HoldConflicting(db, a).db.issues == db.issues
  {
    InsertKeepsPolicy(db, a, true, a.now);
  }

  /** Every destination that is due a row has one after the fan-out. */
  lemma FanOutIsComplete(db: Db, t: map<Id, Row>, user: Id, parent: Id, created: Time, rows: map<Id, Id>, at: Time)
    requires Fresh(t, rows, Targets(db, t, user, parent, created))
    ensures Targets(db, FanOut(db, t, parent, rows, at), user, parent, created) == {}
  {
    var t' := FanOut(db, t, parent, rows, at);
    forall d | d in db.dests && db.dests[d].user == user && db.dests[d].enabled && db.dests[d].createdAt <= created
      ensures HasRow(t', parent, d)
    {
      if HasRow(t, parent, d) {
        var id :| id in t && t[id].parent == parent && t[id].dest == d;
        assert t'[id] == t[id];
      } else {
        assert d in Targets(db, t, user, parent, created);
        assert Serves(rows, d);
        var id :| id in rows && rows[id] == d;
        assert t'[id].parent == parent && t'[id].dest == d;
      }
    }
  }

  lemma SameEvent(db: Db, a: Admission, queue: bool, at: Time, again: Admission)
    requires DbInv(db) && Fits(db, a)
    requires again.user == a.user && again.release == a.release && again.moment == a.moment
    requires Fits(InsertEvent(db, a, queue, at), again)
    ensures var db1 := InsertEvent(db, a, queue, at);
            a.eid in db1.events && again.eid == a.eid && db1.events[a.eid].createdAt == EventCreated(db, a)
  {
    var db1 := InsertEvent(db, a, queue, at);
    InsertEventKeeps(db, a, queue, at);
    assert UniqueEvents(db1.events);
    assert SameKey(db1.events[again.eid], db1.events[a.eid]);
  }

  /** With a row for every target, another fan-out adds nothing. */
  lemma NothingLeft(db: Db, t: map<Id, Row>, user: Id, parent: Id, created: Time, rows: map<Id, Id>, at: Time)
    requires Fresh(t, rows, Targets(db, t, user, parent, created)) && Targets(db, t, user, parent, created) == {}
    ensures FanOut(db, t, parent, rows, at) == t
  {
    assert |rows| == 0;
  }

  /** A second fan-out finds no target. */
  lemma InsertIsIdempotent(db: Db, a: Admission, queue: bool, at: Time, again: Admission, at': Time)
    requires DbInv(db) && Fits(db, a)
    requires again.user == a.user && again.release == a.release && again.moment == a.moment
    requires Fits(InsertEvent(db, a, queue, at), again)
    ensures InsertEvent(InsertEvent(db, a, queue, at), again, queue, at') == InsertEvent(db, a, queue, at)
  {
    SameEvent(db, a, queue, at, again);
    if queue {
      var db1 := InsertEvent(db, a, queue, at);
      QueuedForAll(db, a, at);
      NothingLeft(db1, db1.deliveries, a.user, a.eid, EventCreated(db, a), again.rows, at');
    }
  }

  lemma QueuedForAll(db: Db, a: Admission, at: Time)
    requires Fits(db, a)
    ensures var db1 := InsertEvent(db, a, true, at);
            Targets(db1, db1.deliveries, a.user, a.eid, EventCreated(db, a)) == {}
  {
    var db0 := InsertEvent(db, a, false, at);
    var db1 := InsertEvent(db, a, true, at);
    assert Targets(db0, db0.deliveries, a.user, a.eid, EventCreated(db, a))
        == Targets(db, db.deliveries, a.user, a.eid, EventCreated(db, a));
    FanOutIsComplete(db0, db0.deliveries, a.user, a.eid, EventCreated(db, a), a.rows, at);
    assert db1.deliveries == FanOut(db0, db0.deliveries, a.eid, a.rows, at);
  }

  /** The gate has already decided about the key. */
  predicate GateDecided(db: Db, a: Admission) {
    || EventExists(db, a.user, a.release, a.moment)
    || HoldExists(db, a.user, a.release, a.moment, Discarded)
    || (!Blank(Join(IssuesOf(db, a.release))) && HoldExists(db, a.user, a.release, a.moment, Held))
  }

  lemma DecidedGateIsIdle(db: Db, a: Admission)
    requires GateDecided(db, a)
    ensures HoldConflicting(db, a).db == db
  {
  }

  lemma GateDecides(db: Db, a: Admission)
    requires DbInv(db) && Fits(db, a)
    ensures GateDecided(HoldConflicting(db, a).db, a)
  {
    var db' := HoldConflicting(db, a).db;
    if !GateDecided(db, a) {
      if Blank(Join(IssuesOf(db, a.release))) {
        InsertEventKeeps(db, a, true, a.now);
      } else {
        assert db'.holds[a.holdId] == Hold(a.user, a.release, a.moment, Held);
      }
    }
  }

  lemma GateIsIdempotent(db: Db, a: Admission, again: Admission)
    requires DbInv(db) && Fits(db, a)
    requires again.user == a.user && again.release == a.release && again.moment == a.moment
    ensures HoldConflicting(HoldConflicting(db, a).db, again).db == HoldConflicting(db, a).db
  {
    GateDecides(db, a);
    DecidedGateIsIdle(HoldConflicting(db, a).db, again);
  }
}
