/** The review holds of the conflict gate: from held to released or discarded, and what never happens to them. */
module HoldSafety {
  import opened Prelude
  import opened Tables
  import opened Governing
  import opened Transactions
  import opened RowAutomaton
  import opened Invariants
  import opened DeliverySystem
  import opened ProtocolSafety

  /** A new hold appears only for a key without an event, hence never for a key that was once released. */
  lemma ReleasedKeysAreNeverHeldAgain(db: Db, tx: Tx, h: Id)
    requires DbInv(db) && Feasible(db, tx) && h !in db.holds && h in Commit(db, tx).holds
    ensures var k := Commit(db, tx).holds[h];
            && k.status.Held? && !EventExists(db, k.user, k.release, k.moment)
            && forall g | g in db.holds && SameHoldKey(db.holds[g], k) :: !db.holds[g].status.Released?
  {
    NewHoldsAreGated(db, tx);
    var k := Commit(db, tx).holds[h];
    forall g | g in db.holds && SameHoldKey(db.holds[g], k)
      ensures !db.holds[g].status.Released?
    {
    }
  }

  /** Every new hold of `db'` is held, for a key without an event in `db`. */
  ghost predicate HoldsGated(db: Db, db': Db) {
    forall h | h in db'.holds && h !in db.holds ::
      db'.holds[h].status.Held? && !EventExists(db, db'.holds[h].user, db'.holds[h].release, db'.holds[h].moment)
  }

  lemma NewHoldsAreGated(db: Db, tx: Tx)
    ensures HoldsGated(db, Commit(db, tx))
  {
    if tx.Admit? {
      EnqueueGates(db, tx.a);
    } else if tx.Drain? && tx.h in db.holds {
      ReAdmitGates(db, tx.h, tx.a);
    } else if tx.Notify? && tx.h in db.holds {
      ReAdmitGates(db, tx.h, tx.a);
    } else if tx.ApproveTx? {
      EnqueueGates(db, tx.a.(bypass := true));
    } else if tx.DigestTx? {
      QueueDigestKeepsHolds(db, tx.plan);
    } else if tx.Discard? || tx.Restore? {
      HoldEditsGate(db, tx);
    }
  }

  lemma QueueDigestKeepsHolds(db: Db, plan: DigestPlan)
    ensures QueueDigest(db, plan).holds == db.holds
  {
    QueueDigestWrites(db, plan);
  }

  lemma HoldEditsGate(db: Db, tx: Tx)
    requires tx.Discard? || tx.Restore?
    ensures HoldsGated(db, Commit(db, tx))
  {
  }

  lemma ReAdmitGates(db: Db, h: Id, a: Admission)
    requires h in db.holds
    ensures HoldsGated(db, ReAdmit(db, h, a))
  {
    EnqueueGates(db, a);
    SettlingGates(db, Enqueue(db, a).db, h, Released);
  }

  lemma SettlingGates(db: Db, db': Db, h: Id, status: HoldStatus)
    requires HoldsGated(db, db') && h in db.holds
    ensures HoldsGated(db, SettleHold(db', h, status))
  {
  }

  lemma EnqueueGates(db: Db, a: Admission)
    ensures HoldsGated(db, Enqueue(db, a).db)
  {
    match Governor(db.policy, a.user, a.release, a.moment)
    case None =>
    case Some(c) =>
      if TakesGate(db, a, c.rule) {
        ConflictGates(db, a);
      } else {
        var deferred := ResumesAt(c.rule, a.now);
        InsertKeepsPolicy(db, a, QueuesImmediate(c.rule, a.now) || deferred.Some?, OrElse(deferred, a.now));
      }
  }

  lemma ConflictGates(db: Db, a: Admission)
    ensures HoldsGated(db, HoldConflicting(db, a).db)
  {
    InsertKeepsPolicy(db, a, true, a.now);
  }

  /** Re-admission that the current rules suppress leaves the hold held. */
  lemma SuppressedReadmissionKeepsHold(db: Db, h: Id, a: Admission)
    requires DbInv(db) && Fits(db, a) && h in db.holds && db.holds[h].status.Held? && ForHold(db.holds[h], a)
    ensures var db' := ReAdmit(db, h, a);
            && h in db'.holds && db'.holds[h] == db.holds[h].(status := db'.holds[h].status)
            && (db'.holds[h].status.Released? <==> Enqueue(db, a).admitted)
            && (db'.holds[h].status.Held? <==> !Enqueue(db, a).admitted)
  {
    EnqueueKeeps(db, a);
  }

  // ---- whole runs

  /** A hold keeps its key; a held one may be released or discarded, a discarded one restored, a released one stays. */
  predicate HoldEdge(h: Hold, h': Hold) {
    && SameHoldKey(h, h')
    && (h'.status == h.status || h.status.Held? || (h.status.Discarded? && h'.status.Held?))
  }

  ghost predicate HoldsMove(db: Db, db': Db) {
    forall h | h in db.holds :: h in db'.holds && HoldEdge(db.holds[h], db'.holds[h])
  }

  lemma ReAdmissionMovesHolds(db: Db, h: Id, a: Admission)
    requires DbInv(db) && Fits(db, a)
    ensures HoldsMove(db, ReAdmit(db, h, a))
  {
    EnqueueKeeps(db, a);
    SettlingMovesHolds(db, Enqueue(db, a).db, h, Released);
  }

  lemma SettlingMovesHolds(db: Db, db1: Db, h: Id, status: HoldStatus)
    requires forall g | g in db.holds :: g in db1.holds && db1.holds[g] == db.holds[g]
    ensures HoldsMove(db, SettleHold(db1, h, status)) && HoldsMove(db, db1)
  {
  }

  lemma RestoringMovesHolds(db: Db, user: Id, h: Id)
    ensures HoldsMove(db, RestoreHold(db, user, h))
  {
  }

  predicate TouchesHolds(tx: Tx) {
    tx.Admit? || tx.Drain? || tx.Notify? || tx.Discard? || tx.Restore? || tx.ApproveTx?
  }

  lemma OtherTxKeepsHolds(db: Db, tx: Tx)
    requires !TouchesHolds(tx)
    ensures Commit(db, tx).holds == db.holds
  {
    if tx.DigestTx? {
      QueueDigestKeepsHolds(db, tx.plan);
    }
  }

  lemma CommitMovesHolds(db: Db, tx: Tx)
    requires DbInv(db) && Feasible(db, tx)
    ensures HoldsMove(db, Commit(db, tx))
  {
    if tx.Admit? {
      EnqueueKeeps(db, tx.a);
      SettlingMovesHolds(db, Enqueue(db, tx.a).db, 0, Held);
    } else if tx.ApproveTx? {
      EnqueueKeeps(db, tx.a.(bypass := true));
      SettlingMovesHolds(db, Enqueue(db, tx.a.(bypass := true)).db, 0, Held);
    } else if tx.Drain? {
      ReAdmissionMovesHolds(db, tx.h, tx.a);
    } else if tx.Notify? {
      ReAdmissionMovesHolds(db, tx.h, tx.a);
    } else if tx.Discard? {
      SettlingMovesHolds(db, db, tx.h, Discarded);
    } else if tx.Restore? {
      RestoringMovesHolds(db, tx.user, tx.h);
    } else {
      OtherTxKeepsHolds(db, tx);
    }
  }

  /** One step of anything: holds move along their edges, and new ones are gated. */
  lemma StepMovesHolds(s: Sys, step: Step)
    requires SysInv(s) && Allowed(s, step)
    ensures HoldsMove(s.db, Next(s, step).db) && HoldsGated(s.db, Next(s, step).db)
  {
    if step.Transact? {
      CommitMovesHolds(s.db, step.tx);
      NewHoldsAreGated(s.db, step.tx);
    } else if step.Worker? && step.key in s.work {
      WorkerWrites(s.db, step.key, s.work[step.key], step.action);
    }
  }

  lemma EventStays(db: Db, db': Db, user: Id, release: Id, moment: Moment)
    requires DbEvolves(db, db') && EventExists(db, user, release, moment)
    ensures EventExists(db', user, release, moment)
  {
    var e :| e in db.events && HasKey(db.events[e], user, release, moment);
    assert db'.events[e] == db.events[e];
  }

  lemma StepKeepsEvents(s: Sys, step: Step, user: Id, release: Id, moment: Moment)
    requires SysInv(s) && Allowed(s, step) && EventExists(s.db, user, release, moment)
    ensures EventExists(Next(s, step).db, user, release, moment)
  {
    if step.Transact? {
      NextKeepsTransact(s, step.tx);
      EventStays(s.db, Next(s, step).db, user, release, moment);
    } else if step.Worker? {
      NextKeepsWorker(s, step.key, step.action);
      EventStays(s.db, Next(s, step).db, user, release, moment);
    } else if step.Claim? {
      LeaseKeepsEvents(s.db, step.q, step.ids, step.owner, step.expires);
    }
  }

  /** A hold is never lost, keeps its key, and once released stays released. */
  lemma {:induction false} ReleasedIsForever(s: Sys, steps: seq<Step>, h: Id)
    requires SysInv(s) && Runs(s, steps) && h in s.db.holds
    ensures h in After(s, steps).db.holds && SameHoldKey(s.db.holds[h], After(s, steps).db.holds[h])
    ensures s.db.holds[h].status.Released? ==> After(s, steps).db.holds[h].status.Released?
    decreases |steps|
  {
    if steps != [] {
      StepMovesHolds(s, steps[0]);
      NextKeeps(s, steps[0]);
      ReleasedIsForever(Next(s, steps[0]), steps[1..], h);
    }
  }

  /** Once a member has the event of a release moment, no run ever puts that moment on hold again. */
  lemma {:induction false} AdmittedIsNeverHeldAgain(
      s: Sys, steps: seq<Step>, user: Id, release: Id, moment: Moment, h: Id)
    requires SysInv(s) && Runs(s, steps) && EventExists(s.db, user, release, moment)
    requires h !in s.db.holds && h in After(s, steps).db.holds
    ensures var k := After(s, steps).db.holds[h]; !(k.user == user && k.release == release && k.moment == moment)
    decreases |steps|
  {
    StepMovesHolds(s, steps[0]);
    NextKeeps(s, steps[0]);
    if h in Next(s, steps[0]).db.holds {
      ReleasedIsForever(Next(s, steps[0]), steps[1..], h);
    } else {
      StepKeepsEvents(s, steps[0], user, release, moment);
      AdmittedIsNeverHeldAgain(Next(s, steps[0]), steps[1..], user, release, moment, h);
    }
  }
}
