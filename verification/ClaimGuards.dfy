/** What keeps a row from being claimed, and how long a provider's cooldown does. */
module ClaimGuards {
  import opened Prelude
  import opened Tables
  import opened Transactions
  import opened DeliverySystem
  import opened ProtocolSafety
  import opened CircuitHistory

  // ---- why a row is left out

  datatype Obstacle = Absent | Settled | Scheduled | Leased | Unreachable | CircuitOpen | CoolingDown

  predicate Bars(db: Db, q: Queue, now: Time, id: Id, o: Obstacle) {
    if id !in Tab(db, q) then o == Absent
    else
      var r := Tab(db, q)[id];
      match o
      case Absent => false
      case Settled => r.status != Pending
      case Scheduled => now < r.nextAt
      case Leased => r.expires.Some? && now < r.expires.value
      case Unreachable => r.dest in db.dests ==> !(db.dests[r.dest].enabled && db.dests[r.dest].supported)
      case CircuitOpen => r.dest in db.health && db.health[r.dest].status == Paused
      case CoolingDown =>
        r.dest in db.health && db.health[r.dest].nextRetry.Some? && now < db.health[r.dest].nextRetry.value
  }

  /** A row is left out of a claim exactly when one of these reasons applies to it. */
  lemma LeftOutIff(db: Db, q: Queue, now: Time, id: Id)
    ensures id !in DueSet(db, q, now) <==> exists o :: Bars(db, q, now, id, o)
  {
    if id !in Tab(db, q) {
      assert Bars(db, q, now, id, Absent);
    } else if id !in DueSet(db, q, now) {
      assert exists o :: Bars(db, q, now, id, o) by {
        assert Bars(db, q, now, id, Settled) || Bars(db, q, now, id, Scheduled) || Bars(db, q, now, id, Leased)
            || Bars(db, q, now, id, Unreachable) || Bars(db, q, now, id, CircuitOpen)
            || Bars(db, q, now, id, CoolingDown);
      }
    }
  }

  // ---- cooldowns

  /** No claim takes rows of a destination inside its provider's cooldown. */
  lemma CooldownBars(db: Db, q: Queue, now: Time, d: Id, until: Time)
    requires d in db.health && db.health[d].nextRetry == Some(until) && now < until
    ensures forall id | id in DueSet(db, q, now) :: Tab(db, q)[id].dest != d
  {
    forall id | id in DueSet(db, q, now)
      ensures Tab(db, q)[id].dest != d
    {
      LeftOutIff(db, q, now, id);
      assert !Bars(db, q, now, id, CoolingDown);
    }
  }

  /** The step records an attempt of the destination, or retries it. */
  predicate Rewrites(s: Sys, step: Step, d: Id) {
    match step
    case Worker(key, Record(true)) => key in s.work && s.work[key].dest == d && Finishing(s.work[key])
    case Transact(Retry(_, dest, _)) => dest == d
    case _ => false
  }

  ghost predicate NeverRewritten(s: Sys, steps: seq<Step>, d: Id)
    decreases |steps|
  {
    steps == [] || (!Rewrites(s, steps[0], d) && NeverRewritten(Next(s, steps[0]), steps[1..], d))
  }

  predicate SameHealth(db: Db, db': Db, d: Id) {
    (d in db.health <==> d in db'.health) && (d in db.health ==> db'.health[d] == db.health[d])
  }

  lemma RecordKeepsHealth(db: Db, k: WorkKey, w: Work, d: Id)
    requires !(w.dest == d && Finishing(w))
    ensures SameHealth(db, RecordDb(db, k, w), d)
  {
    if w.phase.ToFinishSent? || w.phase.ToFinishLost? {
      HealthOutcome(db, w.dest, Accepted, None);
    } else if w.phase.ToFinishFailed? {
      HealthOutcome(db, w.dest, Rejected, AuditRetry(Attempt(w), w.now));
    } else if w.phase.ToCoolDown? {
      HealthOutcome(db, w.dest, RateLimited, Some(w.phase.next));
    } else {
      OtherRecordsKeepHealth(db, k, w);
    }
  }

  lemma ActKeepsHealth(db: Db, k: WorkKey, w: Work, action: Action, d: Id)
    requires action == Record(true) ==> !(w.dest == d && Finishing(w))
    ensures SameHealth(db, ActDb(db, k, w, action), d)
  {
    if action.Panic? {
      FailureKeepsHealth(db, k, w);
    } else if action == Record(true) {
      RecordKeepsHealth(db, k, w, d);
    }
  }

  lemma CommitKeepsHealth(db: Db, tx: Tx, d: Id)
    requires !(tx.Retry? && tx.dest == d)
    ensures SameHealth(db, Commit(db, tx), d)
  {
    if IsAddition(tx) {
      AddingSpares(db, tx);
    } else if tx.FollowTx? || tx.UnfollowTx? || tx.Rules? || tx.Modes? || tx.Pause? {
      RuleStepsKeepHealth(db, tx);
    }
  }

  /** Only recorded attempts and retries of a destination write its health record. */
  lemma OthersKeepHealth(s: Sys, step: Step, d: Id)
    requires !Rewrites(s, step, d)
    ensures SameHealth(s.db, Next(s, step).db, d)
  {
    match step
    case Worker(key, action) =>
      if key in s.work {
        ActKeepsHealth(s.db, key, s.work[key], action, d);
      }
    case Transact(tx) => CommitKeepsHealth(s.db, tx, d);
    case Claim(q, now, ids, owner, expires) => LeasingKeepsHealth(s.db, q, ids, owner, expires);
    case Tick(_) =>
  }

  lemma {:induction false} HealthStays(s: Sys, steps: seq<Step>, d: Id)
    requires NeverRewritten(s, steps, d)
    ensures SameHealth(s.db, After(s, steps).db, d)
    decreases |steps|
  {
    if steps != [] {
      OthersKeepHealth(s, steps[0], d);
      HealthStays(Next(s, steps[0]), steps[1..], d);
    }
  }

  lemma ClaimsAvoid(s: Sys, claim: Step, d: Id, until: Time)
    requires claim.Claim? && Allowed(s, claim) && claim.now < until
    requires d in s.db.health && s.db.health[d].nextRetry == Some(until)
    ensures forall id | id in claim.ids :: id in Tab(s.db, claim.q) && Tab(s.db, claim.q)[id].dest != d
  {
    CooldownBars(s.db, claim.q, claim.now, d, until);
    forall id | id in claim.ids
      ensures id in Tab(s.db, claim.q) && Tab(s.db, claim.q)[id].dest != d
    {
      assert Due(s.db, claim.q, claim.now, id);
      assert id in DueSet(s.db, claim.q, claim.now);
    }
  }

  /**
   Once a rate limit is recorded, no claim takes a row of the destination before the instant the provider asked for, in
   any run in which no other attempt of it is recorded and nobody retries it.
   */
  lemma RateLimitBarsClaims(s: Sys, key: WorkKey, steps: seq<Step>, claim: Step)
    requires key in s.work && s.work[key].phase.ToCoolDown? && s.work[key].audited
    requires NeverRewritten(Next(s, Worker(key, Record(true))), steps, s.work[key].dest)
    requires var t := After(Next(s, Worker(key, Record(true))), steps);
             claim.Claim? && Allowed(t, claim) && claim.now < s.work[key].phase.next
    ensures var t := After(Next(s, Worker(key, Record(true))), steps);
            forall id | id in claim.ids :: id in Tab(t.db, claim.q) && Tab(t.db, claim.q)[id].dest != s.work[key].dest
  {
    var w := s.work[key];
    var limited := Next(s, Worker(key, Record(true)));
    HealthOutcome(s.db, w.dest, RateLimited, Some(w.phase.next));
    assert limited.db == FinishAttempt(s.db, w.dest, RateLimited, Some(w.phase.next));
    HealthStays(limited, steps, w.dest);
    ClaimsAvoid(After(limited, steps), claim, w.dest, w.phase.next);
  }
}
