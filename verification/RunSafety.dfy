/** Leases and accepted messages over whole runs, whatever steps of others come in between. */
module RunSafety {
  import opened Prelude
  import opened Tables
  import opened Transactions
  import opened RowAutomaton
  import opened Invariants
  import opened DeliverySystem
  import opened ProtocolSafety

  // ---- two claims of one row

  ghost predicate IsClaimed(db: Db, q: Queue, id: Id) {
    id in Tab(db, q) && Tab(db, q)[id].owner.Some? && Tab(db, q)[id].expires.Some?
  }

  /** Nobody lets go of the row: it is claimed in every state of the run. */
  ghost predicate NeverReleased(s: Sys, steps: seq<Step>, q: Queue, id: Id)
    decreases |steps|
  {
    IsClaimed(s.db, q, id) && (steps == [] || NeverReleased(Next(s, steps[0]), steps[1..], q, id))
  }

  /** From one state to the next, the lease of a row that stays claimed ends no earlier. */
  lemma LeaseOnlyGrows(s: Sys, step: Step, q: Queue, id: Id)
    requires SysInv(s) && Allowed(s, step) && IsClaimed(s.db, q, id) && IsClaimed(Next(s, step).db, q, id)
    ensures Tab(s.db, q)[id].expires.value <= Tab(Next(s, step).db, q)[id].expires.value
  {
    assert RowInv(Tab(s.db, q)[id]);
    if step.Claim? {
      ClaimExtends(s.db, step.q, step.now, step.ids, step.owner, step.expires, q, id);
    } else {
      StepEvolves(s, step);
      EvolvedRow(s.db, Next(s, step).db, q, id);
      EdgeTakesNoLease(Tab(s.db, q)[id], Tab(Next(s, step).db, q)[id]);
    }
  }

  lemma ClaimExtends(db: Db, q: Queue, now: Time, ids: set<Id>, owner: string, expires: Time, q': Queue, id: Id)
    requires AllDue(db, q, now, ids) && now < expires && IsClaimed(db, q', id)
    ensures var t' := Tab(Lease(db, q, ids, owner, expires), q');
            id in t' && t'[id].expires.Some? && Tab(db, q')[id].expires.value <= t'[id].expires.value
  {
    if q == q' && id in ids {
      assert Due(db, q, now, id);
    }
  }

  lemma {:induction false} LeaseOnlyGrowsInRuns(s: Sys, steps: seq<Step>, q: Queue, id: Id)
    requires SysInv(s) && Runs(s, steps) && NeverReleased(s, steps, q, id)
    ensures SysInv(After(s, steps)) && IsClaimed(After(s, steps).db, q, id)
    ensures Tab(s.db, q)[id].expires.value <= Tab(After(s, steps).db, q)[id].expires.value
    decreases |steps|
  {
    if steps != [] {
      LeaseOnlyGrows(s, steps[0], q, id);
      NextKeeps(s, steps[0]);
      LeaseOnlyGrowsInRuns(Next(s, steps[0]), steps[1..], q, id);
    }
  }

  /**
   Any two claims of a row with no release in between, whoever makes them and whatever else happens: the second is
   made only when the lease of the first has run out.
   */
  lemma ClaimsNeverOverlap(s: Sys, first: Step, between: seq<Step>, second: Step, id: Id)
    requires SysInv(s) && first.Claim? && second.Claim? && first.q == second.q
    requires id in first.ids && id in second.ids
    requires Allowed(s, first) && Runs(Next(s, first), between) && Allowed(After(Next(s, first), between), second)
    requires NeverReleased(Next(s, first), between, first.q, id)
    ensures first.now < first.expires <= second.now < second.expires
  {
    NextKeeps(s, first);
    ClaimLeases(s.db, first.q, first.now, first.ids, first.owner, first.expires, id);
    LeaseOnlyGrowsInRuns(Next(s, first), between, first.q, id);
    DueIsExpired(After(Next(s, first), between).db, second.q, second.now, second.ids, id);
  }

  lemma ClaimLeases(db: Db, q: Queue, now: Time, ids: set<Id>, owner: string, expires: Time, id: Id)
    requires AllDue(db, q, now, ids) && id in ids
    ensures var t' := Tab(Lease(db, q, ids, owner, expires), q); id in t' && t'[id].expires == Some(expires)
  {
    assert Due(db, q, now, id);
  }

  lemma DueIsExpired(db: Db, q: Queue, now: Time, ids: set<Id>, id: Id)
    requires AllDue(db, q, now, ids) && id in ids
    ensures id in Tab(db, q) && (Tab(db, q)[id].expires.Some? ==> Tab(db, q)[id].expires.value <= now)
  {
    assert Due(db, q, now, id);
  }

  /** As long as the row stays claimed, by whomever, neither its attempts nor its status move. */
  lemma {:induction false} ClaimedRowIsFrozen(s: Sys, steps: seq<Step>, q: Queue, id: Id)
    requires SysInv(s) && Runs(s, steps) && NeverReleased(s, steps, q, id)
    ensures IsClaimed(After(s, steps).db, q, id)
    ensures var r, r' := Tab(s.db, q)[id], Tab(After(s, steps).db, q)[id];
            r'.attempts == r.attempts && r'.status == r.status
    decreases |steps|
  {
    if steps != [] {
      HeldClaimFreezesRow(s, steps[0], q, id);
      NextKeeps(s, steps[0]);
      ClaimedRowIsFrozen(Next(s, steps[0]), steps[1..], q, id);
    }
  }

  // ---- an accepted message

  ghost predicate HasSent(s: Sys, key: WorkKey) {
    key in s.work && AfterSend(s.work[key])
  }

  /** The worker's own store calls succeed; everyone else does anything. */
  predicate OwnCallsSucceed(steps: seq<Step>, key: WorkKey) {
    forall i | 0 <= i < |steps| :: steps[i].Worker? && steps[i].key == key ==> steps[i].action == Record(true)
  }

  lemma OthersSpareWork(s: Sys, step: Step, key: WorkKey)
    requires Allowed(s, step) && key in s.work && !(step.Worker? && step.key == key)
    ensures key in Next(s, step).work && Next(s, step).work[key] == s.work[key]
  {
    if step.Claim? {
      ClaimSparesKey(s, step.q, step.now, step.ids, step.owner, step.expires, key);
    }
  }

  lemma ClaimSparesKey(s: Sys, q: Queue, now: Time, ids: set<Id>, owner: string, expires: Time, key: WorkKey)
    requires Idle(s, owner, q) && key in s.work
    ensures var w' := Leasing(s, q, now, ids, owner, expires).work; key in w' && w'[key] == s.work[key]
  {
    assert !(key.owner == owner && key.q == q);
  }

  lemma OwnCallMovesOn(s: Sys, key: WorkKey)
    requires HasSent(s, key)
    ensures var s' := Next(s, Worker(key, Record(true))); key in s'.work ==> HasSent(s', key)
  {
    AcceptedSendTerminates(s.db, key, s.work[key]);
  }

  lemma PrefixAfterStep(s: Sys, steps: seq<Step>, m: nat)
    requires m < |steps| && Allowed(s, steps[0]) && Runs(Next(s, steps[0]), steps[1..][..m])
    ensures Runs(s, steps[..m + 1])
    ensures After(s, steps[..m + 1]) == After(Next(s, steps[0]), steps[1..][..m])
  {
    assert steps[..m + 1][0] == steps[0] && steps[..m + 1][1..] == steps[1..][..m];
  }

  /** Until its last store call the worker goes on; with that call the send is settled. */
  lemma OneStepOn(s: Sys, step: Step, key: WorkKey)
    requires SysInv(s) && Allowed(s, step) && HasSent(s, key)
    requires step.Worker? && step.key == key ==> step.action == Record(true)
    ensures if key in Next(s, step).work then HasSent(Next(s, step), key)
            else step == Worker(key, Record(true)) && SendSettled(Next(s, step).db, key)
  {
    if !(step.Worker? && step.key == key) {
      OthersSpareWork(s, step, key);
    } else {
      OwnCallMovesOn(s, key);
      if key !in Next(s, step).work {
        AcceptedSendSettles(s, key);
      }
    }
  }

  /** The worker lets go of the message with step `n`, and the send is settled then. */
  ghost predicate SettledBy(s: Sys, steps: seq<Step>, key: WorkKey, n: nat) {
    && n < |steps| && steps[n] == Worker(key, Record(true))
    && Runs(s, steps[..n]) && HasSent(After(s, steps[..n]), key)
    && Runs(s, steps[..n + 1]) && key !in After(s, steps[..n + 1]).work
    && SendSettled(After(s, steps[..n + 1]).db, key)
  }

  lemma SettledLater(s: Sys, steps: seq<Step>, key: WorkKey, m: nat)
    requires steps != [] && Allowed(s, steps[0]) && SettledBy(Next(s, steps[0]), steps[1..], key, m)
    ensures SettledBy(s, steps, key, m + 1)
  {
    PrefixAfterStep(s, steps, m);
    PrefixAfterStep(s, steps, m + 1);
  }

  lemma SettledNow(s: Sys, steps: seq<Step>, key: WorkKey)
    requires steps != [] && Allowed(s, steps[0]) && HasSent(s, key) && steps[0] == Worker(key, Record(true))
    requires key !in Next(s, steps[0]).work && SendSettled(Next(s, steps[0]).db, key)
    ensures SettledBy(s, steps, key, 0)
  {
    PrefixAfterStep(s, steps, 0);
  }

  /**
   Once a provider has accepted a message and the worker's own store calls succeed, then in every run in which the
   worker finishes, at the moment it does the row, if it still exists, is sent, terminal or claimed by another worker,
   whatever steps of other runners, members, operators and the clock come in between.
   */
  lemma {:induction false} AcceptedSendSettlesInRuns(s: Sys, steps: seq<Step>, key: WorkKey) returns (n: nat)
    requires SysInv(s) && Runs(s, steps) && HasSent(s, key) && OwnCallsSucceed(steps, key)
    requires key !in After(s, steps).work
    ensures SettledBy(s, steps, key, n)
    decreases |steps|
  {
    NextKeeps(s, steps[0]);
    OneStepOn(s, steps[0], key);
    if key in Next(s, steps[0]).work {
      assert forall i | 0 <= i < |steps[1..]| :: steps[1..][i] == steps[i + 1];
      var m := AcceptedSendSettlesInRuns(Next(s, steps[0]), steps[1..], key);
      SettledLater(s, steps, key, m);
      n := m + 1;
    } else {
      SettledNow(s, steps, key);
      n := 0;
    }
  }

  // ---- what becomes of its row

  lemma {:induction false} RunsJoin(s: Sys, a: seq<Step>, b: seq<Step>)
    requires Runs(s, a) && Runs(After(s, a), b)
    ensures Runs(s, a + b) && After(s, a + b) == After(After(s, a), b)
    decreases |a|
  {
    if a == [] {
      assert a + b == b;
    } else {
      RunsJoin(Next(s, a[0]), a[1..], b);
      assert (a + b)[0] == a[0] && (a + b)[1..] == a[1..] + b;
    }
  }

  /** The row is there in every state of the run. */
  ghost predicate Stays(s: Sys, steps: seq<Step>, q: Queue, id: Id)
    decreases |steps|
  {
    id in Tab(s.db, q) && (steps == [] || Stays(Next(s, steps[0]), steps[1..], q, id))
  }

  /** No cancellation and no unfollow of the run takes the row away. */
  ghost predicate NothingDeletes(s: Sys, steps: seq<Step>, q: Queue, id: Id)
    decreases |steps|
  {
    steps == [] || (!Deletes(s.db, steps[0], q, id) && NothingDeletes(Next(s, steps[0]), steps[1..], q, id))
  }

  /** A row that stays goes to the same destination for the same event or digest run. */
  predicate SameWork(r: Row, r': Row) {
    r'.parent == r.parent && r'.dest == r.dest
  }

  lemma {:induction false} StaysIff(s: Sys, steps: seq<Step>, q: Queue, id: Id)
    requires SysInv(s) && Runs(s, steps) && id in Tab(s.db, q)
    ensures Stays(s, steps, q, id) <==> NothingDeletes(s, steps, q, id)
    ensures Stays(s, steps, q, id) ==>
              id in Tab(After(s, steps).db, q) && SameWork(Tab(s.db, q)[id], Tab(After(s, steps).db, q)[id])
    ensures q.Digests? ==> NothingDeletes(s, steps, q, id)
    decreases |steps|
  {
    if steps != [] {
      DeletionIff(s, steps[0], q, id);
      NextKeeps(s, steps[0]);
      if id in Tab(Next(s, steps[0]).db, q) {
        StepMovesRow(s, steps[0], q, id);
        EdgeKeepsRowInv(Tab(s.db, q)[id], Tab(Next(s, steps[0]).db, q)[id]);
        StaysIff(Next(s, steps[0]), steps[1..], q, id);
      }
    }
  }

  /** The very row `r` of the message is still there, and sent, terminal or claimed by another worker. */
  ghost predicate EndsSettled(db: Db, key: WorkKey, r: Row) {
    key.id in Tab(db, key.q) && SameWork(r, Tab(db, key.q)[key.id]) && Settled(Tab(db, key.q)[key.id], key.owner)
  }

  /**
   The exact end of an accepted message. Take any run from a state in which the row of the message exists, its claim
   for instance, to the moment the worker lets go of the message: the row was there all along, and ends sent, terminal
   or claimed by another worker, exactly when no cancellation or unfollow of the run deletes it. Digest rows always
   are.
   */
  lemma AcceptedSendEndsIff(s: Sys, before: seq<Step>, steps: seq<Step>, key: WorkKey) returns (n: nat)
    requires SysInv(s) && Runs(s, before) && key.id in Tab(s.db, key.q)
    requires Runs(After(s, before), steps) && HasSent(After(s, before), key) && OwnCallsSucceed(steps, key)
    requires key !in After(After(s, before), steps).work
    ensures SettledBy(After(s, before), steps, key, n)
    ensures var run := before + steps[..n + 1];
            && Runs(s, run) && After(s, run) == After(After(s, before), steps[..n + 1])
            && (Stays(s, run, key.q, key.id) && EndsSettled(After(s, run).db, key, Tab(s.db, key.q)[key.id])
                <==> NothingDeletes(s, run, key.q, key.id))
            && (key.q.Digests? ==> NothingDeletes(s, run, key.q, key.id))
  {
    RunsKeep(s, before);
    n := AcceptedSendSettlesInRuns(After(s, before), steps, key);
    RunsJoin(s, before, steps[..n + 1]);
    StaysIff(s, before + steps[..n + 1], key.q, key.id);
  }

  // ---- the audited retry

  /** The steps are those of others. */
  predicate OthersOnly(steps: seq<Step>, key: WorkKey) {
    forall i | 0 <= i < |steps| :: !(steps[i].Worker? && steps[i].key == key)
  }

  lemma {:induction false} OthersSpareWorkInRuns(s: Sys, steps: seq<Step>, key: WorkKey)
    requires Runs(s, steps) && OthersOnly(steps, key) && key in s.work
    ensures key in After(s, steps).work && After(s, steps).work[key] == s.work[key]
    decreases |steps|
  {
    if steps != [] {
      OthersSpareWork(s, steps[0], key);
      assert forall i | 0 <= i < |steps[1..]| :: steps[1..][i] == steps[i + 1];
      OthersSpareWorkInRuns(Next(s, steps[0]), steps[1..], key);
    }
  }

  /**
   The two store calls of a failed attempt agree on the next retry, although each computes it for itself and anything
   may happen in between: what the health record shows is the schedule the row was put on, and nothing once the row
   has failed for good. The second call leaves the row, wherever it is by then, unless it trips the circuit.
   */
  lemma HealthShowsRowSchedule(s: Sys, between: seq<Step>, key: WorkKey)
    requires SysInv(s) && key in s.work && HoldsLease(s.db, key)
    requires s.work[key].phase.ToMarkFailed? && s.work[key].audited
    requires Runs(Next(s, Worker(key, Record(true))), between) && OthersOnly(between, key)
    ensures var marked := Next(s, Worker(key, Record(true)));
            var later := After(marked, between);
            var finished := Next(later, Worker(key, Record(true)));
            && key.id in Tab(marked.db, key.q) && s.work[key].dest in finished.db.health
            && OnSchedule(Tab(marked.db, key.q)[key.id], finished.db.health[s.work[key].dest].nextRetry)
            && (key.id in Tab(later.db, key.q) ==>
                  FinishedRow(later.db, finished.db, key, s.work[key].dest))
  {
    var w := s.work[key];
    var marked := Next(s, Worker(key, Record(true)));
    FailureMovesOn(s, key);
    FailureIsMarked(s.db, key, w);
    OthersSpareWorkInRuns(marked, between, key);
    FinishStep(After(marked, between), key);
    FailureIsRecorded(After(marked, between).db, w);
    FinishLeavesRow(After(marked, between).db, key, w);
  }

  lemma FailureMovesOn(s: Sys, key: WorkKey)
    requires key in s.work && s.work[key].phase.ToMarkFailed?
    ensures var s' := Next(s, Worker(key, Record(true)));
            && s'.db == RecordFailure(s.db, key, s.work[key])
            && key in s'.work && s'.work[key] == s.work[key].(phase := ToFinishFailed)
  {
  }

  lemma FinishStep(s: Sys, key: WorkKey)
    requires key in s.work && s.work[key].phase.ToFinishFailed? && s.work[key].audited
    ensures Next(s, Worker(key, Record(true))).db
         == FinishAttempt(s.db, s.work[key].dest, Rejected, AuditRetry(Attempt(s.work[key]), s.work[key].now))
  {
  }

  lemma FinishLeavesRow(db: Db, key: WorkKey, w: Work)
    requires w.audited
    ensures var db' := FinishAttempt(db, w.dest, Rejected, AuditRetry(Attempt(w), w.now));
            key.id in Tab(db, key.q) ==> FinishedRow(db, db', key, w.dest)
  {
  }

  /** Recording the attempt leaves the row as it is, or blocks it with the rest of a destination that is now paused. */
  ghost predicate FinishedRow(db: Db, db': Db, key: WorkKey, dest: Id)
    requires key.id in Tab(db, key.q)
  {
    && key.id in Tab(db', key.q)
    && Tab(db', key.q)[key.id] ==
         if IsPaused(db', dest) then BlockRow(Tab(db, key.q)[key.id], dest) else Tab(db, key.q)[key.id]
  }

  /** The row the failed attempt leaves: on the schedule the audit shows, or failed. */
  predicate OnSchedule(r: Row, next: Option<Time>) {
    next == if r.status.Pending? then Some(r.nextAt) else None
  }

  lemma FailedRowIsOnSchedule(r: Row, attempts: nat, now: Time)
    ensures OnSchedule(FailedRow(r, attempts, now), AuditRetry(attempts, now))
  {
  }

  lemma FailureIsMarked(db: Db, key: WorkKey, w: Work)
    requires HoldsLease(db, key)
    ensures var t := Tab(RecordFailure(db, key, w), key.q);
            key.id in t && OnSchedule(t[key.id], AuditRetry(Attempt(w), w.now))
  {
    MarkFailedTouches(db, key.q, key.id, Attempt(w), key.owner, w.now);
    FailedRowIsOnSchedule(Tab(db, key.q)[key.id], Attempt(w), w.now);
  }

  lemma FailureIsRecorded(db: Db, w: Work)
    ensures var db' := FinishAttempt(db, w.dest, Rejected, AuditRetry(Attempt(w), w.now));
            w.dest in db'.health && db'.health[w.dest].nextRetry == AuditRetry(Attempt(w), w.now)
  {
  }
}
