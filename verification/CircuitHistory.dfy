/** The circuit breaker told by its history: what a destination's counter counts, and when it is paused. */
module CircuitHistory {
  import opened Prelude
  import opened Tables
  import opened Transactions
  import opened Invariants
  import opened DeliverySystem
  import opened ProtocolSafety

  // ---- one recorded attempt

  function FailuresOf(db: Db, d: Id): int {
    if d in db.health then db.health[d].failures else 0
  }

  /** The row is taken off the queue with its destination: blocked, unleased, otherwise as it was. */
  predicate Sidelined(r: Row, r': Row) {
    r' == r.(status := Blocked, owner := None, expires := None)
  }

  ghost predicate QueueSidelined(t: map<Id, Row>, t': map<Id, Row>, d: Id) {
    && t'.Keys == t.Keys
    && forall id | id in t ::
         if t[id].dest == d && t[id].status == Pending then Sidelined(t[id], t'[id]) else t'[id] == t[id]
  }

  /**
   An acceptance heals a destination that is not paused, a rate limit only defers it, and a rejection counts; the fifth
   in the count pauses it.
   */
  lemma HealthOutcome(db: Db, d: Id, v: Verdict, next: Option<Time>)
    ensures var db' := FinishAttempt(db, d, v, next);
            && d in db'.health && db'.health == db.health[d := db'.health[d]]
            && (v == Accepted && !IsPaused(db, d) ==> db'.health[d] == Health(Healthy, 0, None))
            && (v == Accepted && IsPaused(db, d) ==> db'.health == db.health)
            && (v == RateLimited ==> db'.health[d].nextRetry == next && FailuresOf(db', d) == FailuresOf(db, d)
                                     && (IsPaused(db', d) <==> IsPaused(db, d)) && !db'.health[d].status.Healthy?)
            && (v == Rejected ==> db'.health[d].nextRetry == next && FailuresOf(db', d) == FailuresOf(db, d) + 1
                                  && (IsPaused(db', d) <==> FailuresOf(db', d) >= 5)
                                  && !db'.health[d].status.Healthy?)
  {
  }

  /** The rejection that pauses a destination takes its pending rows, and no others, off both queues. */
  lemma QueueOutcome(db: Db, d: Id, v: Verdict, next: Option<Time>)
    ensures var db' := FinishAttempt(db, d, v, next);
            && db' == db.(health := db'.health, deliveries := db'.deliveries, digests := db'.digests)
            && (if v == Rejected && FailuresOf(db, d) + 1 >= 5
                then QueueSidelined(db.deliveries, db'.deliveries, d) && QueueSidelined(db.digests, db'.digests, d)
                else db'.deliveries == db.deliveries && db'.digests == db.digests)
  {
    BlockingSidelines(db.deliveries, d);
    BlockingSidelines(db.digests, d);
  }

  lemma BlockingSidelines(t: map<Id, Row>, d: Id)
    ensures QueueSidelined(t, BlockAll(t, d), d)
  {
  }

  // ---- the history of a destination

  /** What the counter takes note of; rate limits leave none. */
  datatype Note = Failure | Success | Reset

  /** What a worker's store call records about the destination. */
  function WorkNote(w: Work, action: Action, d: Id): Option<Note> {
    if w.dest != d || action != Record(true) then None
    else if w.phase == ToFinishLost then Some(Success)
    else if w.phase == ToFinishSent && w.audited then Some(Success)
    else if w.phase == ToFinishFailed && w.audited then Some(Failure)
    else None
  }

  function TxNote(db: Db, tx: Tx, d: Id): Option<Note> {
    match tx
    case Retry(user, dest, _) =>
      if dest == d && d in db.dests && db.dests[d].user == user then Some(Reset) else None
    case _ => None
  }

  /** What a step records about it. */
  function NoteOf(s: Sys, step: Step, d: Id): Option<Note> {
    match step
    case Worker(key, action) => if key in s.work then WorkNote(s.work[key], action, d) else None
    case Transact(tx) => TxNote(s.db, tx, d)
    case _ => None
  }

  function History(s: Sys, steps: seq<Step>, d: Id): seq<Note>
    decreases |steps|
  {
    if steps == [] then []
    else
      var n := NoteOf(s, steps[0], d);
      (if n.Some? then [n.value] else []) + History(Next(s, steps[0]), steps[1..], d)
  }

  // ---- what the history says

  predicate FiveFailures(h: seq<Note>, i: int) {
    0 <= i <= |h| - 5 && forall k | i <= k < i + 5 :: h[k] == Failure
  }

  /** Five failures in a row at `i`, and no retry since. */
  predicate TripsAt(h: seq<Note>, i: int) {
    FiveFailures(h, i) && forall k | i + 5 <= k < |h| :: h[k] != Reset
  }

  ghost predicate Tripped(h: seq<Note>) {
    exists i :: TripsAt(h, i)
  }

  /** How many failures the history ends with. */
  function Trailing(h: seq<Note>): nat {
    if h == [] || h[|h| - 1] != Failure then 0 else 1 + Trailing(h[..|h| - 1])
  }

  // ---- the counter

  function Counted(n: int, note: Note): int {
    match note
    case Failure => n + 1
    case Success => if n >= 5 then n else 0
    case Reset => 0
  }

  function Count(n: int, h: seq<Note>): int {
    if h == [] then n else Counted(Count(n, h[..|h| - 1]), h[|h| - 1])
  }

  lemma {:induction false} TrailingIff(h: seq<Note>, n: nat)
    ensures Trailing(h) >= n <==> n <= |h| && forall k | |h| - n <= k < |h| :: h[k] == Failure
  {
    if n > 0 && h != [] {
      var front := h[..|h| - 1];
      TrailingIff(front, n - 1);
      assert forall k | 0 <= k < |front| :: front[k] == h[k];
    }
  }

  lemma TrippedLater(h: seq<Note>, note: Note)
    requires note != Reset && Tripped(h)
    ensures Tripped(h + [note])
  {
    var i :| TripsAt(h, i);
    assert TripsAt(h + [note], i);
  }

  lemma TrippedBefore(h: seq<Note>, note: Note)
    requires Tripped(h + [note])
    ensures note != Reset && (Tripped(h) || Trailing(h + [note]) >= 5)
  {
    var h' := h + [note];
    var i :| TripsAt(h', i);
    assert forall k | 0 <= k < |h| :: h'[k] == h[k];
    TrailingIff(h', 5);
    if i + 5 <= |h| {
      assert h'[|h|] == note;
      assert note != Reset;
      assert TripsAt(h, i);
    } else {
      assert h'[i + 4] == note;
    }
  }

  /** The counter stands for the history: from five in a row on until a retry, and before that for the last streak. */
  lemma {:induction false} CountTells(h: seq<Note>)
    ensures Count(0, h) >= 5 <==> Tripped(h)
    ensures Count(0, h) < 5 ==> Count(0, h) == Trailing(h)
  {
    if h != [] {
      var front, note := h[..|h| - 1], h[|h| - 1];
      assert h == front + [note];
      CountTells(front);
      TrailingIff(h, 5);
      if Tripped(front) && note != Reset {
        TrippedLater(front, note);
      }
      if Tripped(h) {
        TrippedBefore(front, note);
      }
      if Trailing(h) >= 5 {
        assert TripsAt(h, |h| - 5);
      }
    }
  }

  lemma {:induction false} CountJoins(n: int, note: Note, h: seq<Note>)
    ensures Count(n, [note] + h) == Count(Counted(n, note), h)
  {
    if h == [] {
      assert [note] + h == [note] && [note][..0] == [];
    } else {
      assert ([note] + h)[..|h|] == [note] + h[..|h| - 1];
      CountJoins(n, note, h[..|h| - 1]);
    }
  }

  // ---- the counter of the tables

  function Noted(n: int, note: Option<Note>): int {
    if note.Some? then Counted(n, note.value) else n
  }

  lemma AcceptanceCounts(db: Db, d: Id, dest: Id)
    requires DbInv(db)
    ensures FailuresOf(FinishAttempt(db, dest, Accepted, None), d)
         == Noted(FailuresOf(db, d), if dest == d then Some(Success) else None)
  {
    HealthOutcome(db, dest, Accepted, None);
    assert Circuit(db);
  }

  lemma RejectionCounts(db: Db, d: Id, dest: Id, next: Option<Time>)
    ensures FailuresOf(FinishAttempt(db, dest, Rejected, next), d)
         == Noted(FailuresOf(db, d), if dest == d then Some(Failure) else None)
  {
    HealthOutcome(db, dest, Rejected, next);
  }

  lemma LimitCounts(db: Db, d: Id, dest: Id, next: Option<Time>)
    ensures FailuresOf(FinishAttempt(db, dest, RateLimited, next), d) == FailuresOf(db, d)
  {
    HealthOutcome(db, dest, RateLimited, next);
  }

  lemma RecordCounts(db: Db, k: WorkKey, w: Work, d: Id)
    requires DbInv(db)
    ensures FailuresOf(RecordDb(db, k, w), d) == Noted(FailuresOf(db, d), WorkNote(w, Record(true), d))
  {
    if w.phase.ToFinishSent? || w.phase.ToFinishLost? {
      AcceptanceCounts(db, d, w.dest);
    } else if w.phase.ToFinishFailed? {
      RejectionCounts(db, d, w.dest, AuditRetry(Attempt(w), w.now));
    } else if w.phase.ToCoolDown? {
      LimitCounts(db, d, w.dest, Some(w.phase.next));
    } else {
      OtherRecordsKeepHealth(db, k, w);
    }
  }

  lemma OtherRecordsKeepHealth(db: Db, k: WorkKey, w: Work)
    requires !Finishing(w)
    ensures RecordDb(db, k, w).health == db.health
  {
    if w.phase.ToMarkFailed? {
      FailureKeepsHealth(db, k, w);
    } else if w.phase.ToMarkSent? || w.phase.ToFinalize? {
      if k.id in Tab(db, k.q) {
        CompletionKeepsHealth(db, k.q, k.id);
      }
    }
  }

  lemma WorkerCounts(db: Db, k: WorkKey, w: Work, action: Action, d: Id)
    requires DbInv(db)
    ensures FailuresOf(ActDb(db, k, w, action), d) == Noted(FailuresOf(db, d), WorkNote(w, action, d))
  {
    if action.Panic? {
      FailureKeepsHealth(db, k, w);
    } else if action == Record(true) {
      RecordCounts(db, k, w, d);
    }
  }

  lemma CommitCounts(db: Db, tx: Tx, d: Id)
    ensures FailuresOf(Commit(db, tx), d) == Noted(FailuresOf(db, d), TxNote(db, tx, d))
  {
    if IsAddition(tx) {
      AddingSpares(db, tx);
    } else if tx.FollowTx? || tx.UnfollowTx? || tx.Rules? || tx.Modes? || tx.Pause? {
      RuleStepsKeepHealth(db, tx);
    }
  }

  lemma WorkerStepCounts(s: Sys, key: WorkKey, action: Action, d: Id)
    requires SysInv(s)
    ensures FailuresOf(Next(s, Worker(key, action)).db, d)
         == Noted(FailuresOf(s.db, d), NoteOf(s, Worker(key, action), d))
  {
    if key in s.work {
      WorkerCounts(s.db, key, s.work[key], action, d);
      assert Next(s, Worker(key, action)).db == ActDb(s.db, key, s.work[key], action);
    }
  }

  lemma TransactStepCounts(s: Sys, tx: Tx, d: Id)
    ensures FailuresOf(Next(s, Transact(tx)).db, d) == Noted(FailuresOf(s.db, d), NoteOf(s, Transact(tx), d))
  {
    CommitCounts(s.db, tx, d);
  }

  lemma LeasingKeepsHealth(db: Db, q: Queue, ids: set<Id>, owner: string, expires: Time)
    ensures Lease(db, q, ids, owner, expires).health == db.health
  {
  }

  lemma StepCounts(s: Sys, step: Step, d: Id)
    requires SysInv(s)
    ensures FailuresOf(Next(s, step).db, d) == Noted(FailuresOf(s.db, d), NoteOf(s, step, d))
  {
    match step
    case Worker(key, action) => WorkerStepCounts(s, key, action, d);
    case Transact(tx) => TransactStepCounts(s, tx, d);
    case Claim(q, now, ids, owner, expires) => LeasingKeepsHealth(s.db, q, ids, owner, expires);
    case Tick(_) =>
  }

  lemma {:induction false} RunCounts(s: Sys, steps: seq<Step>, d: Id)
    requires SysInv(s) && Runs(s, steps)
    ensures FailuresOf(After(s, steps).db, d) == Count(FailuresOf(s.db, d), History(s, steps, d))
    decreases |steps|
  {
    if steps != [] {
      NextKeeps(s, steps[0]);
      StepCounts(s, steps[0], d);
      RunCounts(Next(s, steps[0]), steps[1..], d);
      var rest := History(Next(s, steps[0]), steps[1..], d);
      match NoteOf(s, steps[0], d)
      case None => assert [] + rest == rest;
      case Some(note) => CountJoins(FailuresOf(s.db, d), note, rest);
    }
  }

  /**
   In every run from an empty database a destination is paused exactly when its history holds five rejections in a row
   and no retry by its owner since, and otherwise its counter is the number of rejections the history ends with. Rate
   limits interrupt no streak and add to none.
   */
  lemma PausedIffFiveInARow(steps: seq<Step>, d: Id)
    requires Runs(START, steps)
    ensures var db, h := After(START, steps).db, History(START, steps, d);
            && (IsPaused(db, d) <==> Tripped(h))
            && (!IsPaused(db, d) ==> FailuresOf(db, d) == Trailing(h))
  {
    EmptyInv();
    RunsKeep(START, steps);
    RunCounts(START, steps, d);
    CountTells(History(START, steps, d));
    assert Circuit(After(START, steps).db);
  }
}
