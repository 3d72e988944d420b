/** A considerate run from the empty database in which a release is catalogued, admitted and paused. */
module PauseRun {
  import opened Prelude
  import opened Tables
  import opened Governing
  import opened Transactions
  import opened RowAutomaton
  import opened Invariants
  import opened DeliverySystem
  import opened ProtocolSafety
  import opened PauseSafety
  import opened PauseGaps

  const CATALOGUED: Db := EMPTY.(policy := Policy(map[1 := ALBUM], map[1 := DEFAULT_PREFS], {}, map[]))
  const FOLLOWED: Db := EMPTY.(policy := OneFollow(DEFAULT_RULE, DEFAULT_PREFS))
  const REACHABLE: Db := FOLLOWED.(dests := DESTINATIONS)

  /** The one delivery, unclaimed and scheduled for `at`. */
  function Queued(rule: Rule, at: Time): Db {
    REACHABLE.(policy := OneFollow(rule, DEFAULT_PREFS), events := EVENTS,
               deliveries := map[1 := Row(1, 1, Pending, 0, at, None, None)])
  }

  const RELEASE_ALERT := Admission(1, 1, Announcement, 0, false, 1, map[1 := 1], 1)

  const EDIT := EditPolicyTx(map[1 := ALBUM], map[1 := DEFAULT_PREFS])
  const FOLLOW := FollowTx(1, 1, 0)
  const ADD := NewDestination(1, 1, true, 0)
  const ADMIT := Admit(RELEASE_ALERT)
  const PAUSE := Pause(1, 1, Some(DAY), 0)

  lemma Catalogue()
    ensures EditPolicy(EMPTY, map[1 := ALBUM], map[1 := DEFAULT_PREFS]) == CATALOGUED
  {
  }

  lemma FollowOne()
    ensures Follow(CATALOGUED, 1, 1, 0) == FOLLOWED
  {
    assert WithFollow(CATALOGUED.policy, 1, 1) == OneFollow(DEFAULT_RULE, DEFAULT_PREFS);
    assert Follow(CATALOGUED, 1, 1, 0).deliveries == map[];
  }

  lemma AddOne()
    ensures AddDestination(FOLLOWED, 1, 1, true, 0) == REACHABLE
  {
  }

  lemma AlertFits()
    ensures Fits(REACHABLE, RELEASE_ALERT)
  {
    assert 1 in RELEASE_ALERT.rows;
    assert Serves(RELEASE_ALERT.rows, 1);
    assert Targets(REACHABLE, map[], 1, 1, 0) == {1};
  }

  lemma AlertIsInserted()
    ensures InsertEvent(REACHABLE, RELEASE_ALERT, true, 0) == Queued(DEFAULT_RULE, 0)
  {
    assert InsertEvent(REACHABLE, RELEASE_ALERT, true, 0).deliveries == Queued(DEFAULT_RULE, 0).deliveries;
  }

  lemma AdmitOne()
    ensures Enqueue(REACHABLE, RELEASE_ALERT).db == Queued(DEFAULT_RULE, 0)
    ensures !GateLeaks(REACHABLE, RELEASE_ALERT, 0)
  {
    OneFollowGoverns(DEFAULT_RULE, DEFAULT_PREFS, Announcement);
    AlertIsInserted();
  }

  lemma PauseOne()
    ensures PauseFollow(Queued(DEFAULT_RULE, 0), 1, 1, Some(DAY), 0) == Queued(PAUSED, DAY)
  {
    var db := Queued(DEFAULT_RULE, 0);
    var db1 := db.(policy := OneFollow(PAUSED, DEFAULT_PREFS));
    OneFollowGoverns(PAUSED, DEFAULT_PREFS, Announcement);
    assert WithRules(db.policy, 1, {1}, PAUSED) == OneFollow(PAUSED, DEFAULT_PREFS);
    assert Affected(db1, db.deliveries[1], 1, Positive([1]));
    assert Realign(db1, 1, Positive([1]), 0).deliveries == Queued(PAUSED, DAY).deliveries;
  }

  // ---- the run

  /** These transactions, all at time zero, lead considerately from one state of the tables to the other. */
  ghost predicate Leads(db: Db, txs: seq<Tx>, end: Db)
    decreases |txs|
  {
    if txs == [] then db == end
    else ConsiderateTx(db, txs[0]) && Leads(Commit(db, txs[0]), txs[1..], end)
  }

  ghost predicate ConsiderateTx(db: Db, tx: Tx) {
    && Feasible(db, tx) && TimeOf(tx, 0) <= 0 && !AdmissionLeaks(db, tx, 0)
    && (tx.EditPolicyTx? ==> KeepsReadings(db, tx)) && (ChangesRules(tx) ==> HitsNoClaim(db, tx))
  }

  lemma Leading(db: Db, tx: Tx, rest: seq<Tx>, between: Db, end: Db)
    requires ConsiderateTx(db, tx) && Commit(db, tx) == between && Leads(between, rest, end)
    ensures Leads(db, [tx] + rest, end)
  {
    assert ([tx] + rest)[1..] == rest;
  }

  lemma PauseLeads(rest: seq<Tx>, end: Db)
    requires Leads(Queued(PAUSED, DAY), rest, end)
    ensures Leads(Queued(DEFAULT_RULE, 0), [PAUSE] + rest, end)
  {
    PauseOne();
    Leading(Queued(DEFAULT_RULE, 0), PAUSE, rest, Queued(PAUSED, DAY), end);
  }

  lemma AdmitLeads(rest: seq<Tx>, end: Db)
    requires Leads(Queued(DEFAULT_RULE, 0), rest, end)
    ensures Leads(REACHABLE, [ADMIT] + rest, end)
  {
    AlertFits();
    AdmitOne();
    AdmittingLeads(REACHABLE, RELEASE_ALERT, rest, Queued(DEFAULT_RULE, 0), end);
  }

  lemma AdmittingLeads(db: Db, a: Admission, rest: seq<Tx>, between: Db, end: Db)
    requires Fits(db, a) && a.now <= 0 && !GateLeaks(db, a, 0) && Enqueue(db, a).db == between
    requires Leads(between, rest, end)
    ensures Leads(db, [Admit(a)] + rest, end)
  {
    Leading(db, Admit(a), rest, between, end);
  }

  lemma AddLeads(rest: seq<Tx>, end: Db)
    requires Leads(REACHABLE, rest, end)
    ensures Leads(FOLLOWED, [ADD] + rest, end)
  {
    AddOne();
    Leading(FOLLOWED, ADD, rest, REACHABLE, end);
  }

  lemma FollowLeads(rest: seq<Tx>, end: Db)
    requires Leads(FOLLOWED, rest, end)
    ensures Leads(CATALOGUED, [FOLLOW] + rest, end)
  {
    FollowOne();
    Leading(CATALOGUED, FOLLOW, rest, FOLLOWED, end);
  }

  lemma EditLeads(rest: seq<Tx>, end: Db)
    requires Leads(CATALOGUED, rest, end)
    ensures Leads(EMPTY, [EDIT] + rest, end)
  {
    Catalogue();
    Leading(EMPTY, EDIT, rest, CATALOGUED, end);
  }

  lemma RunLeads() returns (txs: seq<Tx>)
    ensures txs == [EDIT] + ([FOLLOW] + ([ADD] + ([ADMIT] + ([PAUSE] + []))))
    ensures Leads(EMPTY, txs, Queued(PAUSED, DAY))
  {
    var end := Queued(PAUSED, DAY);
    PauseLeads([], end);
    AdmitLeads([PAUSE] + [], end);
    AddLeads([ADMIT] + ([PAUSE] + []), end);
    FollowLeads([ADD] + ([ADMIT] + ([PAUSE] + [])), end);
    EditLeads([FOLLOW] + ([ADD] + ([ADMIT] + ([PAUSE] + []))), end);
    txs := [EDIT] + ([FOLLOW] + ([ADD] + ([ADMIT] + ([PAUSE] + []))));
  }

  function Steps(txs: seq<Tx>): seq<Step> {
    if txs == [] then [] else [Transact(txs[0])] + Steps(txs[1..])
  }

  lemma {:induction false} LeadsIsConsiderate(db: Db, txs: seq<Tx>, end: Db)
    requires Leads(db, txs, end)
    ensures Considerate(Sys(db, 0, map[]), Steps(txs))
    ensures After(Sys(db, 0, map[]), Steps(txs)) == Sys(end, 0, map[])
    decreases |txs|
  {
    if txs != [] {
      LeadsIsConsiderate(Commit(db, txs[0]), txs[1..], end);
      assert Steps(txs)[0] == Transact(txs[0]) && Steps(txs)[1..] == Steps(txs[1..]);
      assert Next(Sys(db, 0, map[]), Transact(txs[0])) == Sys(Commit(db, txs[0]), 0, map[]);
    }
  }

  /** The theorem speaks of deliveries: this run ends with one, paused for a day and scheduled for its end. */
  lemma ConsiderateRunWithPause() returns (steps: seq<Step>)
    ensures Considerate(START, steps) && Transact(ADMIT) in steps && Transact(PAUSE) in steps
    ensures After(START, steps).db == Queued(PAUSED, DAY)
    ensures DeferredUntil(Queued(PAUSED, DAY).policy, Queued(PAUSED, DAY).events, 1, 0) == Some(DAY)
  {
    var txs := RunLeads();
    LeadsIsConsiderate(EMPTY, txs, Queued(PAUSED, DAY));
    steps := Steps(txs);
    StepsListAll(txs, 3);
    StepsListAll(txs, 4);
    DayIsRunning();
  }

  lemma {:induction false} StepsListAll(txs: seq<Tx>, i: nat)
    requires i < |txs|
    ensures |Steps(txs)| == |txs| && Steps(txs)[i] == Transact(txs[i])
    decreases |txs|
  {
    if i > 0 {
      StepsListAll(txs[1..], i - 1);
    } else if |txs| > 1 {
      StepsListAll(txs[1..], 0);
    }
  }
}
