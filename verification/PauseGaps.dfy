/** Concrete runs showing that the exceptions named by the pause theorems do occur. */
module PauseGaps {
  import opened Prelude
  import opened Tables
  import opened Governing
  import opened Transactions
  import opened RowAutomaton
  import opened Invariants
  import opened DeliverySystem
  import opened PauseSafety

  const ALBUM := Release(1, Album, false, None, [])
  const RUNNER := "runner"

  function OneFollow(rule: Rule, prefs: Prefs): Policy {
    Policy(map[1 := ALBUM], map[1 := prefs], {(1, 1)}, map[(1, 1) := rule])
  }

  /** With one followed artist and everything switched on, that follow governs. */
  lemma OneFollowGoverns(rule: Rule, prefs: Prefs, moment: Moment)
    requires rule.mode.Inherit? && rule.includePrimary && rule.albums && prefs.albums
    requires if moment.Announcement? then rule.announcements && prefs.announcements
             else rule.releaseDay && prefs.releaseDay
    ensures Governor(OneFollow(rule, prefs), 1, 1, moment) == Some(Candidate(1, rule, Primary))
  {
    var p := OneFollow(rule, prefs);
    assert AdmissionOrder(ALBUM) == [1];
    var c := Candidate(1, rule, Primary);
    assert Candidates(p, 1, ALBUM, [1]) == [c] + Candidates(p, 1, ALBUM, []);
    assert Candidates(p, 1, ALBUM, [1]) == [c];
    LeftmostBestIsUnique([c], prefs, ALBUM, moment, 0);
  }

  const DAY := 24 * HOUR
  const PAUSED := DEFAULT_RULE.(pausedUntil := Some(DAY))
  const EVENTS := map[1 := Event(1, 1, Announcement, 0)]
  const DESTINATIONS := map[1 := Destination(1, true, true, 0)]

  /** One delivery, scheduled for `at` and claimed by the runner. */
  function Sending(rule: Rule, at: Time): Db {
    Db(OneFollow(rule, DEFAULT_PREFS), EVENTS,
       map[1 := Row(1, 1, Pending, 0, at, Some(RUNNER), Some(2 * MINUTE))],
       map[], map[], DESTINATIONS, map[], map[], map[])
  }

  const KEY := WorkKey(RUNNER, Deliveries, 1)
  const REJECTED := Work(1, 0, 0, true, ToMarkFailed)

  lemma PausingTheClaimed()
    ensures PauseFollow(Sending(DEFAULT_RULE, 0), 1, 1, Some(DAY), 0) == Sending(PAUSED, DAY)
  {
    var db := Sending(DEFAULT_RULE, 0);
    var db1 := db.(policy := OneFollow(PAUSED, DEFAULT_PREFS));
    OneFollowGoverns(PAUSED, DEFAULT_PREFS, Announcement);
    assert WithRules(db.policy, 1, {1}, PAUSED) == OneFollow(PAUSED, DEFAULT_PREFS);
    assert Affected(db1, db.deliveries[1], 1, Positive([1]));
    assert Realign(db1, 1, Positive([1]), 0).deliveries == Sending(PAUSED, DAY).deliveries;
  }

  lemma FailingTheClaimed()
    ensures RecordFailure(Sending(PAUSED, DAY), KEY, REJECTED).deliveries
         == map[1 := Row(1, 1, Pending, 1, 2 * MINUTE, None, None)]
  {
    assert Power2(1) == 2 * Power2(0);
  }

  lemma DayIsRunning()
    ensures DeferredUntil(OneFollow(PAUSED, DEFAULT_PREFS), EVENTS, 1, 0) == Some(DAY)
  {
    OneFollowGoverns(PAUSED, DEFAULT_PREFS, Announcement);
  }

  /** The follow is paused for a day while its delivery is being sent, and then the send fails. */
  lemma PauseUndoneByLateFailure()
    ensures PauseFollow(Sending(DEFAULT_RULE, 0), 1, 1, Some(DAY), 0) == Sending(PAUSED, DAY)
    ensures WriteUndoes(Sending(PAUSED, DAY), KEY, REJECTED, Record(true), 0)
    ensures RecordFailure(Sending(PAUSED, DAY), KEY, REJECTED).deliveries
         == map[1 := Row(1, 1, Pending, 1, 2 * MINUTE, None, None)]
  {
    PausingTheClaimed();
    FailingTheClaimed();
    DayIsRunning();
    assert Power2(1) == 2 * Power2(0);
  }

  // ---- preference edits

  /** Switching announcements on brings a queued delivery under a paused follow without moving it. */
  lemma PreferenceEditUndoes()
    ensures var db := Sending(PAUSED, 0).(policy := OneFollow(PAUSED, DEFAULT_PREFS.(announcements := false)));
            QueueWaits(db, 0) && !QueueWaits(EditPolicy(db, db.policy.releases, map[1 := DEFAULT_PREFS]), 0)
  {
    var prefs := DEFAULT_PREFS.(announcements := false);
    var db := Sending(PAUSED, 0).(policy := OneFollow(PAUSED, prefs));
    var c := Candidate(1, PAUSED, Primary);
    assert AdmissionOrder(ALBUM) == [1];
    assert Candidates(db.policy, 1, ALBUM, [1]) == [c] + Candidates(db.policy, 1, ALBUM, []);
    assert !Eligible(c, prefs, ALBUM, Announcement);
    DayIsRunning();
    var db' := EditPolicy(db, db.policy.releases, map[1 := DEFAULT_PREFS]);
    assert db'.policy == OneFollow(PAUSED, DEFAULT_PREFS);
    assert !Waits(db'.policy, db'.events, db'.deliveries[1], 0);
  }

  // ---- the conflict gate

  const CAREFUL := DEFAULT_PREFS.(holdConflicts := true)
  const ALERT := Admission(1, 1, Announcement, 0, false, 1, map[1 := 1], 1)

  const QUIET := Db(
    OneFollow(PAUSED, CAREFUL), map[], map[], map[], map[], DESTINATIONS, map[], map[], map[])

  lemma QuietFits()
    ensures Fits(QUIET, ALERT)
  {
    assert 1 in ALERT.rows;
    assert Serves(ALERT.rows, 1);
    assert Targets(QUIET, map[], 1, 1, 0) == {1};
  }

  lemma QuietFansOut()
    ensures InsertEvent(QUIET, ALERT, true, 0).deliveries == map[1 := Row(1, 1, Pending, 0, 0, None, None)]
  {
    assert InsertEvent(QUIET, ALERT, true, 0).deliveries == map[1 := Row(1, 1, Pending, 0, 0, None, None)];
  }

  lemma QuietTakesGate()
    ensures Governor(QUIET.policy, 1, 1, Announcement) == Some(Candidate(1, PAUSED, Primary))
    ensures TakesGate(QUIET, ALERT, PAUSED) && ResumesAt(PAUSED, 0) == Some(DAY)
  {
    OneFollowGoverns(PAUSED, CAREFUL, Announcement);
  }

  /** With conflict holds switched on and no open evidence, an alert of a paused follow is queued for now. */
  lemma PauseMissedByGate()
    ensures Fits(QUIET, ALERT) && GateLeaks(QUIET, ALERT, 0)
    ensures Enqueue(QUIET, ALERT).db.deliveries == map[1 := Row(1, 1, Pending, 0, 0, None, None)]
  {
    QuietFits();
    QuietTakesGate();
    QuietFansOut();
    assert 1 in ALERT.rows;
    assert Enqueue(QUIET, ALERT) == Admitted(HoldConflicting(QUIET, ALERT).db, true);
  }
}
