/** What a member's or an operator's decision makes of a hold. */
module HoldOutcomes {
  import opened Prelude
  import opened Tables
  import opened Governing
  import opened Transactions
  import opened Eligibility
  import opened AdmissionOutcomes
  import opened Recovery

  /** The hold is there with this status, and its member still follows the release. */
  predicate IsReviewable(db: Db, h: Id, status: HoldStatus) {
    h in db.holds && db.holds[h].status == status && FollowsRelease(db.policy, db.holds[h].user, db.holds[h].release)
  }

  lemma ReviewableIff(db: Db, h: Id, status: HoldStatus)
    ensures Reviewable(db, h, status) <==> IsReviewable(db, h, status)
  {
    if h in db.holds {
      FollowedIff(db.policy, db.holds[h].user, db.holds[h].release);
    }
  }

  function Resolved(db: Db, h: Id, status: HoldStatus): Db
    requires h in db.holds
  {
    db.(holds := db.holds[h := db.holds[h].(status := status)])
  }

  predicate IsOwn(db: Db, h: Id, user: Id) {
    h in db.holds && db.holds[h].user == user
  }

  /** A member discards own held alerts, and takes back own discarded ones; anything else changes nothing. */
  lemma DecisionOutcome(db: Db, user: Id, h: Id)
    ensures DiscardHold(db, user, h) ==
              if IsReviewable(db, h, Held) && IsOwn(db, h, user) then Resolved(db, h, Discarded) else db
    ensures RestoreHold(db, user, h) ==
              if IsReviewable(db, h, Discarded) && IsOwn(db, h, user) then Resolved(db, h, Held) else db
  {
    ReviewableIff(db, h, Held);
    ReviewableIff(db, h, Discarded);
  }

  predicate IsOf(db: Db, h: Id, a: Admission) {
    h in db.holds && a.user == db.holds[h].user && a.release == db.holds[h].release && a.moment == db.holds[h].moment
  }

  /** The held event admitted again, and the hold released exactly if it was. */
  function Retried(db: Db, h: Id, a: Admission): Db
    requires h in db.holds && h in Enqueue(db, a).db.holds
  {
    var r := Enqueue(db, a);
    if r.admitted then Resolved(r.db, h, Released) else r.db
  }

  lemma HoldsSurvive(db: Db, h: Id, a: Admission)
    requires h in db.holds && a.holdId !in db.holds
    ensures h in Enqueue(db, a).db.holds && Enqueue(db, a).db.holds[h] == db.holds[h]
  {
    match Governor(db.policy, a.user, a.release, a.moment)
    case None =>
    case Some(c) =>
      if TakesGate(db, a, c.rule) {
        GateSparesHolds(db, h, a);
      } else {
        var deferred := ResumesAt(c.rule, a.now);
        InsertSparesHolds(db, a, QueuesImmediate(c.rule, a.now) || deferred.Some?, OrElse(deferred, a.now));
      }
  }

  lemma InsertSparesHolds(db: Db, a: Admission, queue: bool, at: Time)
    ensures InsertEvent(db, a, queue, at).holds == db.holds
  {
  }

  lemma GateSparesHolds(db: Db, h: Id, a: Admission)
    requires h in db.holds && a.holdId !in db.holds
    ensures h in HoldConflicting(db, a).db.holds && HoldConflicting(db, a).db.holds[h] == db.holds[h]
  {
    InsertSparesHolds(db, a, true, a.now);
  }

  lemma ReAdmitIs(db: Db, h: Id, a: Admission)
    requires h in db.holds && db.holds[h].status == Held && a.holdId !in db.holds
    ensures h in Enqueue(db, a).db.holds && ReAdmit(db, h, a) == Retried(db, h, a)
  {
    HoldsSurvive(db, h, a);
  }

  /**
   "Notify anyway" admits an own held event past the gate; a drain admits a held event if its release has no open
   evidence left, or past the gate when an operator approved it.
   */
  lemma ReleaseOutcome(db: Db, user: Id, h: Id, a: Admission)
    requires Fits(db, a)
    ensures if IsReviewable(db, h, Held) && IsOwn(db, h, user) && IsOf(db, h, a) && a.bypass
            then h in Enqueue(db, a).db.holds && NotifyHold(db, user, h, a) == Retried(db, h, a)
            else NotifyHold(db, user, h, a) == db
    ensures if IsReviewable(db, h, Held) && IsOf(db, h, a) && (a.bypass || IssuesOf(db, a.release) == [])
            then h in Enqueue(db, a).db.holds && DrainHold(db, h, a) == Retried(db, h, a)
            else DrainHold(db, h, a) == db
  {
    ReviewableIff(db, h, Held);
    if IsReviewable(db, h, Held) {
      ReAdmitIs(db, h, a);
    }
  }

  /** An approval notifies a member who follows the release, was never told and refused nothing of it. */
  predicate IsApprovable(db: Db, a: Admission, bypassBlocking: bool) {
    && (forall e | e in db.events :: db.events[e].user == a.user ==> db.events[e].release != a.release)
    && (forall h | h in db.holds ::
          db.holds[h].user == a.user && db.holds[h].release == a.release ==> db.holds[h].status != Discarded)
    && FollowsRelease(db.policy, a.user, a.release)
    && (bypassBlocking || IssuesOf(db, a.release) == [])
  }

  lemma ApprovalOutcome(db: Db, a: Admission, bypassBlocking: bool)
    ensures Approve(db, a, bypassBlocking)
         == if IsApprovable(db, a, bypassBlocking) then Enqueue(db, a.(bypass := true)).db else db
  {
    FollowedIff(db.policy, a.user, a.release);
  }
}
