/** The worker side: one delivery, from the claimed row to its recorded outcome. */
module DeliveryRunner {
  import opened Prelude
  import opened Tables
  import T = Transactions
  import opened DeliverySystem
  import opened NotificationStore

  datatype Progress = Progress(db: Db, left: Option<Work>)

  /** Plays the steps of one worker of the delivery protocol, without anyone in between. */
  function Play(p: Progress, k: WorkKey, actions: seq<Action>): Progress
    decreases |actions|
  {
    if actions == [] || p.left.None? then p
    else Play(Progress(ActDb(p.db, k, p.left.value, actions[0]), ActLeft(p.db, k, p.left.value, actions[0])),
              k, actions[1..])
  }

  lemma PlayOne(p: Progress, k: WorkKey, actions: seq<Action>)
    requires actions != [] && p.left.Some?
    ensures Play(p, k, actions)
         == Play(Progress(ActDb(p.db, k, p.left.value, actions[0]), ActLeft(p.db, k, p.left.value, actions[0])),
                 k, actions[1..])
  {
  }

  /** What the environment decides: the audit row, the provider's answer, and which of three store calls succeed. */
  datatype Fate = Fate(audited: bool, verdict: T.Verdict, retryAfter: Time, first: bool, second: bool, third: bool)

  function Script(f: Fate): seq<Action> {
    [Send(f.audited, f.verdict, f.retryAfter), Record(f.first), Record(f.second), Record(f.third)]
  }

  function AfterAnswer(w: Work, f: Fate): Work {
    w.(audited := f.audited, phase := match f.verdict
       case Accepted => ToMarkSent
       case Rejected => ToMarkFailed
       case RateLimited => ToCoolDown(RateLimitRetryAt(f.retryAfter, w.now)))
  }

  lemma SendFirst(db: Db, k: WorkKey, w: Work, f: Fate)
    requires w.phase.Claimed?
    ensures Play(Progress(db, Some(w)), k, Script(f))
         == Play(Progress(db, Some(AfterAnswer(w, f))), k, [Record(f.first), Record(f.second), Record(f.third)])
  {
    assert Script(f)[1..] == [Record(f.first), Record(f.second), Record(f.third)];
    PlayOne(Progress(db, Some(w)), k, Script(f));
  }

  class Runner {
    const store: Store
    const owner: string

    constructor (store: Store, owner: string)
      ensures this.store == store && this.owner == owner
    {
      this.store, this.owner := store, owner;
    }

    /** The provider accepted the message. */
    method RecordAccepted(k: WorkKey, w: Work, first: bool, second: bool, third: bool)
      requires w.phase.ToMarkSent? && k.owner == owner && !Blank(owner)
      modifies store
      ensures Play(Progress(old(store.db), Some(w)), k, [Record(first), Record(second), Record(third)])
           == Progress(store.db, None)
    {
      var q, id := k.q, k.id;
      ghost var db0 := store.db;
      PlayRecords(db0, k, w, first, second, third);
      if !first {
        return;
      }
      var r := store.MarkSentOwned(q, id, owner);
      if r.NotFound? {
        if w.audited {
          if !second {
            return;
          }
          store.FinishDeliveryAttempt(w.dest, T.Accepted, None);
          if third {
            var _ := store.FinalizeSent(q, id);
          }
        } else if second {
          var _ := store.FinalizeSent(q, id);
        }
        return;
      }
      if w.audited && second {
        store.FinishDeliveryAttempt(w.dest, T.Accepted, None);
      }
    }

    /** The provider asked to wait: the cooldown is stored before the row is released. */
    method RecordRateLimited(k: WorkKey, w: Work, first: bool, second: bool, third: bool)
      requires w.phase.ToCoolDown? && k.owner == owner && !Blank(owner)
      modifies store
      ensures Play(Progress(old(store.db), Some(w)), k, [Record(first), Record(second), Record(third)])
           == Progress(store.db, None)
    {
      PlayRecords(store.db, k, w, first, second, third);
      if w.audited && first {
        store.FinishDeliveryAttempt(w.dest, T.RateLimited, Some(w.phase.next));
      }
      if second {
        var _ := store.MarkRateLimitedOwned(k.q, k.id, owner, w.phase.next);
      }
    }

    /** The send failed. */
    method RecordRejected(k: WorkKey, w: Work, first: bool, second: bool, third: bool)
      requires w.phase.ToMarkFailed? && k.owner == owner && !Blank(owner)
      modifies store
      ensures Play(Progress(old(store.db), Some(w)), k, [Record(first), Record(second), Record(third)])
           == Progress(store.db, None)
    {
      PlayRecords(store.db, k, w, first, second, third);
      if first {
        var _ := store.MarkFailedOwned(k.q, k.id, Attempt(w), owner, w.now);
      }
      if w.audited && second {
        var schedule := T.RetrySchedule(Attempt(w), w.now);
        store.FinishDeliveryAttempt(w.dest, T.Rejected, if schedule.willRetry then Some(schedule.next) else None);
      }
    }

    /** Sends one claimed message and records what became of it; nothing is left to do afterwards. */
    method PerformDelivery(q: Queue, id: Id, dest: Id, attempts: nat, now: Time, f: Fate)
      requires !Blank(owner)
      modifies store
      ensures var start := Progress(old(store.db), Some(Work(dest, attempts, now, false, Claimed)));
              Play(start, WorkKey(owner, q, id), Script(f)) == Progress(store.db, None)
    {
      var k, w := WorkKey(owner, q, id), Work(dest, attempts, now, false, Claimed);
      SendFirst(store.db, k, w, f);
      match f.verdict
      case Accepted => RecordAccepted(k, AfterAnswer(w, f), f.first, f.second, f.third);
      case Rejected => RecordRejected(k, AfterAnswer(w, f), f.first, f.second, f.third);
      case RateLimited => RecordRateLimited(k, AfterAnswer(w, f), f.first, f.second, f.third);
    }
  }

  function AfterCall(p: Progress, k: WorkKey, ok: bool): Progress {
    if p.left.None? then p
    else Progress(ActDb(p.db, k, p.left.value, Record(ok)), ActLeft(p.db, k, p.left.value, Record(ok)))
  }

  lemma PlayRecords(db: Db, k: WorkKey, w: Work, first: bool, second: bool, third: bool)
    ensures Play(Progress(db, Some(w)), k, [Record(first), Record(second), Record(third)])
         == AfterCall(AfterCall(AfterCall(Progress(db, Some(w)), k, first), k, second), k, third)
  {
    var p := Progress(db, Some(w));
    assert [Record(first), Record(second), Record(third)][1..] == [Record(second), Record(third)];
    assert [Record(second), Record(third)][1..] == [Record(third)];
    assert [Record(third)][1..] == [];
    assert Play(p, k, [Record(first), Record(second), Record(third)])
        == Play(AfterCall(p, k, first), k, [Record(second), Record(third)]);
    var p1 := AfterCall(p, k, first);
    assert Play(p1, k, [Record(second), Record(third)]) == Play(AfterCall(p1, k, second), k, [Record(third)]);
    var p2 := AfterCall(p1, k, second);
    assert Play(p2, k, [Record(third)]) == Play(AfterCall(p2, k, third), k, []);
  }
}
