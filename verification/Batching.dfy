/** How the store rewrites many deliveries: collected into buckets by target instant, updated in bounded chunks. */
module Batching {
  import opened Prelude
  import opened Tables
  import opened Governing
  import opened GoverningQueries
  import opened Transactions
  import Ranking

  ghost predicate Distinct(ids: seq<Id>) {
    forall i, j | 0 <= i < j < |ids| :: ids[i] != ids[j]
  }

  /** One `UPDATE … WHERE id IN (ids)`. */
  function Update(t: map<Id, Row>, ids: seq<Id>, f: Row -> Row): map<Id, Row> {
    map id | id in t :: if id in ids then f(t[id]) else t[id]
  }

  lemma UpdateMore(t: map<Id, Row>, ids: seq<Id>, i: nat, j: nat, f: Row -> Row)
    requires Distinct(ids) && i <= j <= |ids|
    ensures Update(Update(t, ids[..i], f), ids[i..j], f) == Update(t, ids[..j], f)
  {
    assert ids[..j] == ids[..i] + ids[i..j];
    forall id | id in ids[..i]
      ensures id !in ids[i..j]
    {
    }
  }

  /** Every row of the plan gets its own target. */
  function Planned(t: map<Id, Row>, plan: map<Id, Time>, f: (Row, Time) -> Row): map<Id, Row> {
    map id | id in t :: if id in plan then f(t[id], plan[id]) else t[id]
  }

  /** The buckets hold each planned row once, under its target. */
  ghost predicate Files(buckets: map<Time, seq<Id>>, plan: map<Id, Time>) {
    && (forall at | at in buckets :: Distinct(buckets[at]))
    && (forall at | at in buckets :: forall id | id in buckets[at] :: id in plan && plan[id] == at)
    && (forall id | id in plan :: plan[id] in buckets && id in buckets[plan[id]])
  }

  function Bucket(buckets: map<Time, seq<Id>>, at: Time): seq<Id> {
    if at in buckets then buckets[at] else []
  }

  lemma FileOne(buckets: map<Time, seq<Id>>, plan: map<Id, Time>, at: Time, id: Id)
    requires Files(buckets, plan) && id !in plan
    ensures Files(buckets[at := Bucket(buckets, at) + [id]], plan[id := at])
  {
    var more := Bucket(buckets, at) + [id];
    assert id !in Bucket(buckets, at);
    assert Distinct(more);
  }

  /** `t'` is `t` with the plan carried out for the targets in `done`. */
  ghost predicate PartlyPlanned(
      t: map<Id, Row>, t': map<Id, Row>, plan: map<Id, Time>, f: (Row, Time) -> Row, done: seq<Time>) {
    && t'.Keys == t.Keys
    && forall id | id in t :: t'[id] == if id in plan && plan[id] in done then f(t[id], plan[id]) else t[id]
  }

  lemma BucketCarriedOut(
      t: map<Id, Row>, t1: map<Id, Row>, buckets: map<Time, seq<Id>>, plan: map<Id, Time>, f: (Row, Time) -> Row,
      keys: seq<Time>, k: nat)
    requires Files(buckets, plan) && k < |keys| && keys[k] in buckets && keys[k] !in keys[..k]
    requires PartlyPlanned(t, t1, plan, f, keys[..k])
    ensures PartlyPlanned(t, Update(t1, buckets[keys[k]], r => f(r, keys[k])), plan, f, keys[..k + 1])
  {
    assert keys[..k + 1] == keys[..k] + [keys[k]];
    var t2 := Update(t1, buckets[keys[k]], r => f(r, keys[k]));
    forall id | id in t
      ensures t2[id] == if id in plan && plan[id] in keys[..k + 1] then f(t[id], plan[id]) else t[id]
    {
      var key := keys[k];
      if id in plan {
        assert id in buckets[plan[id]];
        assert plan[id] in keys[..k + 1] <==> plan[id] in keys[..k] || plan[id] == key;
      }
      assert t2[id] == if id in buckets[key] then f(t1[id], key) else t1[id];
    }
  }

  lemma FullyPlanned(
      t: map<Id, Row>, t': map<Id, Row>, buckets: map<Time, seq<Id>>, plan: map<Id, Time>, f: (Row, Time) -> Row,
      keys: seq<Time>)
    requires Files(buckets, plan) && PartlyPlanned(t, t', plan, f, keys)
    requires forall at :: at in keys <==> at in buckets
    ensures t' == Planned(t, plan, f)
  {
    forall id | id in t
      ensures t'[id] == Planned(t, plan, f)[id]
    {
      if id in plan {
        var at := plan[id];
        assert at in buckets && at in keys;
      }
    }
  }

  // ---- what the buckets are filled with

  /** The instant a realigned row moves to, if it moves. */
  function Target(db: Db, r: Row, now: Time): Option<Time> {
    match DeferredUntil(db.policy, db.events, r.parent, now)
    case Some(until) => Some(if r.attempts == 0 then until else Max(until, r.nextAt))
    case None =>
      if r.parent in db.events && GovernorOf(db.policy, db.events[r.parent]).Some?
         && r.attempts == 0 && r.nextAt > now then Some(now) else None
  }

  lemma TargetRealigns(db: Db, r: Row, now: Time)
    ensures RealignedRow(db, r, now) == match Target(db, r, now) case Some(at) => r.(nextAt := at) case None => r
  {
  }

  /** The plan lists exactly those of `ids` to which `goal` gives an instant, with that instant. */
  ghost predicate IsPlan(goal: Id -> Option<Time>, ids: seq<Id>, plan: map<Id, Time>) {
    && (forall id | id in plan :: id in ids && goal(id) == Some(plan[id]))
    && (forall id | id in ids && id !in plan :: goal(id).None?)
  }

  lemma PlanOne(goal: Id -> Option<Time>, ids: seq<Id>, plan: map<Id, Time>, k: nat)
    requires Distinct(ids) && k < |ids| && IsPlan(goal, ids[..k], plan)
    ensures ids[k] !in plan
    ensures IsPlan(goal, ids[..k + 1], if goal(ids[k]).Some? then plan[ids[k] := goal(ids[k]).value] else plan)
  {
    assert ids[..k + 1] == ids[..k] + [ids[k]];
    assert ids[k] !in ids[..k];
    assert forall id | id in plan :: id in ids[..k];
  }

  /** Those of `ids` to which `goal` gives no instant. */
  ghost predicate IsRest(goal: Id -> Option<Time>, ids: seq<Id>, rest: seq<Id>) {
    && Distinct(rest)
    && (forall id :: id in rest <==> id in ids && goal(id).None?)
  }

  lemma RestOne(goal: Id -> Option<Time>, ids: seq<Id>, rest: seq<Id>, k: nat)
    requires Distinct(ids) && k < |ids| && IsRest(goal, ids[..k], rest)
    ensures IsRest(goal, ids[..k + 1], if goal(ids[k]).None? then rest + [ids[k]] else rest)
  {
    assert ids[..k + 1] == ids[..k] + [ids[k]];
    var id := ids[k];
    assert id !in ids[..k];
    assert id !in rest;
  }

  function TargetOf(db: Db, now: Time): Id -> Option<Time> {
    id => if id in db.deliveries then Target(db, db.deliveries[id], now) else None
  }

  function DeferralOf(db: Db, now: Time): Id -> Option<Time> {
    id => if id in db.deliveries then DeferredUntil(db.policy, db.events, db.deliveries[id].parent, now) else None
  }

  /** The deferral a governing follow imposes, as read off the recomputed governors. */
  function DeferralIn(governing: map<Id, Candidate>, event: Id, now: Time): Option<Time> {
    if event in governing then ResumesAt(governing[event].rule, now) else None
  }

  lemma DeferralIsRead(db: Db, eventIds: seq<Id>, governing: map<Id, Candidate>, event: Id, now: Time)
    requires Collected(db.policy, db.events, eventIds, governing) && event in eventIds
    ensures DeferralIn(governing, event, now) == DeferredUntil(db.policy, db.events, event, now)
    ensures event in governing <==> event in db.events && GovernorOf(db.policy, db.events[event]).Some?
  {
  }

  function EventIds(t: map<Id, Row>, ids: seq<Id>): (r: seq<Id>)
    requires forall id | id in ids :: id in t
    ensures forall id | id in ids :: t[id].parent in r
  {
    if ids == [] then []
    else
      var id := ids[0];
      assert id in ids && ids == [id] + ids[1..];
      [t[id].parent] + EventIds(t, ids[1..])
  }

  /** Files every candidate that moves under its target instant. */
  method FileTargets(db: Db, candidates: seq<Id>, governing: map<Id, Candidate>, now: Time)
    returns (buckets: map<Time, seq<Id>>, ghost plan: map<Id, Time>)
    requires Distinct(candidates) && forall id | id in candidates :: id in db.deliveries
    requires Collected(db.policy, db.events, EventIds(db.deliveries, candidates), governing)
    ensures Files(buckets, plan) && IsPlan(TargetOf(db, now), candidates, plan)
    ensures forall at | at in buckets :: forall id | id in buckets[at] :: TargetOf(db, now)(id) == Some(at)
  {
    buckets, plan := map[], map[];
    for k := 0 to |candidates|
      invariant Files(buckets, plan) && IsPlan(TargetOf(db, now), candidates[..k], plan)
    {
      var id := candidates[k];
      var r := db.deliveries[id];
      var deferral := DeferralIn(governing, r.parent, now);
      DeferralIsRead(db, EventIds(db.deliveries, candidates), governing, r.parent, now);
      var target := None;
      if r.parent in governing {
        if deferral.Some? && r.attempts == 0 {
          target := deferral;
        } else if deferral.Some? {
          target := Some(if r.nextAt > deferral.value then r.nextAt else deferral.value);
        } else if r.attempts == 0 && r.nextAt > now {
          target := Some(now);
        }
      }
      assert target == TargetOf(db, now)(id);
      PlanOne(TargetOf(db, now), candidates, plan, k);
      if target.Some? {
        FileOne(buckets, plan, target.value, id);
        buckets := buckets[target.value := Bucket(buckets, target.value) + [id]];
        plan := plan[id := target.value];
      }
    }
    assert candidates[..|candidates|] == candidates;
  }

  // ---- leaving out what a pause holds back

  /** Separates the rows no pause holds back from the others, which are filed under the end of their pause. */
  method SplitDeferred(db: Db, candidates: seq<Id>, governing: map<Id, Candidate>, now: Time)
    returns (runnable: seq<Id>, buckets: map<Time, seq<Id>>, ghost plan: map<Id, Time>)
    requires Distinct(candidates) && forall id | id in candidates :: id in db.deliveries
    requires Collected(db.policy, db.events, EventIds(db.deliveries, candidates), governing)
    ensures Files(buckets, plan)
    ensures IsPlan(DeferralOf(db, now), candidates, plan) && IsRest(DeferralOf(db, now), candidates, runnable)
  {
    runnable, buckets, plan := [], map[], map[];
    for k := 0 to |candidates|
      invariant Files(buckets, plan) && IsPlan(DeferralOf(db, now), candidates[..k], plan)
      invariant IsRest(DeferralOf(db, now), candidates[..k], runnable)
    {
      var id := candidates[k];
      var parent := db.deliveries[id].parent;
      var deferral := DeferralIn(governing, parent, now);
      DeferralIsRead(db, EventIds(db.deliveries, candidates), governing, parent, now);
      assert deferral == DeferralOf(db, now)(id);
      PlanOne(DeferralOf(db, now), candidates, plan, k);
      RestOne(DeferralOf(db, now), candidates, runnable, k);
      if deferral.Some? {
        FileOne(buckets, plan, deferral.value, id);
        buckets := buckets[deferral.value := Bucket(buckets, deferral.value) + [id]];
        plan := plan[id := deferral.value];
      } else {
        runnable := runnable + [id];
      }
    }
    assert candidates[..|candidates|] == candidates;
  }

  /** Leaves out the rows a pause holds back. */
  method Undeferred(db: Db, candidates: seq<Id>, governing: map<Id, Candidate>, now: Time) returns (rest: seq<Id>)
    requires Distinct(candidates) && forall id | id in candidates :: id in db.deliveries
    requires Collected(db.policy, db.events, EventIds(db.deliveries, candidates), governing)
    ensures IsRest(DeferralOf(db, now), candidates, rest)
  {
    rest := [];
    for k := 0 to |candidates|
      invariant IsRest(DeferralOf(db, now), candidates[..k], rest)
    {
      var id := candidates[k];
      var parent := db.deliveries[id].parent;
      DeferralIsRead(db, EventIds(db.deliveries, candidates), governing, parent, now);
      RestOne(DeferralOf(db, now), candidates, rest, k);
      if DeferralIn(governing, parent, now).None? {
        rest := rest + [id];
      }
    }
    assert candidates[..|candidates|] == candidates;
  }

  // ---- the deliveries a rule change could affect

  predicate Matches(db: Db, id: Id, user: Id, artist: Id) {
    id in db.deliveries && Affected(db, db.deliveries[id], user, {artist})
  }

  predicate MatchesAny(db: Db, id: Id, user: Id, artists: seq<Id>) {
    exists a | a in artists :: a >= 1 && Matches(db, id, user, a)
  }

  lemma MatchesAnyIsAffected(db: Db, id: Id, user: Id, artists: seq<Id>)
    requires id in db.deliveries
    ensures MatchesAny(db, id, user, artists) <==> Affected(db, db.deliveries[id], user, Positive(artists))
  {
    var r := db.deliveries[id];
    if Affected(db, r, user, Positive(artists)) {
      var rel := db.policy.releases[db.events[r.parent].release];
      var a :| a in Positive(artists) && Associated(rel, a);
      assert Matches(db, id, user, a);
    }
  }

  lemma MatchesOneMore(db: Db, id: Id, user: Id, artists: seq<Id>, k: nat)
    requires k < |artists|
    ensures MatchesAny(db, id, user, artists[..k + 1])
       <==> MatchesAny(db, id, user, artists[..k]) || (artists[k] >= 1 && Matches(db, id, user, artists[k]))
  {
    assert artists[..k + 1] == artists[..k] + [artists[k]];
  }

  /** One query per artist; a delivery that several artists match is taken once. */
  method QueuedFor(db: Db, user: Id, artists: seq<Id>) returns (candidates: seq<Id>)
    ensures Distinct(candidates)
    ensures forall id :: id in candidates <==> MatchesAny(db, id, user, artists)
  {
    candidates := [];
    for k := 0 to |artists|
      invariant Distinct(candidates)
      invariant forall id :: id in candidates <==> MatchesAny(db, id, user, artists[..k])
    {
      forall id: Id
        ensures MatchesAny(db, id, user, artists[..k + 1])
           <==> MatchesAny(db, id, user, artists[..k]) || (artists[k] >= 1 && Matches(db, id, user, artists[k]))
      {
        MatchesOneMore(db, id, user, artists, k);
      }
      if artists[k] >= 1 {
        var rows := Ranking.Elements(set id | id in db.deliveries && Matches(db, id, user, artists[k]));
        ghost var before := candidates;
        for i := 0 to |rows|
          invariant Distinct(candidates)
          invariant forall id :: id in candidates <==> id in before || id in rows[..i]
        {
          assert rows[..i + 1] == rows[..i] + [rows[i]];
          if rows[i] !in candidates {
            candidates := candidates + [rows[i]];
          }
        }
        assert rows[..|rows|] == rows;
      }
    }
    assert artists[..|artists|] == artists;
  }
}
