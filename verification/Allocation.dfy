/** The ids the database hands out to new rows. */
module Allocation {
  import opened Prelude
  import opened Tables
  import opened Transactions
  import Ranking

  method FreshId(used: set<Id>) returns (id: Id)
    ensures id !in used
  {
    var ids := Ranking.Elements(used);
    id := 1;
    for i := 0 to |ids|
      invariant forall j | 0 <= j < i :: ids[j] < id
    {
      id := Max(id, ids[i] + 1);
    }
    forall u | u in used
      ensures u < id
    {
      assert u in ids;
    }
  }

  /** One new row per destination that is due one. */
  method FreshRows(t: map<Id, Row>, targets: set<Id>) returns (rows: map<Id, Id>)
    ensures Fresh(t, rows, targets)
  {
    var dests := Ranking.Elements(targets);
    rows := map[];
    for i := 0 to |dests|
      invariant rows.Keys !! t.Keys && |rows| == i
      invariant forall id | id in rows :: rows[id] in dests[..i]
      invariant forall d | d in dests[..i] :: Serves(rows, d)
      invariant forall a, b | a in rows && b in rows && a != b :: rows[a] != rows[b]
    {
      var d := dests[i];
      assert dests[..i + 1] == dests[..i] + [d];
      assert d !in dests[..i];
      var id := FreshId(t.Keys + rows.Keys);
      ghost var before := rows;
      rows := rows[id := d];
      forall e | e in dests[..i + 1]
        ensures Serves(rows, e)
      {
        if e == d {
          assert id in rows && rows[id] == d;
        } else {
          var k :| k in before && before[k] == e;
          assert k in rows && rows[k] == e;
        }
      }
    }
    assert dests[..|dests|] == dests;
  }

  /** Whatever is admitted, fitting ids exist: the existing event or a new one, and new rows. */
  method NewAdmission(db: Db, user: Id, release: Id, moment: Moment, now: Time, bypass: bool) returns (a: Admission)
    ensures Fits(db, a)
    ensures a.user == user && a.release == release && a.moment == moment && a.now == now && a.bypass == bypass
  {
    var eid: Id;
    if EventExists(db, user, release, moment) {
      eid :| eid in db.events && HasKey(db.events[eid], user, release, moment);
    } else {
      eid := FreshId(db.events.Keys);
    }
    var created := if eid in db.events then db.events[eid].createdAt else now;
    var rows := FreshRows(db.deliveries, Targets(db, db.deliveries, user, eid, created));
    var holdId := FreshId(db.holds.Keys);
    a := Admission(user, release, moment, now, bypass, eid, rows, holdId);
  }

  method NewDigestPlan(db: Db, user: Id, found: Option<Id>, now: Time) returns (plan: DigestPlan)
    requires found.Some? ==> found.value in db.runs && db.runs[found.value].user == user
    ensures FitsDigest(db, plan) && plan.user == user && plan.found == found && plan.now == now
  {
    var runId := FreshId(db.runs.Keys);
    var run := if found.Some? then found.value else runId;
    var created := if found.Some? then db.runs[run].createdAt else now;
    var rows := FreshRows(db.digests, Targets(db, db.digests, user, run, created));
    plan := DigestPlan(user, found, runId, now, rows);
  }
}
