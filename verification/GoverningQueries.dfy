/**
 The two queries that list the follows which could govern an event (one for admission, one for the batched recompute),
 and the resolution that both feed.
 */
module GoverningQueries {
  import opened Prelude
  import opened Tables
  import opened Governing
  import Ranking

  const BATCH: nat := 200

  // ---- the rows of the two queries

  /** A joined row: a follow of the member by an artist of the release, with its rule and its role. */
  ghost predicate Joins(p: Policy, user: Id, rel: Release, c: Candidate) {
    && (user, c.artist) in p.follows && Associated(rel, c.artist)
    && c.rule == RuleOf(p, user, c.artist) && c.role == RoleOf(rel, c.artist)
  }

  ghost predicate Lists(rows: seq<Candidate>, artist: Id) {
    exists i | 0 <= i < |rows| :: rows[i].artist == artist
  }

  /** The admission query by its conditions and its order: exactly the joined follows, canonical first, then by id. */
  ghost predicate IsAdmissionListing(p: Policy, e: Event, rows: seq<Candidate>) {
    if e.release !in p.releases then rows == []
    else
      var rel := p.releases[e.release];
      && (forall i | 0 <= i < |rows| :: Joins(p, e.user, rel, rows[i]))
      && (forall a | (e.user, a) in p.follows && Associated(rel, a) :: Lists(rows, a))
      && Ordered(rel, rows)
  }

  /** One row of the recompute query: an event and a follow that could govern it. */
  datatype Joined = Joined(event: Id, candidate: Candidate)

  ghost predicate JoinsEvent(p: Policy, events: map<Id, Event>, row: Joined) {
    && row.event in events && events[row.event].release in p.releases
    && Joins(p, events[row.event].user, p.releases[events[row.event].release], row.candidate)
  }

  /** The order of the recompute query: by event, then as in the admission query. */
  ghost predicate JoinedBefore(p: Policy, events: map<Id, Event>, a: Joined, b: Joined)
    requires JoinsEvent(p, events, a)
  {
    a.event < b.event
    || (a.event == b.event
        && Before(p.releases[events[a.event].release], a.candidate.artist, b.candidate.artist))
  }

  ghost predicate ListsFor(rows: seq<Joined>, e: Id, artist: Id) {
    exists i | 0 <= i < |rows| :: rows[i].event == e && rows[i].candidate.artist == artist
  }

  ghost predicate Wanted(p: Policy, events: map<Id, Event>, e: Id, artist: Id) {
    && e in events && events[e].release in p.releases
    && (events[e].user, artist) in p.follows && Associated(p.releases[events[e].release], artist)
  }

  /** The recompute query by its conditions and its order. */
  ghost predicate IsRecomputeListing(p: Policy, events: map<Id, Event>, chunk: seq<Id>, rows: seq<Joined>) {
    && (forall i | 0 <= i < |rows| :: rows[i].event in chunk && JoinsEvent(p, events, rows[i]))
    && (forall e, a | e in chunk && Wanted(p, events, e, a) :: ListsFor(rows, e, a))
    && (forall i, j | 0 <= i < j < |rows| :: JoinedBefore(p, events, rows[i], rows[j]))
  }

  // ---- a listing is determined by what it lists

  lemma ListsFirst(a: seq<Candidate>)
    ensures a != [] ==> Lists(a, a[0].artist)
  {
  }

  /** Two lists in the same strict order that name the same artists name them at the same places. */
  lemma {:induction false} SameOrder(rel: Release, a: seq<Candidate>, b: seq<Candidate>)
    requires Ordered(rel, a) && Ordered(rel, b)
    requires forall x :: Lists(a, x) <==> Lists(b, x)
    ensures |a| == |b| && forall i | 0 <= i < |a| :: a[i].artist == b[i].artist
    decreases |a|
  {
    if a == [] {
      ListsFirst(b);
    } else {
      assert Lists(a, a[0].artist) && Lists(b, a[0].artist);
      FirstsAgree(rel, a, b);
      TailsAgree(rel, a, b);
      SameOrder(rel, a[1..], b[1..]);
      assert forall i | 0 < i < |a| :: a[i] == a[1..][i - 1];
      assert forall i | 0 < i < |b| :: b[i] == b[1..][i - 1];
    }
  }

  lemma FirstsAgree(rel: Release, a: seq<Candidate>, b: seq<Candidate>)
    requires Ordered(rel, a) && Ordered(rel, b) && a != []
    requires forall x :: Lists(a, x) <==> Lists(b, x)
    ensures b != [] && a[0].artist == b[0].artist
  {
    assert Lists(a, a[0].artist);
    var j :| 0 <= j < |b| && b[j].artist == a[0].artist;
    assert Lists(b, b[0].artist);
    var i :| 0 <= i < |a| && a[i].artist == b[0].artist;
  }

  lemma TailsAgree(rel: Release, a: seq<Candidate>, b: seq<Candidate>)
    requires Ordered(rel, a) && Ordered(rel, b) && a != [] && b != [] && a[0].artist == b[0].artist
    requires forall x :: Lists(a, x) <==> Lists(b, x)
    ensures Ordered(rel, a[1..]) && Ordered(rel, b[1..])
    ensures forall x :: Lists(a[1..], x) <==> Lists(b[1..], x)
  {
    forall x
      ensures Lists(a[1..], x) <==> Lists(b[1..], x)
    {
      TailLists(rel, a, x);
      TailLists(rel, b, x);
    }
  }

  lemma TailLists(rel: Release, a: seq<Candidate>, x: Id)
    requires Ordered(rel, a) && a != []
    ensures Lists(a[1..], x) <==> Lists(a, x) && x != a[0].artist
  {
    if Lists(a, x) && x != a[0].artist {
      var i :| 0 <= i < |a| && a[i].artist == x;
      assert a[1..][i - 1] == a[i];
    }
    if Lists(a[1..], x) {
      var i :| 0 <= i < |a[1..]| && a[1..][i].artist == x;
      assert a[i + 1] == a[1..][i];
    }
  }

  /** A listing of the admission query is unique. */
  lemma ListingIsUnique(p: Policy, e: Event, a: seq<Candidate>, b: seq<Candidate>)
    requires IsAdmissionListing(p, e, a) && IsAdmissionListing(p, e, b)
    ensures a == b
  {
    if e.release in p.releases {
      var rel := p.releases[e.release];
      forall x
        ensures Lists(a, x) <==> Lists(b, x)
      {
        ListsJoined(p, e, a, x);
        ListsJoined(p, e, b, x);
      }
      SameOrder(rel, a, b);
      forall i | 0 <= i < |a|
        ensures a[i] == b[i]
      {
        assert Joins(p, e.user, rel, a[i]) && Joins(p, e.user, rel, b[i]);
      }
    }
  }

  lemma ListsJoined(p: Policy, e: Event, rows: seq<Candidate>, x: Id)
    requires IsAdmissionListing(p, e, rows) && e.release in p.releases
    ensures Lists(rows, x) <==> (e.user, x) in p.follows && Associated(p.releases[e.release], x)
  {
    if Lists(rows, x) {
      var i :| 0 <= i < |rows| && rows[i].artist == x;
      assert Joins(p, e.user, p.releases[e.release], rows[i]);
    }
  }

  /** The follows that could govern an event, in admission order. */
  function CandidatesFor(p: Policy, e: Event): seq<Candidate> {
    if e.release in p.releases then
      var rel := p.releases[e.release];
      Candidates(p, e.user, rel, AdmissionOrder(rel))
    else []
  }

  lemma CandidatesAreListing(p: Policy, e: Event)
    ensures IsAdmissionListing(p, e, CandidatesFor(p, e))
  {
    if e.release in p.releases {
      var rel := p.releases[e.release];
      var cs := CandidatesFor(p, e);
      AdmissionOrderIsOrdered(rel);
      CandidatesKeepOrder(p, e.user, rel, AdmissionOrder(rel));
      forall i | 0 <= i < |cs|
        ensures Joins(p, e.user, rel, cs[i])
      {
        assert cs[i] in cs;
      }
      forall a | (e.user, a) in p.follows && Associated(rel, a)
        ensures Lists(cs, a)
      {
        var x := Candidate(a, RuleOf(p, e.user, a), RoleOf(rel, a));
        assert a in AdmissionOrder(rel) && x in cs;
        var i :| 0 <= i < |cs| && cs[i] == x;
      }
    }
  }

  /** Whatever lists the joined follows in admission order is the candidate list. */
  lemma ListingIsCandidates(p: Policy, e: Event, rows: seq<Candidate>)
    requires IsAdmissionListing(p, e, rows)
    ensures rows == CandidatesFor(p, e)
  {
    CandidatesAreListing(p, e);
    ListingIsUnique(p, e, rows, CandidatesFor(p, e));
  }

  // ---- grouping the recompute by event

  function Group(rows: seq<Joined>, e: Id): seq<Candidate> {
    if rows == [] then []
    else
      var last := |rows| - 1;
      Group(rows[..last], e) + if rows[last].event == e then [rows[last].candidate] else []
  }

  lemma {:induction false} GroupHolds(rows: seq<Joined>, e: Id, c: Candidate)
    ensures c in Group(rows, e) <==> Joined(e, c) in rows
  {
    if rows != [] {
      var last := |rows| - 1;
      GroupHolds(rows[..last], e, c);
      assert rows == rows[..last] + [rows[last]];
    }
  }

  lemma {:induction false} GroupIsOrdered(p: Policy, events: map<Id, Event>, rows: seq<Joined>, e: Id)
    requires e in events && events[e].release in p.releases
    requires forall i | 0 <= i < |rows| :: JoinsEvent(p, events, rows[i])
    requires forall i, j | 0 <= i < j < |rows| :: JoinedBefore(p, events, rows[i], rows[j])
    ensures Ordered(p.releases[events[e].release], Group(rows, e))
  {
    if rows != [] {
      var last := |rows| - 1;
      var front := Group(rows[..last], e);
      GroupIsOrdered(p, events, rows[..last], e);
      if rows[last].event == e {
        forall i | 0 <= i < |front|
          ensures Before(p.releases[events[e].release], front[i].artist, rows[last].candidate.artist)
        {
          GroupHolds(rows[..last], e, front[i]);
          assert front[i] in front;
          var k :| 0 <= k < last && rows[..last][k] == Joined(e, front[i]);
          assert JoinedBefore(p, events, rows[k], rows[last]);
        }
        OrderedSnoc(p.releases[events[e].release], front, rows[last].candidate);
      }
    }
  }

  lemma OrderedSnoc(rel: Release, cs: seq<Candidate>, c: Candidate)
    requires Ordered(rel, cs) && forall i | 0 <= i < |cs| :: Before(rel, cs[i].artist, c.artist)
    ensures Ordered(rel, cs + [c])
  {
  }

  /** The rows of one event in the recompute are a listing of the admission query for that event. */
  lemma GroupIsListing(p: Policy, events: map<Id, Event>, chunk: seq<Id>, rows: seq<Joined>, e: Id)
    requires IsRecomputeListing(p, events, chunk, rows) && e in chunk && e in events
    ensures IsAdmissionListing(p, events[e], Group(rows, e))
  {
    var g := Group(rows, e);
    forall i | 0 <= i < |g|
      ensures Joined(e, g[i]) in rows && JoinsEvent(p, events, Joined(e, g[i]))
    {
      assert g[i] in g;
      GroupHolds(rows, e, g[i]);
      var k :| 0 <= k < |rows| && rows[k] == Joined(e, g[i]);
    }
    assert |g| > 0 ==> JoinsEvent(p, events, Joined(e, g[0]));
    if events[e].release in p.releases {
      GroupIsOrdered(p, events, rows, e);
      forall a | Wanted(p, events, e, a)
        ensures Lists(g, a)
      {
        assert ListsFor(rows, e, a);
        var k :| 0 <= k < |rows| && rows[k].event == e && rows[k].candidate.artist == a;
        GroupHolds(rows, e, rows[k].candidate);
        assert rows[k] == Joined(e, rows[k].candidate);
        var i :| 0 <= i < |g| && g[i] == rows[k].candidate;
      }
      forall a | (events[e].user, a) in p.follows && Associated(p.releases[events[e].release], a)
        ensures Lists(g, a)
      {
        assert Wanted(p, events, e, a);
      }
    }
  }

  /**
   Admission and the recompute agree: whatever the two queries return, in whatever chunk the event is asked for, the
   follows they rank are the same, in the same order.
   */
  lemma QueriesAgree(
      p: Policy, events: map<Id, Event>, chunk: seq<Id>, rows: seq<Joined>, e: Id, admission: seq<Candidate>)
    requires IsRecomputeListing(p, events, chunk, rows) && e in chunk && e in events
    requires IsAdmissionListing(p, events[e], admission)
    ensures Group(rows, e) == admission
  {
    GroupIsListing(p, events, chunk, rows, e);
    ListingIsUnique(p, events[e], Group(rows, e), admission);
  }

  /** Admission and the recompute both end here, with the rows their own queries returned. */
  method GoverningFollow(p: Policy, e: Event, cs: seq<Candidate>) returns (governor: Option<Candidate>)
    requires IsAdmissionListing(p, e, cs)
    ensures governor == GovernorOf(p, e)
  {
    ListingIsCandidates(p, e, cs);
    governor := None;
    if e.release in p.releases {
      var rel := p.releases[e.release];
      var prefs := PrefsOf(p, e.user);
      if TypeEnabled(prefs, rel) {
        var selected := SelectGoverningCandidate(cs, prefs, rel, e.moment);
        if selected.Some? {
          governor := Some(cs[selected.value]);
        }
      }
    }
  }

  function Grouped(grouped: map<Id, seq<Candidate>>, e: Id): seq<Candidate> {
    if e in grouped then grouped[e] else []
  }

  ghost predicate IsGrouping(rows: seq<Joined>, grouped: map<Id, seq<Candidate>>, order: seq<Id>) {
    && (forall e :: Grouped(grouped, e) == Group(rows, e))
    && (forall e :: e in order <==> e in grouped)
    && (forall e | e in grouped :: grouped[e] != [])
  }

  /** Collects the candidates of every event in the order the cursor yields them. */
  method GroupByEvent(rows: seq<Joined>) returns (grouped: map<Id, seq<Candidate>>, order: seq<Id>)
    ensures IsGrouping(rows, grouped, order)
  {
    grouped, order := map[], [];
    for i := 0 to |rows|
      invariant IsGrouping(rows[..i], grouped, order)
    {
      var e, c := rows[i].event, rows[i].candidate;
      assert rows[..i + 1][..i] == rows[..i];
      if e !in grouped {
        order := order + [e];
      }
      grouped := grouped[e := Grouped(grouped, e) + [c]];
    }
    assert rows[..|rows|] == rows;
  }

  /** `result` holds the governor of exactly the governed events among `ids`. */
  ghost predicate Collected(p: Policy, events: map<Id, Event>, ids: seq<Id>, result: map<Id, Candidate>) {
    && (forall e | e in result :: e in ids && e in events && GovernorOf(p, events[e]) == Some(result[e]))
    && (forall e | e in ids && e !in result :: e !in events || GovernorOf(p, events[e]).None?)
  }

  lemma CollectOne(
      p: Policy, events: map<Id, Event>, ids: seq<Id>, k: nat, result: map<Id, Candidate>, governor: Option<Candidate>)
    requires k < |ids| && Collected(p, events, ids[..k], result)
    requires ids[k] in events && governor == GovernorOf(p, events[ids[k]])
    ensures Collected(p, events, ids[..k + 1], if governor.Some? then result[ids[k] := governor.value] else result)
  {
    assert ids[..k + 1] == ids[..k] + [ids[k]];
  }

  ghost predicate HoldsCandidates(p: Policy, events: map<Id, Event>, e: Id, grouped: map<Id, seq<Candidate>>) {
    e in grouped && e in events && IsAdmissionListing(p, events[e], grouped[e])
  }

  method ResolveGroups(p: Policy, events: map<Id, Event>, grouped: map<Id, seq<Candidate>>, order: seq<Id>)
    returns (result: map<Id, Candidate>)
    requires forall k | 0 <= k < |order| :: HoldsCandidates(p, events, order[k], grouped)
    ensures Collected(p, events, order, result)
  {
    result := map[];
    for k := 0 to |order|
      invariant Collected(p, events, order[..k], result)
    {
      var e := order[k];
      assert HoldsCandidates(p, events, order[k], grouped);
      var governor := GoverningFollow(p, events[e], grouped[e]);
      CollectOne(p, events, order, k, result, governor);
      if governor.Some? {
        result := result[e := governor.value];
      }
    }
    assert order[..|order|] == order;
  }

  /** Resolves one chunk from the rows its query returned; events without rows do not appear at all. */
  method ResolveChunk(p: Policy, events: map<Id, Event>, chunk: seq<Id>, rows: seq<Joined>)
    returns (result: map<Id, Candidate>)
    requires IsRecomputeListing(p, events, chunk, rows)
    ensures Collected(p, events, chunk, result)
  {
    var grouped, order := GroupByEvent(rows);
    forall k | 0 <= k < |order|
      ensures order[k] in chunk && HoldsCandidates(p, events, order[k], grouped)
    {
      var e := order[k];
      assert e in order && Grouped(grouped, e) == Group(rows, e);
      GroupedIsAsked(p, events, chunk, rows, e);
      GroupIsListing(p, events, chunk, rows, e);
    }
    result := ResolveGroups(p, events, grouped, order);
    GroupsAreEnough(p, events, chunk, rows, grouped, order, result);
  }

  lemma GroupedIsAsked(p: Policy, events: map<Id, Event>, chunk: seq<Id>, rows: seq<Joined>, e: Id)
    requires IsRecomputeListing(p, events, chunk, rows) && Group(rows, e) != []
    ensures e in chunk && e in events
  {
    var c := Group(rows, e)[0];
    GroupHolds(rows, e, c);
    assert c in Group(rows, e);
    var k :| 0 <= k < |rows| && rows[k] == Joined(e, c);
    assert rows[k].event in chunk && JoinsEvent(p, events, rows[k]);
  }

  lemma NoCandidates(p: Policy, e: Event)
    requires IsAdmissionListing(p, e, [])
    ensures GovernorOf(p, e).None?
  {
    ListingIsCandidates(p, e, []);
  }

  lemma GroupsAreEnough(
      p: Policy, events: map<Id, Event>, chunk: seq<Id>, rows: seq<Joined>, grouped: map<Id, seq<Candidate>>,
      order: seq<Id>, result: map<Id, Candidate>)
    requires IsRecomputeListing(p, events, chunk, rows) && IsGrouping(rows, grouped, order)
    requires Collected(p, events, order, result)
    ensures Collected(p, events, chunk, result)
  {
    forall e | e in result
      ensures e in chunk
    {
      assert e in order && Grouped(grouped, e) == Group(rows, e);
      GroupedIsAsked(p, events, chunk, rows, e);
    }
    forall e | e in chunk && e !in result && e in events
      ensures GovernorOf(p, events[e]).None?
    {
      if e !in grouped {
        assert Grouped(grouped, e) == Group(rows, e);
        GroupIsListing(p, events, chunk, rows, e);
        NoCandidates(p, events[e]);
      }
    }
  }

  // ---- the recompute query answered

  function SortedIds(ids: seq<Id>): (r: seq<Id>)
    ensures forall x :: x in r <==> x in ids
  {
    if ids == [] then []
    else
      assert ids == [ids[0]] + ids[1..];
      InsertAscending(ids[0], SortedIds(ids[1..]))
  }

  lemma {:induction false} SortedIdsAscend(ids: seq<Id>)
    ensures Ascending(SortedIds(ids))
  {
    if ids != [] {
      SortedIdsAscend(ids[1..]);
      InsertKeepsAscending(ids[0], SortedIds(ids[1..]));
    }
  }

  function Tagged(e: Id, cs: seq<Candidate>): (r: seq<Joined>)
    ensures |r| == |cs| && forall i | 0 <= i < |r| :: r[i] == Joined(e, cs[i])
  {
    seq(|cs|, i requires 0 <= i < |cs| => Joined(e, cs[i]))
  }

  function RowsOf(p: Policy, events: map<Id, Event>, e: Id): seq<Joined> {
    if e in events then Tagged(e, CandidatesFor(p, events[e])) else []
  }

  function AllRows(p: Policy, events: map<Id, Event>, ids: seq<Id>): seq<Joined> {
    if ids == [] then [] else RowsOf(p, events, ids[0]) + AllRows(p, events, ids[1..])
  }

  lemma TaggedLists(e: Id, cs: seq<Candidate>, a: Id)
    requires Lists(cs, a)
    ensures ListsFor(Tagged(e, cs), e, a)
  {
    var i :| 0 <= i < |cs| && cs[i].artist == a;
    assert Tagged(e, cs)[i] == Joined(e, cs[i]);
  }

  lemma RowsOfIsListing(p: Policy, events: map<Id, Event>, e: Id)
    ensures IsRecomputeListing(p, events, [e], RowsOf(p, events, e))
  {
    if e in events {
      var cs := CandidatesFor(p, events[e]);
      CandidatesAreListing(p, events[e]);
      TaggedIsListing(p, events, e, cs);
    }
  }

  lemma TaggedIsListing(p: Policy, events: map<Id, Event>, e: Id, cs: seq<Candidate>)
    requires e in events && IsAdmissionListing(p, events[e], cs)
    ensures IsRecomputeListing(p, events, [e], Tagged(e, cs))
  {
    forall a | Wanted(p, events, e, a)
      ensures ListsFor(Tagged(e, cs), e, a)
    {
      TaggedLists(e, cs, a);
    }
  }

  lemma ListingsJoin(
      p: Policy, events: map<Id, Event>, e: Id, ids: seq<Id>, head: seq<Joined>, tail: seq<Joined>)
    requires IsRecomputeListing(p, events, [e], head) && IsRecomputeListing(p, events, ids, tail)
    requires forall x | x in ids :: e < x
    ensures IsRecomputeListing(p, events, [e] + ids, head + tail)
  {
    var rows := head + tail;
    forall i | 0 <= i < |rows|
      ensures rows[i].event in [e] + ids && JoinsEvent(p, events, rows[i])
    {
      assert rows[i] == if i < |head| then head[i] else tail[i - |head|];
    }
    forall x, a | x in [e] + ids && Wanted(p, events, x, a)
      ensures ListsFor(rows, x, a)
    {
      if x in ids {
        assert ListsFor(tail, x, a);
        var i :| 0 <= i < |tail| && tail[i].event == x && tail[i].candidate.artist == a;
        assert rows[|head| + i] == tail[i];
      } else {
        assert ListsFor(head, x, a);
        var i :| 0 <= i < |head| && head[i].event == x && head[i].candidate.artist == a;
        assert rows[i] == head[i];
      }
    }
    forall i, j | 0 <= i < j < |rows|
      ensures JoinedBefore(p, events, rows[i], rows[j])
    {
      assert rows[i] == if i < |head| then head[i] else tail[i - |head|];
      assert rows[j] == if j < |head| then head[j] else tail[j - |head|];
    }
  }

  lemma {:induction false} AllRowsAreListing(p: Policy, events: map<Id, Event>, ids: seq<Id>)
    requires Ascending(ids)
    ensures IsRecomputeListing(p, events, ids, AllRows(p, events, ids))
  {
    if ids != [] {
      AllRowsAreListing(p, events, ids[1..]);
      RowsOfIsListing(p, events, ids[0]);
      forall x | x in ids[1..]
        ensures ids[0] < x
      {
        var i :| 0 <= i < |ids[1..]| && ids[1..][i] == x;
        assert ids[i + 1] == x;
      }
      ListingsJoin(p, events, ids[0], ids[1..], RowsOf(p, events, ids[0]), AllRows(p, events, ids[1..]));
      assert ids == [ids[0]] + ids[1..];
    }
  }

  /** Answers the recompute query for one chunk. */
  method QueryChunk(p: Policy, events: map<Id, Event>, chunk: seq<Id>) returns (rows: seq<Joined>)
    ensures IsRecomputeListing(p, events, chunk, rows)
  {
    rows := AllRows(p, events, SortedIds(chunk));
    SortedIdsAscend(chunk);
    AllRowsAreListing(p, events, SortedIds(chunk));
  }

  lemma CollectChunk(
      p: Policy, events: map<Id, Event>, ids: seq<Id>, i: nat, j: nat, a: map<Id, Candidate>, b: map<Id, Candidate>)
    requires i <= j <= |ids| && Collected(p, events, ids[..i], a) && Collected(p, events, ids[i..j], b)
    ensures Collected(p, events, ids[..j], a + b)
  {
    assert ids[..j] == ids[..i] + ids[i..j];
  }

  /** One batch after the other, as the bound on query placeholders dictates. */
  method GoverningFollows(p: Policy, events: map<Id, Event>, eventIds: seq<Id>)
    returns (result: map<Id, Candidate>)
    ensures Collected(p, events, eventIds, result)
  {
    result := map[];
    var start := 0;
    while start < |eventIds|
      invariant 0 <= start
      invariant Collected(p, events, eventIds[..Min(start, |eventIds|)], result)
    {
      var end := if start + BATCH > |eventIds| then |eventIds| else start + BATCH;
      var rows := QueryChunk(p, events, eventIds[start..end]);
      var more := ResolveChunk(p, events, eventIds[start..end], rows);
      CollectChunk(p, events, eventIds, start, end, result, more);
      result := result + more;
      start := start + BATCH;
    }
    assert eventIds[..|eventIds|] == eventIds;
  }
}
