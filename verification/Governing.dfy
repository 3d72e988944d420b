/** Which follow decides the schedule of a delivery: `selectGoverningCandidate` and `governingFollows`. */
module Governing {
  import opened Prelude
  import opened Tables

  const DEFAULT_RULE := Rule(Inherit, true, true, true, true, true, true, true, true, None)
  const DEFAULT_PREFS := Prefs(true, true, true, true, true, false)

  function RuleOf(p: Policy, user: Id, artist: Id): Rule {
    if (user, artist) in p.rules then p.rules[(user, artist)] else DEFAULT_RULE
  }

  function PrefsOf(p: Policy, user: Id): Prefs {
    if user in p.prefs then p.prefs[user] else DEFAULT_PREFS
  }

  // ---- the rule predicates

  predicate IsCompilation(rel: Release) {
    rel.kind.CompilationType? || rel.compilation
  }

  predicate AllowsRelease(r: Rule, rel: Release, role: Role, moment: Moment) {
    && (if role.Primary? then r.includePrimary else r.includeFeatured)
    && (if IsCompilation(rel) then r.compilations
        else match rel.kind
          case Album => r.albums
          case EP => r.eps
          case Single => r.singles
          case _ => true)
    && (match moment case Announcement => r.announcements case ReleaseDay => r.releaseDay)
  }

  predicate AllowsMoment(r: Rule, p: Prefs, moment: Moment) {
    r.mode.Inherit? ==> match moment case Announcement => p.announcements case ReleaseDay => p.releaseDay
  }

  predicate TypeEnabled(p: Prefs, rel: Release) {
    IsCompilation(rel) || match rel.kind
      case Album => p.albums
      case EP => p.eps
      case Single => p.singles
      case _ => true
  }

  predicate PausedAt(r: Rule, now: Time) {
    r.pausedUntil.Some? && now < r.pausedUntil.value
  }

  function EffectiveMode(r: Rule, now: Time): Mode {
    if PausedAt(r, now) then Off else r.mode
  }

  predicate QueuesImmediate(r: Rule, now: Time) {
    EffectiveMode(r, now).Inherit? || EffectiveMode(r, now).Immediate?
  }

  /** When a paused follow's notifications become deliverable; `None` when nothing is deferred. */
  function ResumesAt(r: Rule, now: Time): Option<Time> {
    if PausedAt(r, now) && (r.mode.Inherit? || r.mode.Immediate?) then r.pausedUntil else None
  }

  // ---- candidates, in admission order

  datatype Candidate = Candidate(artist: Id, rule: Rule, role: Role)

  predicate HasRole(rel: Release, artist: Id, role: Role) {
    exists c | c in rel.credits :: c.artist == artist && c.role == role
  }

  /** Primary beats featured beats guest; the release's own role stands in when no credit row exists. */
  function RoleOf(rel: Release, artist: Id): Role {
    if HasRole(rel, artist, Primary) then Primary
    else if HasRole(rel, artist, Featured) then Featured
    else if HasRole(rel, artist, Guest) then Guest
    else if artist == rel.artist && rel.role.Some? then rel.role.value
    else Primary
  }

  /** The canonical artist first, then every other credited artist in ascending order. */
  function AdmissionOrder(rel: Release): (r: seq<Id>)
    ensures forall a :: a in r <==> Associated(rel, a)
  {
    [rel.artist] + Without(CreditArtists(rel.credits), rel.artist)
  }

  function Without(s: seq<Id>, x: Id): (r: seq<Id>)
    ensures forall y :: y in r <==> y in s && y != x
  {
    if s == [] then []
    else
      assert s == [s[0]] + s[1..];
      (if s[0] == x then [] else [s[0]]) + Without(s[1..], x)
  }

  /** `a` comes before `b` in admission order. */
  predicate Before(rel: Release, a: Id, b: Id) {
    a != b && (a == rel.artist || (b != rel.artist && a < b))
  }

  ghost predicate Ascending(s: seq<Id>) {
    forall i, j | 0 <= i < j < |s| :: s[i] < s[j]
  }

  lemma {:induction false} InsertKeepsAscending(x: Id, s: seq<Id>)
    requires Ascending(s)
    ensures Ascending(InsertAscending(x, s))
  {
    if s != [] && x > s[0] {
      InsertKeepsAscending(x, s[1..]);
      var r := InsertAscending(x, s[1..]);
      forall i | 0 <= i < |r|
        ensures s[0] < r[i]
      {
        assert r[i] in r;
      }
    }
  }

  lemma {:induction false} CreditArtistsAscending(credits: seq<Credit>)
    ensures Ascending(CreditArtists(credits))
  {
    if credits != [] {
      CreditArtistsAscending(credits[1..]);
      InsertKeepsAscending(credits[0].artist, CreditArtists(credits[1..]));
    }
  }

  lemma {:induction false} WithoutKeepsAscending(s: seq<Id>, x: Id)
    requires Ascending(s)
    ensures Ascending(Without(s, x))
  {
    if s != [] {
      WithoutKeepsAscending(s[1..], x);
      var r := Without(s[1..], x);
      forall i | 0 <= i < |r|
        ensures s[0] < r[i]
      {
        assert r[i] in r;
        assert r[i] in s[1..];
      }
    }
  }

  /** Every associated artist occurs once, the canonical one first and the rest by ascending id. */
  lemma AdmissionOrderIsOrdered(rel: Release)
    ensures forall i, j | 0 <= i < j < |AdmissionOrder(rel)| ::
              Before(rel, AdmissionOrder(rel)[i], AdmissionOrder(rel)[j])
  {
    CreditArtistsAscending(rel.credits);
    var rest := Without(CreditArtists(rel.credits), rel.artist);
    WithoutKeepsAscending(CreditArtists(rel.credits), rel.artist);
    forall i | 0 <= i < |rest|
      ensures rest[i] != rel.artist
    {
      assert rest[i] in rest;
    }
  }

  function Candidates(p: Policy, user: Id, rel: Release, artists: seq<Id>): (r: seq<Candidate>)
    ensures forall c | c in r ::
      c.artist in artists && (user, c.artist) in p.follows
      && c.rule == RuleOf(p, user, c.artist) && c.role == RoleOf(rel, c.artist)
    ensures forall a | a in artists && (user, a) in p.follows ::
      Candidate(a, RuleOf(p, user, a), RoleOf(rel, a)) in r
  {
    if artists == [] then []
    else
      var a := artists[0];
      assert artists == [a] + artists[1..];
      (if (user, a) in p.follows then [Candidate(a, RuleOf(p, user, a), RoleOf(rel, a))] else [])
      + Candidates(p, user, rel, artists[1..])
  }

  ghost predicate Ordered(rel: Release, cs: seq<Candidate>) {
    forall i, j | 0 <= i < j < |cs| :: Before(rel, cs[i].artist, cs[j].artist)
  }

  lemma {:induction false} CandidatesKeepOrder(p: Policy, user: Id, rel: Release, artists: seq<Id>)
    requires forall i, j | 0 <= i < j < |artists| :: Before(rel, artists[i], artists[j])
    ensures Ordered(rel, Candidates(p, user, rel, artists))
  {
    if artists != [] {
      var tail := artists[1..];
      CandidatesKeepOrder(p, user, rel, tail);
      var cs := Candidates(p, user, rel, tail);
      forall i | 0 <= i < |cs|
        ensures Before(rel, artists[0], cs[i].artist)
      {
        assert cs[i] in cs;
        var k :| 0 <= k < |tail| && tail[k] == cs[i].artist;
      }
      var a := artists[0];
      OrderedCons(rel, Candidate(a, RuleOf(p, user, a), RoleOf(rel, a)), cs);
    }
  }

  lemma OrderedCons(rel: Release, c: Candidate, cs: seq<Candidate>)
    requires Ordered(rel, cs)
    requires forall i | 0 <= i < |cs| :: Before(rel, c.artist, cs[i].artist)
    ensures Ordered(rel, [c] + cs) && Ordered(rel, [] + cs)
  {
    assert [] + cs == cs;
    var all := [c] + cs;
    forall i, j | 0 <= i < j < |all|
      ensures Before(rel, all[i].artist, all[j].artist)
    {
      ConsAt(rel, c, cs, i, j);
    }
  }

  lemma ConsAt(rel: Release, c: Candidate, cs: seq<Candidate>, i: nat, j: nat)
    requires Ordered(rel, cs) && i < j <= |cs|
    requires Before(rel, c.artist, cs[j - 1].artist)
    ensures Before(rel, ([c] + cs)[i].artist, ([c] + cs)[j].artist)
  {
  }

  // ---- selection

  predicate Eligible(c: Candidate, p: Prefs, rel: Release, moment: Moment) {
    AllowsRelease(c.rule, rel, c.role, moment) && AllowsMoment(c.rule, p, moment)
  }

  /** Ranks the configured mode, never its paused projection. */
  function Priority(m: Mode): nat {
    match m
    case Inherit => 3
    case Immediate => 3
    case Digest => 2
    case Off => 1
  }

  /** Position `i` holds the leftmost candidate of maximal priority among the eligible ones. */
  ghost predicate IsLeftmostBest(cs: seq<Candidate>, p: Prefs, rel: Release, moment: Moment, i: nat) {
    && i < |cs|
    && Eligible(cs[i], p, rel, moment)
    && (forall j | 0 <= j < |cs| && Eligible(cs[j], p, rel, moment) ::
          Priority(cs[j].rule.mode) <= Priority(cs[i].rule.mode))
    && (forall j | 0 <= j < i && Eligible(cs[j], p, rel, moment) ::
          Priority(cs[j].rule.mode) < Priority(cs[i].rule.mode))
  }

  function Best(cs: seq<Candidate>, p: Prefs, rel: Release, moment: Moment): (r: Option<nat>)
    ensures r.Some? ==> IsLeftmostBest(cs, p, rel, moment, r.value)
    ensures r.None? ==> forall j | 0 <= j < |cs| :: !Eligible(cs[j], p, rel, moment)
  {
    if cs == [] then None
    else
      var k := |cs| - 1;
      var b := Best(cs[..k], p, rel, moment);
      assert forall j | 0 <= j < k :: cs[..k][j] == cs[j];
      if Eligible(cs[k], p, rel, moment)
         && (b.None? || Priority(cs[k].rule.mode) > Priority(cs[b.value].rule.mode))
      then Some(k) else b
  }

  /** There is only one leftmost best position, so selection does not depend on how it is searched for. */
  lemma LeftmostBestIsUnique(cs: seq<Candidate>, p: Prefs, rel: Release, moment: Moment, i: nat)
    requires IsLeftmostBest(cs, p, rel, moment, i)
    ensures Best(cs, p, rel, moment) == Some(i)
  {
    assert Best(cs, p, rel, moment).Some?;
  }

  method SelectGoverningCandidate(cs: seq<Candidate>, p: Prefs, rel: Release, moment: Moment)
    returns (selected: Option<nat>)
    ensures selected == Best(cs, p, rel, moment)
    ensures selected.Some? ==> IsLeftmostBest(cs, p, rel, moment, selected.value)
    ensures selected.None? <==> forall c | c in cs :: !Eligible(c, p, rel, moment)
  {
    selected := None;
    var selectedPriority: int := -1;
    for index := 0 to |cs|
      invariant selected.None? ==> forall j | 0 <= j < index :: !Eligible(cs[j], p, rel, moment)
      invariant selected.Some? ==> IsLeftmostBest(cs[..index], p, rel, moment, selected.value)
      invariant selected.Some? ==> selectedPriority == Priority(cs[selected.value].rule.mode)
    {
      if Eligible(cs[index], p, rel, moment) {
        var priority := Priority(cs[index].rule.mode);
        if selected.None? || priority > selectedPriority {
          selected, selectedPriority := Some(index), priority;
        }
      }
    }
    assert cs[..|cs|] == cs;
    if selected.Some? {
      LeftmostBestIsUnique(cs, p, rel, moment, selected.value);
    }
  }

  // ---- the governing follow of an event

  function Governor(p: Policy, user: Id, release: Id, moment: Moment): (r: Option<Candidate>)
  {
    if release !in p.releases then None
    else
      var rel := p.releases[release];
      if !TypeEnabled(PrefsOf(p, user), rel) then None
      else
        var cs := Candidates(p, user, rel, AdmissionOrder(rel));
        var b := Best(cs, PrefsOf(p, user), rel, moment);
        if b.None? then None else Some(cs[b.value])
  }

  function GovernorOf(p: Policy, e: Event): Option<Candidate> {
    Governor(p, e.user, e.release, e.moment)
  }

  /** The instant until which the governing follow of event `eid` defers its deliveries, if it does. */
  function DeferredUntil(p: Policy, events: map<Id, Event>, eid: Id, at: Time): Option<Time> {
    if eid !in events then None
    else match GovernorOf(p, events[eid])
      case None => None
      case Some(c) => ResumesAt(c.rule, at)
  }

  /** A follow of `user` that admission would consider for the release. */
  predicate Contends(p: Policy, user: Id, rel: Release, moment: Moment, a: Id) {
    && (user, a) in p.follows && Associated(rel, a)
    && Eligible(Candidate(a, RuleOf(p, user, a), RoleOf(rel, a)), PrefsOf(p, user), rel, moment)
  }

  /** `c` beats the follow of `a` in the ranking. */
  predicate Outranks(p: Policy, user: Id, rel: Release, c: Candidate, a: Id) {
    var other := Priority(RuleOf(p, user, a).mode);
    other < Priority(c.rule.mode) || (other == Priority(c.rule.mode) && Before(rel, c.artist, a))
  }

  lemma ContenderIsCandidate(p: Policy, user: Id, rel: Release, moment: Moment, a: Id) returns (j: nat)
    requires Contends(p, user, rel, moment, a)
    ensures var cs := Candidates(p, user, rel, AdmissionOrder(rel));
            j < |cs| && cs[j] == Candidate(a, RuleOf(p, user, a), RoleOf(rel, a))
  {
    var cs := Candidates(p, user, rel, AdmissionOrder(rel));
    var x := Candidate(a, RuleOf(p, user, a), RoleOf(rel, a));
    assert a in AdmissionOrder(rel);
    assert x in cs;
    j :| 0 <= j < |cs| && cs[j] == x;
  }

  lemma BestOutranks(p: Policy, user: Id, rel: Release, moment: Moment, b: nat, a: Id)
    requires Best(Candidates(p, user, rel, AdmissionOrder(rel)), PrefsOf(p, user), rel, moment) == Some(b)
    requires Contends(p, user, rel, moment, a)
    ensures var c := Candidates(p, user, rel, AdmissionOrder(rel))[b];
            a == c.artist || Outranks(p, user, rel, c, a)
  {
    var cs := Candidates(p, user, rel, AdmissionOrder(rel));
    var j := ContenderIsCandidate(p, user, rel, moment, a);
    assert Eligible(cs[j], PrefsOf(p, user), rel, moment);
    assert Priority(cs[j].rule.mode) <= Priority(cs[b].rule.mode);
    if j < b {
      assert Priority(cs[j].rule.mode) < Priority(cs[b].rule.mode);
    } else if b < j {
      AdmissionOrderIsOrdered(rel);
      CandidatesKeepOrder(p, user, rel, AdmissionOrder(rel));
    }
  }

  /**
   Whoever governs contends, and wins: no contender has a higher configured mode, and among equals the
   canonical artist comes first and then the smallest id. Without a governor the release type is off or
   nobody contends. The clock plays no part.
   */
  lemma GovernorWins(p: Policy, user: Id, release: Id, moment: Moment)
    requires release in p.releases
    ensures var rel := p.releases[release];
            match Governor(p, user, release, moment)
            case Some(c) =>
              && Contends(p, user, rel, moment, c.artist)
              && c.rule == RuleOf(p, user, c.artist) && c.role == RoleOf(rel, c.artist)
              && (forall a | Contends(p, user, rel, moment, a) ::
                    a == c.artist || Outranks(p, user, rel, c, a))
            case None =>
              !TypeEnabled(PrefsOf(p, user), rel) || forall a :: !Contends(p, user, rel, moment, a)
  {
    var rel := p.releases[release];
    var cs := Candidates(p, user, rel, AdmissionOrder(rel));
    var b := Best(cs, PrefsOf(p, user), rel, moment);
    if b.Some? {
      assert cs[b.value] in cs;
      assert cs[b.value].artist in AdmissionOrder(rel);
      forall a | Contends(p, user, rel, moment, a)
        ensures a == cs[b.value].artist || Outranks(p, user, rel, cs[b.value], a)
      {
        BestOutranks(p, user, rel, moment, b.value, a);
      }
    } else {
      forall a
        ensures !Contends(p, user, rel, moment, a)
      {
        if Contends(p, user, rel, moment, a) {
          var j := ContenderIsCandidate(p, user, rel, moment, a);
        }
      }
    }
  }

  predicate Delivers(m: Mode) {
    m.Inherit? || m.Immediate?
  }

  /**
   A follow that delivers immediately, paused or not, is never overruled by a digest-only or disabled one, nor a
   digest-only follow by a disabled one.
   */
  lemma GovernorPrefersDelivery(p: Policy, user: Id, release: Id, moment: Moment, a: Id)
    requires release in p.releases && TypeEnabled(PrefsOf(p, user), p.releases[release])
    requires Contends(p, user, p.releases[release], moment, a)
    ensures var g := Governor(p, user, release, moment);
            && g.Some?
            && (Delivers(RuleOf(p, user, a).mode) ==> Delivers(g.value.rule.mode))
            && (RuleOf(p, user, a).mode.Digest? ==> !g.value.rule.mode.Off?)
  {
    GovernorWins(p, user, release, moment);
  }

  /** A deferral can only end as time passes, and keeps its end while it lasts. */
  lemma DeferralOnlyEnds(p: Policy, events: map<Id, Event>, eid: Id, earlier: Time, later: Time)
    requires earlier <= later
    ensures DeferredUntil(p, events, eid, later).Some? ==>
              DeferredUntil(p, events, eid, earlier) == DeferredUntil(p, events, eid, later)
              && later < DeferredUntil(p, events, eid, later).value
    ensures DeferredUntil(p, events, eid, earlier).Some? && DeferredUntil(p, events, eid, later).None? ==>
              DeferredUntil(p, events, eid, earlier).value <= later
  {
  }

  // ---- locality

  /** The two policies may differ only in what `user` follows, and how, among `artists`. */
  ghost predicate DiffersOnlyAt(p: Policy, p': Policy, user: Id, artists: set<Id>) {
    && p'.releases == p.releases && p'.prefs == p.prefs
    && (forall u, a | !(u == user && a in artists) :: (u, a) in p.follows <==> (u, a) in p'.follows)
    && (forall u, a | !(u == user && a in artists) :: RuleOf(p, u, a) == RuleOf(p', u, a))
  }

  lemma {:induction false} CandidatesLocal(p: Policy, p': Policy, user: Id, rel: Release, artists: seq<Id>)
    requires forall a | a in artists :: (user, a) in p.follows <==> (user, a) in p'.follows
    requires forall a | a in artists :: RuleOf(p, user, a) == RuleOf(p', user, a)
    ensures Candidates(p, user, rel, artists) == Candidates(p', user, rel, artists)
  {
    if artists != [] {
      assert artists == [artists[0]] + artists[1..];
      CandidatesLocal(p, p', user, rel, artists[1..]);
    }
  }

  predicate Correlated(p: Policy, e: Event, user: Id, artists: set<Id>) {
    e.user == user && e.release in p.releases
    && exists a | a in artists :: Associated(p.releases[e.release], a)
  }

  /** Changing follows or rules of one member for some artists leaves the governor of every other event alone. */
  lemma GovernorIsLocal(p: Policy, p': Policy, user: Id, artists: set<Id>, e: Event)
    requires DiffersOnlyAt(p, p', user, artists)
    requires !Correlated(p, e, user, artists)
    ensures GovernorOf(p, e) == GovernorOf(p', e)
  {
    if e.release in p.releases {
      var rel := p.releases[e.release];
      forall a | a in AdmissionOrder(rel)
        ensures !(e.user == user && a in artists)
      {
        assert Associated(rel, a);
      }
      CandidatesLocal(p, p', e.user, rel, AdmissionOrder(rel));
    }
  }
}
