/** Which follow an event is admitted under, and what its columns must say, without the ranking that finds it. */
module Eligibility {
  import opened Prelude
  import opened Tables
  import opened Governing

  // ---- the columns, with their defaults

  /** The rule row of a follow; a follow without one inherits everything and filters nothing. */
  function RuleRow(p: Policy, user: Id, artist: Id): Rule {
    if (user, artist) in p.rules then p.rules[(user, artist)]
    else Rule(Inherit, true, true, true, true, true, true, true, true, None)
  }

  /** The preference row of a member; without one everything is on, and nothing is held for review. */
  function PrefsRow(p: Policy, user: Id): Prefs {
    if user in p.prefs then p.prefs[user] else Prefs(true, true, true, true, true, false)
  }

  lemma RowsAreRead(p: Policy, user: Id, artist: Id)
    ensures RuleOf(p, user, artist) == RuleRow(p, user, artist) && PrefsOf(p, user) == PrefsRow(p, user)
  {
  }

  // ---- the filters

  /** Featured and guest credits are appearances alike; a primary credit of the same artist overrides them. */
  predicate Appears(rel: Release, artist: Id) {
    && Credit(artist, Primary) !in rel.credits
    && (|| Credit(artist, Featured) in rel.credits || Credit(artist, Guest) in rel.credits
        || (artist == rel.artist && (rel.role == Some(Featured) || rel.role == Some(Guest))))
  }

  /** A compilation is one by either type; its primary type then plays no part. */
  predicate Compiled(rel: Release) {
    rel.kind == CompilationType || rel.compilation
  }

  predicate TakesType(compilations: bool, albums: bool, eps: bool, singles: bool, rel: Release) {
    && (Compiled(rel) ==> compilations)
    && (!Compiled(rel) && rel.kind == Album ==> albums)
    && (!Compiled(rel) && rel.kind == EP ==> eps)
    && (!Compiled(rel) && rel.kind == Single ==> singles)
  }

  predicate IsListed(rel: Release, artist: Id) {
    artist == rel.artist || exists role :: Credit(artist, role) in rel.credits
  }

  /** The follow exists, concerns the release, and every filter that applies to it lets the event through. */
  predicate Accepts(p: Policy, user: Id, rel: Release, moment: Moment, artist: Id) {
    var rule, prefs := RuleRow(p, user, artist), PrefsRow(p, user);
    && (user, artist) in p.follows && IsListed(rel, artist)
    && (Appears(rel, artist) ==> rule.includeFeatured) && (!Appears(rel, artist) ==> rule.includePrimary)
    && TakesType(rule.compilations, rule.albums, rule.eps, rule.singles, rel)
    && (moment == Announcement ==> rule.announcements && (rule.mode == Inherit ==> prefs.announcements))
    && (moment == ReleaseDay ==> rule.releaseDay && (rule.mode == Inherit ==> prefs.releaseDay))
  }

  /** The account filters types too, but never compilations. */
  predicate AccountTakes(p: Policy, user: Id, rel: Release) {
    var prefs := PrefsRow(p, user);
    TakesType(true, prefs.albums, prefs.eps, prefs.singles, rel)
  }

  // ---- the ranking

  datatype Class = Delivering | Collecting | Silent

  function ClassOf(m: Mode): Class {
    match m
    case Inherit => Delivering
    case Immediate => Delivering
    case Digest => Collecting
    case Off => Silent
  }

  /** Immediate follows come before digests, digests before disabled ones; then the canonical artist, then by id. */
  predicate Beats(p: Policy, user: Id, rel: Release, a: Id, b: Id) {
    var m, n := ClassOf(RuleRow(p, user, a).mode), ClassOf(RuleRow(p, user, b).mode);
    || (m == Delivering && n != Delivering) || (m == Collecting && n == Silent)
    || (m == n && a == rel.artist && b != rel.artist)
    || (m == n && a != rel.artist && b != rel.artist && a < b)
  }

  /** The follow of this artist governs: it accepts the event and beats every other follow that does. */
  ghost predicate Governs(p: Policy, user: Id, release: Id, moment: Moment, artist: Id) {
    && release in p.releases
    && var rel := p.releases[release];
       && AccountTakes(p, user, rel) && Accepts(p, user, rel, moment, artist)
       && forall b | Accepts(p, user, rel, moment, b) && b != artist :: Beats(p, user, rel, artist, b)
  }

  // ---- what is chosen

  lemma RoleIsAppearance(rel: Release, artist: Id)
    ensures RoleOf(rel, artist).Primary? <==> !Appears(rel, artist)
  {
    assert forall role :: HasRole(rel, artist, role) <==> Credit(artist, role) in rel.credits;
  }

  lemma ListedIsAssociated(rel: Release, artist: Id)
    ensures Associated(rel, artist) <==> IsListed(rel, artist)
  {
    if c :| c in rel.credits && c.artist == artist {
      assert Credit(artist, c.role) in rel.credits;
    }
  }

  lemma ContendsIff(p: Policy, user: Id, rel: Release, moment: Moment, artist: Id)
    ensures Contends(p, user, rel, moment, artist) <==> Accepts(p, user, rel, moment, artist)
  {
    RoleIsAppearance(rel, artist);
    ListedIsAssociated(rel, artist);
    RowsAreRead(p, user, artist);
  }

  lemma BeatsIff(p: Policy, user: Id, rel: Release, c: Candidate, b: Id)
    requires c.rule == RuleOf(p, user, c.artist) && c.artist != b
    ensures Outranks(p, user, rel, c, b) <==> Beats(p, user, rel, c.artist, b)
  {
    RowsAreRead(p, user, c.artist);
    RowsAreRead(p, user, b);
  }

  lemma BeatingIsOneWay(p: Policy, user: Id, rel: Release, a: Id, b: Id)
    ensures !(Beats(p, user, rel, a, b) && Beats(p, user, rel, b, a))
  {
  }

  lemma TypeIff(p: Policy, user: Id, rel: Release)
    ensures TypeEnabled(PrefsOf(p, user), rel) <==> AccountTakes(p, user, rel)
  {
    RowsAreRead(p, user, 0);
  }

  lemma GovernorGoverns(p: Policy, user: Id, release: Id, moment: Moment)
    requires Governor(p, user, release, moment).Some?
    ensures var c := Governor(p, user, release, moment).value;
            Governs(p, user, release, moment, c.artist) && c.rule == RuleRow(p, user, c.artist)
  {
    var rel := p.releases[release];
    var c := Governor(p, user, release, moment).value;
    GovernorWins(p, user, release, moment);
    TypeIff(p, user, rel);
    ContendsIff(p, user, rel, moment, c.artist);
    RowsAreRead(p, user, c.artist);
    forall b | Accepts(p, user, rel, moment, b) && b != c.artist
      ensures Beats(p, user, rel, c.artist, b)
    {
      ContendsIff(p, user, rel, moment, b);
      BeatsIff(p, user, rel, c, b);
    }
  }

  /**
   A follow is chosen exactly when it governs: it includes the role it has on the release, takes the type and the
   moment, the account does too where it has a say, and every other such follow comes behind it.
   */
  lemma ChosenIff(p: Policy, user: Id, release: Id, moment: Moment, artist: Id)
    ensures Governor(p, user, release, moment).Some? && Governor(p, user, release, moment).value.artist == artist
       <==> Governs(p, user, release, moment, artist)
  {
    if Governor(p, user, release, moment).Some? {
      var c := Governor(p, user, release, moment).value;
      GovernorGoverns(p, user, release, moment);
      if Governs(p, user, release, moment, artist) && artist != c.artist {
        BeatingIsOneWay(p, user, p.releases[release], artist, c.artist);
      }
    } else if Governs(p, user, release, moment, artist) {
      var rel := p.releases[release];
      GovernorWins(p, user, release, moment);
      TypeIff(p, user, rel);
      ContendsIff(p, user, rel, moment, artist);
      assert false;
    }
  }

  /** Some follow governs as soon as one accepts the event and the account takes the type. */
  lemma AcceptedIsGoverned(p: Policy, user: Id, release: Id, moment: Moment)
    requires release in p.releases && AccountTakes(p, user, p.releases[release])
    ensures Governor(p, user, release, moment).Some?
       <==> exists artist :: Accepts(p, user, p.releases[release], moment, artist)
  {
    var rel := p.releases[release];
    GovernorWins(p, user, release, moment);
    TypeIff(p, user, rel);
    if Governor(p, user, release, moment).Some? {
      GovernorGoverns(p, user, release, moment);
    }
    if artist :| Accepts(p, user, rel, moment, artist) {
      ContendsIff(p, user, rel, moment, artist);
    }
  }

  // ---- deferral

  predicate IsDeferring(rule: Rule, at: Time, until: Time) {
    (rule.mode == Inherit || rule.mode == Immediate) && rule.pausedUntil == Some(until) && at < until
  }

  /** A follow that would deliver at once defers while it is paused, to the end of the pause; no other follow does. */
  lemma DefersIff(p: Policy, events: map<Id, Event>, eid: Id, artist: Id, at: Time, until: Time)
    requires eid in events && Governs(p, events[eid].user, events[eid].release, events[eid].moment, artist)
    ensures DeferredUntil(p, events, eid, at) == Some(until)
       <==> IsDeferring(RuleRow(p, events[eid].user, artist), at, until)
  {
    ChosenIff(p, events[eid].user, events[eid].release, events[eid].moment, artist);
    GovernorGoverns(p, events[eid].user, events[eid].release, events[eid].moment);
  }

  /** Without a governing follow nothing defers. */
  lemma UngovernedIsNotDeferred(p: Policy, events: map<Id, Event>, eid: Id, at: Time)
    requires eid in events ==>
               forall artist :: !Governs(p, events[eid].user, events[eid].release, events[eid].moment, artist)
    ensures DeferredUntil(p, events, eid, at) == None
  {
    if eid in events && GovernorOf(p, events[eid]).Some? {
      GovernorGoverns(p, events[eid].user, events[eid].release, events[eid].moment);
    }
  }
}
