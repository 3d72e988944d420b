/** The synchronisation pass: the oldest due artists, one after the other. */
module CatalogSync {
  import opened Prelude
  import opened Tables
  import opened CatalogScheduling
  import opened Ranking

  const BATCH_SIZE: nat := 25

  function DueArtists(artists: map<Id, Artist>, followed: set<Id>, now: Time): set<Id> {
    set id | id in artists && id in followed && ArtistDue(artists[id], now)
  }

  // ---- the order of the backlog

  function KeyOf(a: Artist): Option<Time> {
    if a.nextCheck.None? then a.spotifyNext
    else if a.spotifyNext.None? then a.nextCheck
    else Some(Min(a.nextCheck.value, a.spotifyNext.value))
  }

  /** Artists that were never checked come first. */
  predicate Older(artists: map<Id, Artist>, x: Id, y: Id) {
    x in artists && y in artists
    && var k, l := KeyOf(artists[x]), KeyOf(artists[y]);
       if k == l then x < y else k.None? || (l.Some? && k.value < l.value)
  }

  function BacklogOrder(artists: map<Id, Artist>): (Id, Id) -> bool {
    (x, y) => Older(artists, x, y)
  }

  function Batch(artists: map<Id, Artist>, followed: set<Id>, now: Time): set<Id> {
    First(DueArtists(artists, followed, now), BacklogOrder(artists), BATCH_SIZE)
  }

  lemma BacklogOrderIsStrict(artists: map<Id, Artist>, ids: set<Id>)
    requires ids <= artists.Keys
    ensures Strict(ids, BacklogOrder(artists))
  {
  }

  /** A batch holds 25 artists, or every due one, and nobody left out is older than anyone in it. */
  lemma BatchIsOldest(artists: map<Id, Artist>, followed: set<Id>, now: Time)
    ensures var due, batch := DueArtists(artists, followed, now), Batch(artists, followed, now);
            && batch <= due && |batch| == Min(BATCH_SIZE, |due|)
            && forall x, y | x in batch && y in due && y !in batch :: Older(artists, x, y)
  {
    var due, batch := DueArtists(artists, followed, now), Batch(artists, followed, now);
    BacklogOrderIsStrict(artists, due);
    FirstCount(due, BacklogOrder(artists), BATCH_SIZE);
    forall x, y | x in batch && y in due && y !in batch
      ensures Older(artists, x, y)
    {
      FirstPrecedes(due, BacklogOrder(artists), BATCH_SIZE, x, y);
    }
  }

  /** The earlier of an artist's two schedules, where they are set; a missing one does not count. */
  function Earliest(a: Artist): Time
    requires a.nextCheck.Some? || a.spotifyNext.Some?
  {
    if a.nextCheck.Some? && a.spotifyNext.Some? then
      if a.nextCheck.value < a.spotifyNext.value then a.nextCheck.value else a.spotifyNext.value
    else if a.nextCheck.Some? then a.nextCheck.value else a.spotifyNext.value
  }

  predicate WasScheduled(a: Artist) {
    a.nextCheck != None || a.spotifyNext != None
  }

  /** Who is left out of a batch has waited no longer than anyone in it; never scheduled comes first, then lower ids. */
  lemma LongestWaitingFirst(artists: map<Id, Artist>, followed: set<Id>, now: Time, x: Id, y: Id)
    requires x in Batch(artists, followed, now)
    requires y in artists && y in followed && ArtistDue(artists[y], now) && y !in Batch(artists, followed, now)
    ensures x in artists && x in followed && ArtistDue(artists[x], now)
    ensures |Batch(artists, followed, now)| == 25
    ensures var a, b := artists[x], artists[y];
            if WasScheduled(a)
            then WasScheduled(b) && (Earliest(a) < Earliest(b) || (Earliest(a) == Earliest(b) && x < y))
            else WasScheduled(b) || x < y
  {
    var due, batch := DueArtists(artists, followed, now), Batch(artists, followed, now);
    BatchIsOldest(artists, followed, now);
    assert y in due && Older(artists, x, y);
    SubsetCardinality(batch + {y}, due);
  }

  // ---- what a pass takes off the backlog

  /** Members of the batch that are due after the pass as before. */
  function Stuck(artists': map<Id, Artist>, batch: set<Id>, now: Time): set<Id> {
    set id | id in batch && id in artists' && ArtistDue(artists'[id], now)
  }

  /** A pass leaves everyone outside its batch alone. */
  ghost predicate PassDone(artists: map<Id, Artist>, artists': map<Id, Artist>, batch: set<Id>, now: Time) {
    artists'.Keys == artists.Keys && forall id | id in artists && id !in batch :: artists'[id] == artists[id]
  }

  /** It takes exactly those members of the batch off the backlog that are not stuck. */
  lemma PassShrinksBacklog(artists: map<Id, Artist>, artists': map<Id, Artist>, followed: set<Id>, now: Time)
    requires PassDone(artists, artists', Batch(artists, followed, now), now)
    ensures var due, due' := DueArtists(artists, followed, now), DueArtists(artists', followed, now);
            var batch := Batch(artists, followed, now);
            var stuck := Stuck(artists', batch, now);
            && due' == due - (batch - stuck)
            && |due'| == |due| - Min(BATCH_SIZE, |due|) + |stuck| && |stuck| <= Min(BATCH_SIZE, |due|)
  {
    var due, batch := DueArtists(artists, followed, now), Batch(artists, followed, now);
    var stuck := Stuck(artists', batch, now);
    BatchIsOldest(artists, followed, now);
    forall id: Id
      ensures id in DueArtists(artists', followed, now) <==> id in due - (batch - stuck)
    {
    }
    assert DueArtists(artists', followed, now) == due - (batch - stuck);
    assert due == (batch - stuck) + (due - (batch - stuck));
    assert batch == stuck + (batch - stuck);
  }

  /** As many passes as it takes, all at one instant, each leaving at most `m` members of its batch stuck. */
  ghost predicate Passes(states: seq<map<Id, Artist>>, followed: set<Id>, now: Time, m: nat) {
    forall i | 0 < i < |states| :: OnePass(states[i - 1], states[i], followed, now, m)
  }

  ghost predicate OnePass(artists: map<Id, Artist>, artists': map<Id, Artist>, followed: set<Id>, now: Time, m: nat) {
    && PassDone(artists, artists', Batch(artists, followed, now), now)
    && |Stuck(artists', Batch(artists, followed, now), now)| <= m
  }

  /**
   Passes drain the backlog by 25 each, less what is stuck, down to what is stuck. When nothing ever is, `size - 25 n`
   artists, or none, are still due after `n` passes.
   */
  lemma {:induction false} PassesDrain(states: seq<map<Id, Artist>>, followed: set<Id>, now: Time, m: nat)
    requires states != [] && Passes(states, followed, now, m) && m < BATCH_SIZE
    ensures var before, after := |DueArtists(states[0], followed, now)|,
                                 |DueArtists(states[|states| - 1], followed, now)|;
            Max(0, before - BATCH_SIZE * (|states| - 1)) <= after <= Max(m, before - (BATCH_SIZE - m) * (|states| - 1))
    decreases |states|
  {
    var n := |states| - 1;
    if n > 0 {
      assert states[..n][n - 1] == states[n - 1] && states[..n][0] == states[0];
      assert Passes(states[..n], followed, now, m);
      PassesDrain(states[..n], followed, now, m);
      assert OnePass(states[n - 1], states[n], followed, now, m);
      PassShrinksBacklog(states[n - 1], states[n], followed, now);
      OneMorePass(|DueArtists(states[0], followed, now)|, |DueArtists(states[n - 1], followed, now)|,
        |DueArtists(states[n], followed, now)|, m, n);
    }
  }

  lemma OneMorePass(first: nat, before: nat, after: nat, m: nat, n: nat)
    requires m < BATCH_SIZE && n > 0
    requires Max(0, first - BATCH_SIZE * (n - 1)) <= before <= Max(m, first - (BATCH_SIZE - m) * (n - 1))
    requires before - Min(BATCH_SIZE, before) <= after <= before - Min(BATCH_SIZE, before) + m
    ensures Max(0, first - BATCH_SIZE * n) <= after <= Max(m, first - (BATCH_SIZE - m) * n)
  {
    assert (BATCH_SIZE - m) * n == (BATCH_SIZE - m) * (n - 1) + (BATCH_SIZE - m);
  }

  // ---- a pass, turn by turn

  /** What the environment decides about one artist. */
  datatype Fate = Fate(known: bool, answers: Answers, writes: Writes)

  datatype Catalogue = Catalogue(artists: map<Id, Artist>, cooldowns: Cooldowns)

  predicate Known(artists: map<Id, Artist>, order: seq<Id>) {
    forall k | 0 <= k < |order| :: order[k] in artists
  }

  /** Synchronises the artists one after the other; each turn starts from the cooldowns the previous ones left. */
  function Pass(c: Config, cat: Catalogue, now: Time, order: seq<Id>, fates: Id -> Fate): (r: Catalogue)
    requires Known(cat.artists, order)
    ensures r.artists.Keys == cat.artists.Keys
  {
    if order == [] then cat
    else
      var id, before := order[|order| - 1], Pass(c, cat, now, order[..|order| - 1], fates);
      var f := fates(id);
      var r := SyncOne(c, before.artists[id], before.cooldowns, now, f.known, f.answers, f.writes);
      Catalogue(before.artists[id := r.artist], r.cooldowns)
  }

  lemma {:induction false} PassSparesOthers(
      c: Config, cat: Catalogue, now: Time, order: seq<Id>, fates: Id -> Fate, id: Id)
    requires Known(cat.artists, order) && id in cat.artists && id !in order
    ensures Pass(c, cat, now, order, fates).artists[id] == cat.artists[id]
  {
    if order != [] {
      PassSparesOthers(c, cat, now, order[..|order| - 1], fates, id);
    }
  }

  predicate Distinct(order: seq<Id>) {
    forall i, j | 0 <= i < j < |order| :: order[i] != order[j]
  }

  /** What is on record when the turn of the `k`-th artist comes. */
  function TurnOf(c: Config, cat: Catalogue, now: Time, order: seq<Id>, fates: Id -> Fate, k: nat): Catalogue
    requires k <= |order| && Known(cat.artists, order)
  {
    Pass(c, cat, now, order[..k], fates)
  }

  function AfterTurn(c: Config, a: Artist, cd: Cooldowns, now: Time, f: Fate): Artist {
    SyncOne(c, a, cd, now, f.known, f.answers, f.writes).artist
  }

  /** The pass leaves of an artist what its turn leaves of it. */
  lemma {:induction false} TurnDecides(
      c: Config, cat: Catalogue, now: Time, order: seq<Id>, fates: Id -> Fate, k: nat)
    requires k < |order| && Distinct(order) && Known(cat.artists, order)
    ensures Pass(c, cat, now, order, fates).artists[order[k]]
         == AfterTurn(c, cat.artists[order[k]], TurnOf(c, cat, now, order, fates, k).cooldowns, now, fates(order[k]))
  {
    var n := |order| - 1;
    if k == n {
      PassSparesOthers(c, cat, now, order[..n], fates, order[n]);
    } else {
      assert order[..n][..k] == order[..k];
      TurnDecides(c, cat, now, order[..n], fates, k);
    }
  }

  /** The identity check of the `k`-th artist comes to nothing. */
  predicate FallsShortAt(c: Config, cat: Catalogue, now: Time, order: seq<Id>, fates: Id -> Fate, k: int)
    requires Known(cat.artists, order)
  {
    0 <= k < |order| &&
    FallsShort(cat.artists[order[k]], TurnOf(c, cat, now, order, fates, k).cooldowns, now,
               fates(order[k]).answers, fates(order[k]).writes)
  }

  function FallingShort(c: Config, cat: Catalogue, now: Time, order: seq<Id>, fates: Id -> Fate): set<Id>
    requires Known(cat.artists, order)
  {
    set k | 0 <= k < |order| && FallsShortAt(c, cat, now, order, fates, k) :: order[k]
  }

  /** The order is that of the backlog, cut off after 25 artists. */
  ghost predicate IsBatchOrder(artists: map<Id, Artist>, followed: set<Id>, now: Time, order: seq<Id>) {
    InOrder(order, Batch(artists, followed, now), BacklogOrder(artists))
  }

  lemma BatchOrderIsDistinct(artists: map<Id, Artist>, followed: set<Id>, now: Time, order: seq<Id>)
    requires IsBatchOrder(artists, followed, now, order)
    ensures Distinct(order)
    ensures forall k | 0 <= k < |order| ::
              order[k] in Batch(artists, followed, now) && order[k] in artists && ArtistDue(artists[order[k]], now)
  {
    BatchIsOldest(artists, followed, now);
    forall i, j | 0 <= i < j < |order|
      ensures order[i] != order[j]
    {
      assert BacklogOrder(artists)(order[i], order[j]);
    }
    assert forall k | 0 <= k < |order| :: order[k] in order;
  }

  /**
   The exact effect of a pass: with the retry write working, it leaves everyone outside the batch alone, and the
   members of the batch that stay due are exactly those whose identity check comes to nothing in their turn.
   */
  lemma PassLeaves(c: Config, cat: Catalogue, followed: set<Id>, now: Time, order: seq<Id>, fates: Id -> Fate)
    requires Positive(c) && IsBatchOrder(cat.artists, followed, now, order)
    requires forall k | 0 <= k < |order| :: fates(order[k]).writes.retry
    ensures Known(cat.artists, order)
    ensures var artists' := Pass(c, cat, now, order, fates).artists;
            var batch := Batch(cat.artists, followed, now);
            && PassDone(cat.artists, artists', batch, now)
            && Stuck(artists', batch, now) == FallingShort(c, cat, now, order, fates)
  {
    BatchOrderIsDistinct(cat.artists, followed, now, order);
    var artists' := Pass(c, cat, now, order, fates).artists;
    var batch := Batch(cat.artists, followed, now);
    forall id | id in cat.artists && id !in batch
      ensures artists'[id] == cat.artists[id]
    {
      PassSparesOthers(c, cat, now, order, fates, id);
    }
    forall k | 0 <= k < |order|
      ensures ArtistDue(artists'[order[k]], now) <==> FallsShortAt(c, cat, now, order, fates, k)
    {
      TurnStuckIff(c, cat, now, order, fates, k);
    }
    forall id
      ensures id in Stuck(artists', batch, now) <==> id in FallingShort(c, cat, now, order, fates)
    {
      if id in batch {
        assert id in order;
        var k :| 0 <= k < |order| && order[k] == id;
      }
    }
  }

  lemma TurnStuckIff(c: Config, cat: Catalogue, now: Time, order: seq<Id>, fates: Id -> Fate, k: nat)
    requires Positive(c) && k < |order| && Distinct(order) && Known(cat.artists, order)
    requires fates(order[k]).writes.retry && ArtistDue(cat.artists[order[k]], now)
    ensures ArtistDue(Pass(c, cat, now, order, fates).artists[order[k]], now)
       <==> FallsShortAt(c, cat, now, order, fates, k)
  {
    var f := fates(order[k]);
    TurnDecides(c, cat, now, order, fates, k);
    StaysDueIff(c, cat.artists[order[k]], TurnOf(c, cat, now, order, fates, k).cooldowns, now, f.known, f.answers,
      f.writes);
  }

  // ---- lookups that hang

  lemma {:induction false} CooldownLastsThePass(
      c: Config, cat: Catalogue, now: Time, order: seq<Id>, fates: Id -> Fate)
    requires Known(cat.artists, order) && Active(cat.cooldowns.musicBrainz, now).Some?
    ensures Pass(c, cat, now, order, fates).cooldowns.musicBrainz == cat.cooldowns.musicBrainz
  {
    if order != [] {
      var id := order[|order| - 1];
      var before := Pass(c, cat, now, order[..|order| - 1], fates);
      CooldownLastsThePass(c, cat, now, order[..|order| - 1], fates);
      CooldownLasts(c, before.artists[id], before.cooldowns, now, fates(id).known, fates(id).answers, fates(id).writes);
    }
  }

  /** While MusicBrainz is cooling down a pass takes its whole batch off the backlog. */
  lemma CooldownProtects(c: Config, cat: Catalogue, now: Time, order: seq<Id>, fates: Id -> Fate)
    requires Known(cat.artists, order) && Active(cat.cooldowns.musicBrainz, now).Some?
    requires forall k | 0 <= k < |order| :: fates(order[k]).writes.identity
    ensures FallingShort(c, cat, now, order, fates) == {}
  {
    forall k | 0 <= k < |order|
      ensures !FallsShortAt(c, cat, now, order, fates, k)
    {
      var a, cd := cat.artists[order[k]], TurnOf(c, cat, now, order, fates, k).cooldowns;
      var f := fates(order[k]);
      CooldownLastsThePass(c, cat, now, order[..k], fates);
      assert cd.musicBrainz == cat.cooldowns.musicBrainz;
      CooldownLasts(c, a, cd, now, f.known, f.answers, f.writes);
    }
  }

  /** All these artists await their identity, and every lookup times out. */
  ghost predicate Hanging(artists: map<Id, Artist>, ids: set<Id>, fates: Id -> Fate) {
    forall id | id in ids :: id in artists && AwaitsIdentity(artists[id]) && fates(id).answers.identity.TimedOut?
  }

  lemma {:induction false} HangingPassIsIdle(
      c: Config, cat: Catalogue, ids: set<Id>, now: Time, order: seq<Id>, fates: Id -> Fate)
    requires Hanging(cat.artists, ids, fates) && Active(cat.cooldowns.musicBrainz, now).None?
    requires forall k | 0 <= k < |order| :: order[k] in ids
    ensures Known(cat.artists, order) && Pass(c, cat, now, order, fates) == cat
  {
    if order != [] {
      var id, f := order[|order| - 1], fates(order[|order| - 1]);
      HangingPassIsIdle(c, cat, ids, now, order[..|order| - 1], fates);
      AskingInVainChangesNothing(c, cat.artists[id], cat.cooldowns, now, f.known, f.answers, f.writes);
      assert cat.artists[id := cat.artists[id]] == cat.artists;
    }
  }

  /** Whoever is not due yet stands behind these artists. */
  ghost predicate OthersComeLater(artists: map<Id, Artist>, followed: set<Id>, now: Time, ids: set<Id>) {
    forall x, y | x in ids && y in artists && y in followed && !Terminal(artists[y]) && !ArtistDue(artists[y], now) ::
      Older(artists, x, y)
  }

  lemma DueStayOldest(artists: map<Id, Artist>, followed: set<Id>, now: Time, later: Time)
    requires now <= later && OthersComeLater(artists, followed, now, Batch(artists, followed, now))
    requires |Batch(artists, followed, now)| == BATCH_SIZE
    ensures Batch(artists, followed, later) == Batch(artists, followed, now)
  {
    var batch, due' := Batch(artists, followed, now), DueArtists(artists, followed, later);
    BatchIsOldest(artists, followed, now);
    BacklogOrderIsStrict(artists, due');
    forall x, y | x in batch && y in due' && y !in batch
      ensures Older(artists, x, y)
    {
    }
    FirstIs(due', BacklogOrder(artists), batch);
  }

  /**
   Starvation: when the 25 oldest due artists all await their identity and every lookup times out, no pass now or later
   changes anything, and each takes the same 25 again; nobody behind them is ever reached.
   */
  lemma HangingLookupsStarve(
      c: Config, cat: Catalogue, followed: set<Id>, now: Time, later: Time, order: seq<Id>, fates: Id -> Fate)
    requires now <= later && OthersComeLater(cat.artists, followed, now, Batch(cat.artists, followed, now))
    requires |Batch(cat.artists, followed, now)| == BATCH_SIZE && Active(cat.cooldowns.musicBrainz, now).None?
    requires Hanging(cat.artists, Batch(cat.artists, followed, now), fates)
    requires IsBatchOrder(cat.artists, followed, later, order)
    ensures Batch(cat.artists, followed, later) == Batch(cat.artists, followed, now)
    ensures Known(cat.artists, order) && Pass(c, cat, later, order, fates) == cat
  {
    DueStayOldest(cat.artists, followed, now, later);
    assert forall k | 0 <= k < |order| :: order[k] in order;
    HangingPassIsIdle(c, cat, Batch(cat.artists, followed, now), later, order, fates);
  }

  // ---- an instance

  function Upto(n: nat): (r: set<Id>)
    ensures |r| == n && forall id :: id in r <==> 0 <= id < n
  {
    if n == 0 then {} else Upto(n - 1) + {n - 1}
  }

  /** Twenty-five imported artists nobody has looked up yet, and one whose identity is known; nothing was checked. */
  const CROWD: map<Id, Artist> :=
    map id | id in Upto(BATCH_SIZE + 1) :: if id < BATCH_SIZE then IMPORTED else IMPORTED.(identity := None)

  const NO_ANSWER := Answers(TimedOut, SpotifyFailed, ITunesFailed, MusicBrainzFailed)

  lemma CrowdBatch(now: Time)
    ensures DueArtists(CROWD, Upto(BATCH_SIZE + 1), now) == Upto(BATCH_SIZE + 1)
    ensures Batch(CROWD, Upto(BATCH_SIZE + 1), now) == Upto(BATCH_SIZE)
  {
    var all := Upto(BATCH_SIZE + 1);
    assert forall id | id in all :: ArtistDue(CROWD[id], now) && KeyOf(CROWD[id]) == None;
    assert DueArtists(CROWD, all, now) == all;
    BacklogOrderIsStrict(CROWD, all);
    FirstIs(all, BacklogOrder(CROWD), Upto(BATCH_SIZE));
  }

  /** With every lookup timing out and every write working, the last artist is due at every pass and in no batch. */
  lemma LastOfCrowdStarves(c: Config, now: Time, order: seq<Id>)
    requires IsBatchOrder(CROWD, Upto(BATCH_SIZE + 1), now, order)
    ensures Known(CROWD, order)
    ensures Pass(c, Catalogue(CROWD, IDLE), now, order, _ => Fate(false, NO_ANSWER, ALL_WRITTEN))
         == Catalogue(CROWD, IDLE)
    ensures var last := BATCH_SIZE;
            last in DueArtists(CROWD, Upto(BATCH_SIZE + 1), now) && last !in Batch(CROWD, Upto(BATCH_SIZE + 1), now)
  {
    CrowdBatch(now);
    HangingLookupsStarve(c, Catalogue(CROWD, IDLE), Upto(BATCH_SIZE + 1), now, now, order,
      _ => Fate(false, NO_ANSWER, ALL_WRITTEN));
  }

  // ---- the runner

  class SyncRunner {
    const config: Config
    var artists: map<Id, Artist>
    var cooldowns: Cooldowns

    constructor (config: Config, artists: map<Id, Artist>, cooldowns: Cooldowns)
      ensures this.config == config && this.artists == artists && this.cooldowns == cooldowns
    {
      this.config, this.artists, this.cooldowns := config, artists, cooldowns;
    }

    /** Records what became of one artist and of the provider cooldowns. */
    method Sync(id: Id, now: Time, f: Fate)
      requires id in artists
      modifies this
      ensures var r := SyncOne(config, old(artists)[id], old(cooldowns), now, f.known, f.answers, f.writes);
              artists == old(artists)[id := r.artist] && cooldowns == r.cooldowns
    {
      var identity := artists[id].identity;
      if identity.None? || identity.value.status.Verified? {
        SyncReleases(id, now, f);
      } else if identity.value.status.Unverified? {
        CheckIdentity(id, now, f);
      }
    }

    /** Verifies an imported identity first; only a verified artist goes on to its releases. */
    method CheckIdentity(id: Id, now: Time, f: Fate)
      requires id in artists && artists[id].identity.Some? && artists[id].identity.value.status.Unverified?
      modifies this
      ensures var r := SyncOne(config, old(artists)[id], old(cooldowns), now, f.known, f.answers, f.writes);
              artists == old(artists)[id := r.artist] && cooldowns == r.cooldowns
    {
      var a := artists[id];
      var attempts := a.identity.value.attempts;
      if Active(cooldowns.musicBrainz, now).Some? {
        if f.writes.identity {
          artists := artists[id := ScheduleIdentityFailure(a, attempts, cooldowns.musicBrainz.value, false)];
        }
        return;
      }
      match f.answers.identity {
        case TimedOut =>
        case Transient =>
          var retry := now + MusicBrainzDelay(cooldowns.streak + 1, config.interval);
          cooldowns := cooldowns.(musicBrainz := Some(retry), streak := cooldowns.streak + 1);
          if f.writes.identity {
            artists := artists[id := ScheduleIdentityFailure(a, attempts, retry, false)];
          }
        case Rejected =>
          var terminal := attempts + 1 >= MAX_IDENTITY_ATTEMPTS;
          var next := now + IdentityRetryDelay(attempts + 1, terminal);
          if f.writes.identity {
            artists := artists[id := ScheduleIdentityFailure(a, attempts + 1, next, terminal)];
          }
        case Resolved =>
          cooldowns := cooldowns.(musicBrainz := None, streak := 0);
          if f.writes.identity {
            artists := artists[id := VerifyIdentity(a)];
            SyncReleases(id, now, f);
          }
      }
    }

    /** Asks the providers and reschedules the artist, one write after the other. */
    method SyncReleases(id: Id, now: Time, f: Fate)
      requires id in artists
      modifies this
      ensures var r := SyncVerified(config, old(artists)[id], old(cooldowns), now, f.known, f.answers, f.writes);
              artists == old(artists)[id := r.artist] && cooldowns == r.cooldowns
    {
      var a := artists[id];
      var wasDue := a.linked && (a.spotifyNext.None? || a.spotifyNext.value <= now);
      var dated := a.linked && config.spotify && f.known;
      var primary := a.linked && config.spotify && (wasDue || dated);
      var o := Observe(config, cooldowns, now, dated, wasDue, primary, f.answers);
      cooldowns := o.cooldowns;
      if o.strategy.spotify.deferred {
        if f.writes.mark {
          artists := artists[id := MarkArtistChecked(a, now, config.interval)];
        } else {
          RetryAfterFailure(id, now, f.writes);
        }
      } else if !HasBatches(o.strategy) {
        ScheduleWithoutReleases(id, now, wasDue, o.strategy, f.writes);
      } else {
        ScheduleAfterReleases(id, now, wasDue, o.strategy, f.writes);
      }
    }

    method RetryAfterFailure(id: Id, now: Time, w: Writes)
      requires id in artists
      modifies this`artists
      ensures artists == old(artists)[id := PersistenceFailure(config, old(artists)[id], now, w)]
    {
      if w.retry {
        var next := now + ProviderFailureRetryDelay(None, config.interval);
        artists := artists[id := ScheduleArtistRetry(artists[id], now, next)];
      }
    }

    method ScheduleWithoutReleases(id: Id, now: Time, wasDue: bool, st: Strategy, w: Writes)
      requires id in artists
      modifies this`artists
      ensures artists == old(artists)[id := AfterNothing(config, old(artists)[id], now, wasDue, st, w)]
    {
      var spotifyAt := EmptySpotifyCheck(config, now, wasDue, st);
      if !st.failed && (st.spotify.healthy || st.itunesHealthy) {
        if !w.mark {
          RetryAfterFailure(id, now, w);
          return;
        }
        artists := artists[id := MarkArtistChecked(artists[id], now, config.interval)];
        if spotifyAt.Some? {
          if w.spotify {
            artists := artists[id := ScheduleSpotifyCheck(artists[id], spotifyAt.value)];
          } else {
            RetryAfterFailure(id, now, w);
          }
        }
        return;
      }
      if spotifyAt.Some? {
        if w.spotify {
          artists := artists[id := ScheduleSpotifyCheck(artists[id], spotifyAt.value)];
        } else {
          RetryAfterFailure(id, now, w);
        }
      }
      if w.check {
        var next := now + ProviderFailureRetryDelay(st.spotify.limit, config.interval);
        artists := artists[id := ScheduleArtistCheck(artists[id], next)];
      } else {
        RetryAfterFailure(id, now, w);
      }
    }

    method ScheduleAfterReleases(id: Id, now: Time, wasDue: bool, st: Strategy, w: Writes)
      requires id in artists
      modifies this`artists
      ensures artists == old(artists)[id := AfterReleases(config, old(artists)[id], now, wasDue, st, w)]
    {
      if !w.apply || !w.mark {
        RetryAfterFailure(id, now, w);
        return;
      }
      artists := artists[id := MarkArtistChecked(artists[id], now, config.interval)];
      if st.partial && Active(st.musicBrainzRetry, now).Some? {
        if !w.check {
          RetryAfterFailure(id, now, w);
          return;
        }
        artists := artists[id := ScheduleArtistCheck(artists[id], st.musicBrainzRetry.value)];
      }
      ScheduleSpotify(id, now, wasDue, st, w);
    }

    method ScheduleSpotify(id: Id, now: Time, wasDue: bool, st: Strategy, w: Writes)
      requires id in artists
      modifies this`artists
      ensures artists == old(artists)[id := AfterSpotify(config, old(artists)[id], now, wasDue, st, w)]
    {
      var next;
      if st.spotify.suppressed.Some? {
        next := st.spotify.suppressed.value;
      } else if wasDue && !config.spotify {
        next := now + config.spotifyInterval;
      } else if wasDue && st.spotify.batch {
        if w.spotify {
          MarkSpotifyCheckedAdaptive(id, now, st.spotify.changed, st.spotify.upcoming);
        } else {
          RetryAfterFailure(id, now, w);
        }
        return;
      } else if wasDue && st.spotify.attempted {
        next := now + ProviderFailureRetryDelay(None, config.interval);
        if st.spotify.limit.Some? {
          next := now + SyncRetryDelay(st.spotify.limit, config.spotifyInterval);
        } else if st.spotify.tooLarge {
          next := now + config.spotifyInterval;
        }
      } else {
        return;
      }
      if w.spotify {
        artists := artists[id := ScheduleSpotifyCheck(artists[id], next)];
      } else {
        RetryAfterFailure(id, now, w);
      }
    }

    /** The backoff doubles once per unchanged check, three times at most, and stops at a week. */
    method MarkSpotifyCheckedAdaptive(id: Id, now: Time, changed: bool, upcoming: bool)
      requires id in artists
      modifies this`artists
      ensures artists
           == old(artists)[id := MarkSpotifyChecked(old(artists)[id], now, config.spotifyInterval, changed, upcoming)]
    {
      var a := artists[id];
      var interval := config.spotifyInterval;
      var streak := if changed then 0 else a.unchangedChecks + 1;
      var delay := SpotifyPollDelay(a.digest, interval);
      if !changed && !upcoming {
        var backoff := interval;
        var i := 0;
        while i < Min(streak, 3)
          invariant 0 <= i <= Max(0, Min(streak, 3))
          invariant backoff == Doubled(interval, i)
        {
          backoff := backoff * 2;
          i := i + 1;
        }
        if backoff > WEEK {
          backoff := WEEK;
        }
        delay := SpotifyPollDelay(a.digest, backoff);
        if delay > backoff {
          delay := backoff;
        }
      }
      artists := artists[id := a.(
        spotifyNext := Some(now + delay), unchangedChecks := streak,
        lastChange := if changed then Some(now) else a.lastChange)];
    }

    /** One pass over the oldest due artists, in the order of the backlog. */
    method SyncArtists(followed: set<Id>, now: Time, fates: Id -> Fate) returns (ghost order: seq<Id>)
      requires Positive(config) && forall id | id in Batch(artists, followed, now) :: fates(id).writes.retry
      modifies this
      ensures IsBatchOrder(old(artists), followed, now, order) && Known(old(artists), order)
      ensures var cat := Catalogue(old(artists), old(cooldowns));
              && Catalogue(artists, cooldowns) == Pass(config, cat, now, order, fates)
              && DueArtists(artists, followed, now)
                 == DueArtists(old(artists), followed, now)
                    - (Batch(old(artists), followed, now) - FallingShort(config, cat, now, order, fates))
    {
      ghost var cat := Catalogue(artists, cooldowns);
      BatchIsOldest(artists, followed, now);
      BacklogOrderIsStrict(artists, Batch(artists, followed, now));
      var due := Sorted(Batch(artists, followed, now), BacklogOrder(artists));
      order := due;
      for k := 0 to |due|
        invariant Catalogue(artists, cooldowns) == Pass(config, cat, now, due[..k], fates)
      {
        assert due[..k + 1][..k] == due[..k];
        Sync(due[k], now, fates(due[k]));
      }
      assert due[..|due|] == due;
      assert forall k | 0 <= k < |order| :: order[k] in order;
      PassLeaves(config, cat, followed, now, order, fates);
      PassShrinksBacklog(cat.artists, artists, followed, now);
    }
  }
}
