/**
 Catalogue synchronisation as a scheduler: which artists are due, what the provider chain observes for one of
 them, and when the artist is looked at again, for every exit of the synchronisation routine.
 */
module CatalogScheduling {
  import opened Prelude
  import opened Tables

  const MAX_IDENTITY_ATTEMPTS: int := 5
  const WEEK: Time := 7 * 24 * HOUR

  // ---- the scheduling columns of one artist

  datatype IdentityStatus = Verified | Unverified | Unresolvable
  datatype Identity = Identity(status: IdentityStatus, attempts: int)

  /**
   `linked` says that the artist carries a Spotify id (the store never keeps an empty one), and `digest` is the
   hash of the artist's id that spreads Spotify checks.
   */
  datatype Artist = Artist(
    digest: nat, linked: bool, nextCheck: Option<Time>, spotifyNext: Option<Time>, lastChecked: Option<Time>,
    unchangedChecks: int, lastChange: Option<Time>, identity: Option<Identity>)

  predicate Passed(at: Option<Time>, now: Time) {
    at.None? || at.value <= now
  }

  predicate SpotifyDue(a: Artist, now: Time) {
    a.linked && Passed(a.spotifyNext, now)
  }

  predicate Terminal(a: Artist) {
    a.identity.Some? && a.identity.value.status.Unresolvable?
  }

  predicate AwaitsIdentity(a: Artist) {
    a.identity.Some? && a.identity.value.status.Unverified?
  }

  /** The due predicate of a followed artist. */
  predicate ArtistDue(a: Artist, now: Time) {
    !Terminal(a) && (Passed(a.nextCheck, now) || SpotifyDue(a, now))
  }

  // ---- the schedule writers

  function MarkArtistChecked(a: Artist, now: Time, interval: Time): Artist {
    a.(lastChecked := Some(now), nextCheck := Some(now + interval))
  }

  function ScheduleArtistCheck(a: Artist, next: Time): Artist {
    a.(nextCheck := Some(next))
  }

  function ScheduleArtistRetry(a: Artist, now: Time, next: Time): Artist {
    a.(nextCheck := Some(next), spotifyNext := if Passed(a.spotifyNext, now) then Some(next) else a.spotifyNext)
  }

  function ScheduleSpotifyCheck(a: Artist, next: Time): Artist {
    a.(spotifyNext := Some(next))
  }

  /** Half the interval plus a fixed share of it, picked by the digest of the artist id. */
  function SpotifyPollDelay(digest: nat, interval: Time): Time {
    if interval <= 0 then interval else interval / 2 + digest % interval
  }

  function Doubled(interval: Time, times: nat): Time {
    if times == 0 then interval else 2 * Doubled(interval, times - 1)
  }

  /** Quiet catalogues are looked at less and less often, up to eight intervals or a week. */
  function AdaptiveDelay(digest: nat, interval: Time, streak: int, quiet: bool): Time {
    if !quiet then SpotifyPollDelay(digest, interval)
    else
      var backoff := Min(Doubled(interval, Max(0, Min(streak, 3))), WEEK);
      Min(SpotifyPollDelay(digest, backoff), backoff)
  }

  function MarkSpotifyChecked(a: Artist, now: Time, interval: Time, changed: bool, upcoming: bool): Artist {
    var streak := if changed then 0 else a.unchangedChecks + 1;
    a.(spotifyNext := Some(now + AdaptiveDelay(a.digest, interval, streak, !changed && !upcoming)),
       unchangedChecks := streak, lastChange := if changed then Some(now) else a.lastChange)
  }

  function ScheduleIdentityFailure(a: Artist, attempts: int, next: Time, terminal: bool): Artist {
    a.(identity := Some(Identity(if terminal then Unresolvable else Unverified, Max(attempts, 0))),
       nextCheck := Some(next),
       spotifyNext :=
         if a.linked && (a.spotifyNext.None? || a.spotifyNext.value < next) then Some(next) else a.spotifyNext)
  }

  function VerifyIdentity(a: Artist): Artist {
    a.(identity := Some(Identity(Verified, 0)))
  }

  /** An explicit request retries a pending or terminal identity at once. */
  function ResetIdentity(a: Artist, now: Time): Artist {
    a.(identity := Some(match a.identity
         case None => Identity(Verified, 0)
         case Some(i) => if i.status.Verified? then i else Identity(Unverified, 0)),
       nextCheck := Some(now), spotifyNext := if a.linked then Some(now) else a.spotifyNext)
  }

  // ---- delays

  datatype Limit = Limit(retryAfter: Time, quota: bool)

  function SyncRetryDelay(limit: Option<Limit>, interval: Time): Time {
    match limit
    case None => interval
    case Some(l) => if l.quota then Max(l.retryAfter, interval) else Min(Max(l.retryAfter, MINUTE), interval)
  }

  function ProviderFailureRetryDelay(limit: Option<Limit>, interval: Time): Time {
    if limit.Some? then SyncRetryDelay(limit, interval) else Min(15 * MINUTE, interval)
  }

  function IdentityRetryDelay(attempts: int, terminal: bool): Time {
    if terminal then 24 * HOUR
    else if attempts <= 1 then MINUTE
    else if attempts == 2 then 5 * MINUTE
    else if attempts == 3 then 15 * MINUTE
    else HOUR
  }

  // ---- the providers

  /** How the deployment is configured; the flags say which optional providers have credentials. */
  datatype Config = Config(interval: Time, spotifyInterval: Time, spotify: bool, itunes: bool)

  /** The process-wide cooldowns of the providers, and the failure streak of MusicBrainz. */
  datatype Cooldowns = Cooldowns(spotify: Option<Time>, itunes: Option<Time>, musicBrainz: Option<Time>, streak: nat)

  datatype SpotifyAnswer =
    | SpotifyReleases(count: nat, changed: bool, upcoming: bool)
    | SpotifyLimited(limit: Limit)
    | SpotifyTooLarge
    | SpotifyFailed

  datatype ITunesAnswer =
    | ITunesReleases(count: nat, truncated: bool)
    | ITunesUnknown
    | ITunesLimited(retryAfter: Time)
    | ITunesFailed

  datatype MusicBrainzAnswer =
    | MusicBrainzReleases(count: nat, creditsFailed: bool)
    | MusicBrainzFailed

  /** A lookup that outlasts the client's own timeout is told apart from every other transient failure. */
  datatype IdentityAnswer = Resolved | Transient | Rejected | TimedOut

  datatype Answers = Answers(
    identity: IdentityAnswer, spotify: SpotifyAnswer, itunes: ITunesAnswer, musicBrainz: MusicBrainzAnswer)

  function Active(until: Option<Time>, now: Time): Option<Time> {
    if until.Some? && until.value > now then until else None
  }

  function Later(until: Option<Time>, at: Time): Option<Time> {
    if until.None? || at > until.value then Some(at) else until
  }

  /** Doubles from a minute with every failure in a row; `streak` counts this one. */
  function MusicBrainzDelay(streak: nat, interval: Time): Time {
    var delay := MINUTE * Power2(Max(0, Min(streak - 1, 6)));
    if interval > 0 && delay > interval then interval else delay
  }

  /** What scheduling reads of the Spotify observation. */
  datatype SpotifySeen = SpotifySeen(
    batch: bool, healthy: bool, attempted: bool, suppressed: Option<Time>, deferred: bool,
    tooLarge: bool, limit: Option<Limit>, changed: bool, upcoming: bool)

  const UNSEEN := SpotifySeen(false, false, false, None, false, false, None, false, false)

  /** What scheduling reads of the whole observation; `failed` says that some provider reported an error. */
  datatype Strategy = Strategy(
    spotify: SpotifySeen, failed: bool, itunesHealthy: bool, itunesBatch: bool, partial: bool,
    musicBrainzBatch: bool, musicBrainzRetry: Option<Time>)

  datatype Observed = Observed(strategy: Strategy, cooldowns: Cooldowns)

  function Seen(sp: SpotifySeen, failed: bool, cd: Cooldowns): Observed {
    Observed(Strategy(sp, failed, false, false, false, false, None), cd)
  }

  function ObserveSpotify(
      c: Config, cd: Cooldowns, now: Time, known: bool, wasDue: bool, primary: bool, answer: SpotifyAnswer): Observed
  {
    if !primary || !wasDue || !c.spotify then
      Seen(UNSEEN.(deferred := primary && !wasDue && known), false, cd)
    else if Active(cd.spotify, now).Some? then
      Seen(UNSEEN.(suppressed := cd.spotify), false, cd)
    else
      var sp := UNSEEN.(attempted := true);
      match answer
      case SpotifyReleases(count, changed, upcoming) =>
        Seen(sp.(healthy := true, batch := count > 0, changed := changed, upcoming := count > 0 && upcoming), false,
             cd.(spotify := None))
      case SpotifyLimited(limit) =>
        Seen(sp.(limit := Some(limit)), true,
             cd.(spotify := Later(cd.spotify, now + SyncRetryDelay(Some(limit), c.spotifyInterval))))
      case SpotifyTooLarge => Seen(sp.(tooLarge := true), true, cd)
      case SpotifyFailed => Seen(sp, true, cd)
  }

  function ObserveITunes(c: Config, o: Observed, now: Time, allowed: bool, answer: ITunesAnswer): Observed {
    var st, cd := o.strategy, o.cooldowns;
    if !allowed || !c.itunes || Active(cd.itunes, now).Some? then o
    else match answer
      case ITunesReleases(count, truncated) =>
        Observed(st.(itunesHealthy := true, itunesBatch := count > 0, partial := truncated && count > 0),
                 cd.(itunes := None))
      case ITunesUnknown => Observed(st.(itunesHealthy := true), cd)
      case ITunesLimited(retryAfter) =>
        Observed(st.(failed := true), cd.(itunes := Later(cd.itunes, now + Max(retryAfter, MINUTE))))
      case ITunesFailed => Observed(st.(failed := true), cd)
  }

  function ObserveMusicBrainz(c: Config, o: Observed, now: Time, answer: MusicBrainzAnswer): Observed {
    var st, cd := o.strategy, o.cooldowns;
    if Active(cd.musicBrainz, now).Some? then Observed(st.(musicBrainzRetry := cd.musicBrainz), cd)
    else
      var retry := Some(now + MusicBrainzDelay(cd.streak + 1, c.interval));
      match answer
      case MusicBrainzReleases(count, creditsFailed) =>
        if creditsFailed then
          Observed(st.(musicBrainzBatch := count > 0, failed := true, musicBrainzRetry := retry),
                   cd.(musicBrainz := retry, streak := cd.streak + 1))
        else Observed(st.(musicBrainzBatch := count > 0), cd.(musicBrainz := None, streak := 0))
      case MusicBrainzFailed =>
        Observed(st.(failed := true, musicBrainzRetry := retry), cd.(musicBrainz := retry, streak := cd.streak + 1))
  }

  /** Spotify, then iTunes, then MusicBrainz; a complete answer ends the chain. */
  function Observe(
      c: Config, cd: Cooldowns, now: Time, known: bool, wasDue: bool, primary: bool, answers: Answers): Observed
  {
    var spotify := ObserveSpotify(c, cd, now, known, wasDue, primary, answers.spotify);
    var fallback := !spotify.strategy.spotify.batch && (!primary || wasDue);
    var itunes := ObserveITunes(c, spotify, now, fallback, answers.itunes);
    var complete := itunes.strategy.itunesBatch && !itunes.strategy.partial;
    if fallback && !complete then ObserveMusicBrainz(c, itunes, now, answers.musicBrainz) else itunes
  }

  // ---- scheduling after the observation

  /** Which writes of the routine succeed; a failed one is followed by the retry write. */
  datatype Writes = Writes(identity: bool, apply: bool, mark: bool, check: bool, spotify: bool, retry: bool)

  function PersistenceFailure(c: Config, a: Artist, now: Time, w: Writes): Artist {
    if w.retry then ScheduleArtistRetry(a, now, now + ProviderFailureRetryDelay(None, c.interval)) else a
  }

  /** The Spotify schedule when no provider had releases. */
  function EmptySpotifyCheck(c: Config, now: Time, wasDue: bool, st: Strategy): Option<Time> {
    if !wasDue then None
    else if st.spotify.limit.Some? then Some(now + SyncRetryDelay(st.spotify.limit, c.spotifyInterval))
    else if st.spotify.suppressed.Some? then st.spotify.suppressed
    else if st.spotify.tooLarge then Some(now + c.spotifyInterval)
    else if st.spotify.attempted then Some(now + ProviderFailureRetryDelay(None, c.interval))
    else if !c.spotify then Some(now + c.spotifyInterval)
    else None
  }

  function AfterNothing(c: Config, a: Artist, now: Time, wasDue: bool, st: Strategy, w: Writes): Artist {
    var spotifyAt := EmptySpotifyCheck(c, now, wasDue, st);
    if !st.failed && (st.spotify.healthy || st.itunesHealthy) then
      if !w.mark then PersistenceFailure(c, a, now, w)
      else
        var a1 := MarkArtistChecked(a, now, c.interval);
        if spotifyAt.None? then a1
        else if !w.spotify then PersistenceFailure(c, a1, now, w)
        else ScheduleSpotifyCheck(a1, spotifyAt.value)
    else
      var a1 := if spotifyAt.None? then a
                else if !w.spotify then PersistenceFailure(c, a, now, w)
                else ScheduleSpotifyCheck(a, spotifyAt.value);
      if w.check then ScheduleArtistCheck(a1, now + ProviderFailureRetryDelay(st.spotify.limit, c.interval))
      else PersistenceFailure(c, a1, now, w)
  }

  /** The Spotify schedule after releases were applied; the artist is marked as checked already. */
  function AfterSpotify(c: Config, a: Artist, now: Time, wasDue: bool, st: Strategy, w: Writes): Artist {
    if st.spotify.suppressed.Some? then
      if w.spotify then ScheduleSpotifyCheck(a, st.spotify.suppressed.value) else PersistenceFailure(c, a, now, w)
    else if wasDue && !c.spotify then
      if w.spotify then ScheduleSpotifyCheck(a, now + c.spotifyInterval) else PersistenceFailure(c, a, now, w)
    else if wasDue && st.spotify.batch then
      if w.spotify then MarkSpotifyChecked(a, now, c.spotifyInterval, st.spotify.changed, st.spotify.upcoming)
      else PersistenceFailure(c, a, now, w)
    else if wasDue && st.spotify.attempted then
      var retryAt := now + (if st.spotify.limit.Some? then SyncRetryDelay(st.spotify.limit, c.spotifyInterval)
                            else if st.spotify.tooLarge then c.spotifyInterval
                            else ProviderFailureRetryDelay(None, c.interval));
      if w.spotify then ScheduleSpotifyCheck(a, retryAt) else PersistenceFailure(c, a, now, w)
    else a
  }

  function AfterReleases(c: Config, a: Artist, now: Time, wasDue: bool, st: Strategy, w: Writes): Artist {
    if !w.apply || !w.mark then PersistenceFailure(c, a, now, w)
    else
      var a1 := MarkArtistChecked(a, now, c.interval);
      if st.partial && Active(st.musicBrainzRetry, now).Some? then
        if w.check then AfterSpotify(c, ScheduleArtistCheck(a1, st.musicBrainzRetry.value), now, wasDue, st, w)
        else PersistenceFailure(c, a1, now, w)
      else AfterSpotify(c, a1, now, wasDue, st, w)
  }

  predicate HasBatches(st: Strategy) {
    st.spotify.batch || st.itunesBatch || st.musicBrainzBatch
  }

  function Reschedule(c: Config, a: Artist, now: Time, wasDue: bool, st: Strategy, w: Writes): Artist {
    if st.spotify.deferred then
      if w.mark then MarkArtistChecked(a, now, c.interval) else PersistenceFailure(c, a, now, w)
    else if !HasBatches(st) then AfterNothing(c, a, now, wasDue, st, w)
    else AfterReleases(c, a, now, wasDue, st, w)
  }

  datatype Synced = Synced(artist: Artist, cooldowns: Cooldowns)

  /** `known` says that a Spotify release date of the artist is on record. */
  function SyncVerified(
      c: Config, a: Artist, cd: Cooldowns, now: Time, known: bool, answers: Answers, w: Writes): Synced
  {
    var wasDue := SpotifyDue(a, now);
    var dated := a.linked && c.spotify && known;
    var primary := a.linked && c.spotify && (wasDue || dated);
    var o := Observe(c, cd, now, dated, wasDue, primary, answers);
    Synced(Reschedule(c, a, now, wasDue, o.strategy, w), o.cooldowns)
  }

  /** One synchronisation, without failed reads and without cancellation. */
  function SyncOne(c: Config, a: Artist, cd: Cooldowns, now: Time, known: bool, answers: Answers, w: Writes): Synced {
    if Terminal(a) then Synced(a, cd)
    else if AwaitsIdentity(a) then
      var attempts := a.identity.value.attempts;
      if Active(cd.musicBrainz, now).Some? then
        Synced(if w.identity then ScheduleIdentityFailure(a, attempts, cd.musicBrainz.value, false) else a, cd)
      else match answers.identity
        case TimedOut => Synced(a, cd)
        case Transient =>
          var retry := now + MusicBrainzDelay(cd.streak + 1, c.interval);
          Synced(if w.identity then ScheduleIdentityFailure(a, attempts, retry, false) else a,
                 cd.(musicBrainz := Some(retry), streak := cd.streak + 1))
        case Rejected =>
          var terminal := attempts + 1 >= MAX_IDENTITY_ATTEMPTS;
          var next := now + IdentityRetryDelay(attempts + 1, terminal);
          Synced(if w.identity then ScheduleIdentityFailure(a, attempts + 1, next, terminal) else a, cd)
        case Resolved =>
          var cd1 := cd.(musicBrainz := None, streak := 0);
          if w.identity then SyncVerified(c, VerifyIdentity(a), cd1, now, known, answers, w) else Synced(a, cd1)
    else SyncVerified(c, a, cd, now, known, answers, w)
  }

  // ---- no exit leaves the artist due

  ghost predicate Positive(c: Config) {
    c.interval >= HOUR && c.spotifyInterval >= HOUR
  }

  lemma DelaysArePositive(c: Config, limit: Option<Limit>)
    requires Positive(c)
    ensures SyncRetryDelay(limit, c.interval) > 0 && SyncRetryDelay(limit, c.spotifyInterval) > 0
    ensures ProviderFailureRetryDelay(limit, c.interval) > 0
  {
  }

  lemma {:induction false} DoubledGrows(interval: Time, times: nat)
    requires interval >= HOUR
    ensures Doubled(interval, times) >= interval
  {
    if times > 0 {
      DoubledGrows(interval, times - 1);
    }
  }

  /** An adaptive check is at least half an hour away, and a quiet catalogue waits at most a week. */
  lemma AdaptiveDelayBounds(digest: nat, interval: Time, streak: int, quiet: bool)
    requires interval >= HOUR
    ensures AdaptiveDelay(digest, interval, streak, quiet) >= 30 * MINUTE
    ensures quiet ==> AdaptiveDelay(digest, interval, streak, quiet) <= WEEK
    ensures !quiet ==> AdaptiveDelay(digest, interval, streak, quiet) < interval / 2 + interval
  {
    DoubledGrows(interval, Max(0, Min(streak, 3)));
  }

  /** A persistence failure that could be recorded moves every due schedule of the artist into the future. */
  lemma RetryIsNotDue(c: Config, a: Artist, now: Time, w: Writes)
    requires Positive(c) && w.retry
    ensures !ArtistDue(PersistenceFailure(c, a, now, w), now)
  {
    DelaysArePositive(c, None);
  }

  /** What the provider chain guarantees the scheduler, whatever the providers answer. */
  ghost predicate StrategyOk(c: Config, now: Time, wasDue: bool, st: Strategy) {
    && (st.spotify.suppressed.Some? ==> st.spotify.suppressed.value > now)
    && (st.spotify.deferred ==> !wasDue)
    && (wasDue && c.spotify ==> st.spotify.suppressed.Some? || st.spotify.attempted)
    && (st.spotify.batch ==> st.spotify.limit.None?)
  }

  lemma SpotifyIsOk(c: Config, cd: Cooldowns, now: Time, known: bool, wasDue: bool, primary: bool, answer: SpotifyAnswer)
    requires wasDue && c.spotify ==> primary
    ensures StrategyOk(c, now, wasDue, ObserveSpotify(c, cd, now, known, wasDue, primary, answer).strategy)
  {
  }

  lemma ITunesSparesSpotify(c: Config, o: Observed, now: Time, allowed: bool, answer: ITunesAnswer)
    ensures ObserveITunes(c, o, now, allowed, answer).strategy.spotify == o.strategy.spotify
  {
  }

  lemma MusicBrainzSparesSpotify(c: Config, o: Observed, now: Time, answer: MusicBrainzAnswer)
    ensures ObserveMusicBrainz(c, o, now, answer).strategy.spotify == o.strategy.spotify
  {
  }

  lemma ObserveIsOk(c: Config, cd: Cooldowns, now: Time, known: bool, wasDue: bool, primary: bool, answers: Answers)
    requires wasDue && c.spotify ==> primary
    ensures StrategyOk(c, now, wasDue, Observe(c, cd, now, known, wasDue, primary, answers).strategy)
  {
    SpotifyIsOk(c, cd, now, known, wasDue, primary, answers.spotify);
    var spotify := ObserveSpotify(c, cd, now, known, wasDue, primary, answers.spotify);
    var fallback := !spotify.strategy.spotify.batch && (!primary || wasDue);
    var itunes := ObserveITunes(c, spotify, now, fallback, answers.itunes);
    ITunesSparesSpotify(c, spotify, now, fallback, answers.itunes);
    MusicBrainzSparesSpotify(c, itunes, now, answers.musicBrainz);
  }

  lemma AfterNothingIsNotDue(c: Config, a: Artist, now: Time, st: Strategy, w: Writes)
    requires Positive(c) && w.retry && StrategyOk(c, now, SpotifyDue(a, now), st)
    ensures !ArtistDue(AfterNothing(c, a, now, SpotifyDue(a, now), st, w), now)
  {
    DelaysArePositive(c, st.spotify.limit);
    DelaysArePositive(c, None);
  }

  lemma AfterSpotifyIsNotDue(c: Config, a: Artist, now: Time, st: Strategy, w: Writes)
    requires Positive(c) && w.retry && StrategyOk(c, now, SpotifyDue(a, now), st)
    requires a.nextCheck.Some? && a.nextCheck.value > now
    ensures !ArtistDue(AfterSpotify(c, a, now, SpotifyDue(a, now), st, w), now)
  {
    DelaysArePositive(c, st.spotify.limit);
    DelaysArePositive(c, None);
    AdaptiveDelayBounds(a.digest, c.spotifyInterval,
      if st.spotify.changed then 0 else a.unchangedChecks + 1, !st.spotify.changed && !st.spotify.upcoming);
  }

  lemma RescheduleIsNotDue(c: Config, a: Artist, now: Time, st: Strategy, w: Writes)
    requires Positive(c) && w.retry && StrategyOk(c, now, SpotifyDue(a, now), st)
    ensures !ArtistDue(Reschedule(c, a, now, SpotifyDue(a, now), st, w), now)
  {
    RetryIsNotDue(c, a, now, w);
    if !st.spotify.deferred && !HasBatches(st) {
      AfterNothingIsNotDue(c, a, now, st, w);
    } else if !st.spotify.deferred && w.apply && w.mark {
      var a1 := MarkArtistChecked(a, now, c.interval);
      RetryIsNotDue(c, a1, now, w);
      AfterSpotifyIsNotDue(c, a1, now, st, w);
      if Active(st.musicBrainzRetry, now).Some? {
        AfterSpotifyIsNotDue(c, ScheduleArtistCheck(a1, st.musicBrainzRetry.value), now, st, w);
      }
    }
  }

  lemma SyncVerifiedIsNotDue(c: Config, a: Artist, cd: Cooldowns, now: Time, known: bool, answers: Answers, w: Writes)
    requires Positive(c) && w.retry
    ensures !ArtistDue(SyncVerified(c, a, cd, now, known, answers, w).artist, now)
  {
    var wasDue := SpotifyDue(a, now);
    var dated := a.linked && c.spotify && known;
    var primary := a.linked && c.spotify && (wasDue || dated);
    ObserveIsOk(c, cd, now, dated, wasDue, primary, answers);
    RescheduleIsNotDue(c, a, now, Observe(c, cd, now, dated, wasDue, primary, answers).strategy, w);
  }

  /** The lookup of an unverified identity is made, and times out. */
  predicate AsksInVain(a: Artist, cd: Cooldowns, now: Time, answers: Answers) {
    AwaitsIdentity(a) && Active(cd.musicBrainz, now).None? && answers.identity.TimedOut?
  }

  /** The identity check came to nothing: its lookup timed out, or its outcome could not be written. */
  predicate FallsShort(a: Artist, cd: Cooldowns, now: Time, answers: Answers, w: Writes) {
    AwaitsIdentity(a) && (!w.identity || AsksInVain(a, cd, now, answers))
  }

  /**
   Apart from a timed-out identity lookup, no exit leaves the artist due at this instant: for all other provider
   answers, cooldowns, missing Spotify credentials, empty catalogues and failed writes, as long as the identity write
   and the retry write get through.
   */
  lemma SyncLeavesNothingDue(c: Config, a: Artist, cd: Cooldowns, now: Time, known: bool, answers: Answers, w: Writes)
    requires Positive(c) && w.retry && w.identity && !AsksInVain(a, cd, now, answers)
    ensures !ArtistDue(SyncOne(c, a, cd, now, known, answers, w).artist, now)
  {
    if AwaitsIdentity(a) {
      var retry := now + MusicBrainzDelay(cd.streak + 1, c.interval);
      assert retry > now;
      SyncVerifiedIsNotDue(c, VerifyIdentity(a), cd.(musicBrainz := None, streak := 0), now, known, answers, w);
    } else if !Terminal(a) {
      SyncVerifiedIsNotDue(c, a, cd, now, known, answers, w);
    }
  }

  /**
   With the retry write working, a due artist stays due exactly when its identity is unverified and either the lookup
   is made and times out, or its outcome cannot be recorded.
   */
  lemma StaysDueIff(c: Config, a: Artist, cd: Cooldowns, now: Time, known: bool, answers: Answers, w: Writes)
    requires Positive(c) && w.retry && ArtistDue(a, now)
    ensures ArtistDue(SyncOne(c, a, cd, now, known, answers, w).artist, now) <==> FallsShort(a, cd, now, answers, w)
  {
    if w.identity && !AsksInVain(a, cd, now, answers) {
      SyncLeavesNothingDue(c, a, cd, now, known, answers, w);
    } else if a.identity.None? || a.identity.value.status.Verified? {
      SyncVerifiedIsNotDue(c, a, cd, now, known, answers, w);
    }
  }

  /** A lookup that times out leaves no trace, in the artist or in the cooldowns. */
  lemma AskingInVainChangesNothing(
      c: Config, a: Artist, cd: Cooldowns, now: Time, known: bool, answers: Answers, w: Writes)
    requires AsksInVain(a, cd, now, answers)
    ensures SyncOne(c, a, cd, now, known, answers, w) == Synced(a, cd)
  {
  }

  const IMPORTED := Artist(0, false, None, None, None, 0, None, Some(Identity(Unverified, 0)))
  const IDLE := Cooldowns(None, None, None, 0)

  /** An imported artist whose lookup times out stays due, although every write works. */
  lemma TimedOutLookupStaysDue(c: Config, answers: Answers, now: Time, known: bool)
    requires answers.identity.TimedOut?
    ensures ArtistDue(IMPORTED, now)
    ensures SyncOne(c, IMPORTED, IDLE, now, known, answers, ALL_WRITTEN) == Synced(IMPORTED, IDLE)
  {
    AskingInVainChangesNothing(c, IMPORTED, IDLE, now, known, answers, ALL_WRITTEN);
  }

  /** While MusicBrainz is cooling down no lookup is made, and no synchronisation ends the cooldown. */
  lemma CooldownLasts(c: Config, a: Artist, cd: Cooldowns, now: Time, known: bool, answers: Answers, w: Writes)
    requires Active(cd.musicBrainz, now).Some?
    ensures SyncOne(c, a, cd, now, known, answers, w).cooldowns.musicBrainz == cd.musicBrainz
    ensures !AsksInVain(a, cd, now, answers)
  {
    var wasDue := SpotifyDue(a, now);
    var dated := a.linked && c.spotify && known;
    ObserveKeepsCooldown(c, cd, now, dated, wasDue, a.linked && c.spotify && (wasDue || dated), answers);
  }

  lemma ObserveKeepsCooldown(
      c: Config, cd: Cooldowns, now: Time, known: bool, wasDue: bool, primary: bool, answers: Answers)
    requires Active(cd.musicBrainz, now).Some?
    ensures Observe(c, cd, now, known, wasDue, primary, answers).cooldowns.musicBrainz == cd.musicBrainz
  {
    var spotify := ObserveSpotify(c, cd, now, known, wasDue, primary, answers.spotify);
    var fallback := !spotify.strategy.spotify.batch && (!primary || wasDue);
    assert spotify.cooldowns.musicBrainz == cd.musicBrainz;
    assert ObserveITunes(c, spotify, now, fallback, answers.itunes).cooldowns.musicBrainz == cd.musicBrainz;
  }

  /** Identity checks give up after five rejections; each failed one pushes both schedules forward. */
  lemma RejectedIdentity(c: Config, a: Artist, cd: Cooldowns, now: Time, known: bool, answers: Answers, w: Writes)
    requires a.identity.Some? && a.identity.value.status.Unverified? && a.identity.value.attempts >= 0
    requires Active(cd.musicBrainz, now).None? && answers.identity.Rejected? && w.identity
    ensures var a' := SyncOne(c, a, cd, now, known, answers, w).artist;
            && a'.identity.Some? && a'.identity.value.attempts == a.identity.value.attempts + 1
            && (Terminal(a') <==> a.identity.value.attempts >= 4)
            && a'.nextCheck.Some? && now + MINUTE <= a'.nextCheck.value <= now + 24 * HOUR
            && (a.linked ==> a'.spotifyNext.Some? && a'.spotifyNext.value >= a'.nextCheck.value)
            && !ArtistDue(a', now)
            && (ArtistDue(ResetIdentity(a', now), now) && !Terminal(ResetIdentity(a', now)))
  {
  }

  const ALL_WRITTEN := Writes(true, true, true, true, true, true)

  /**
   How soon a verified artist is looked at again when every write succeeds: a full interval after releases or a
   healthy empty catalogue, unless a partial one waits for MusicBrainz; within a quarter of an hour, or when the
   limit allows, after a failure.
   */
  lemma Cadence(c: Config, a: Artist, cd: Cooldowns, now: Time, known: bool, answers: Answers)
    requires Positive(c) && (a.identity.None? || a.identity.value.status.Verified?)
    ensures var a' := SyncOne(c, a, cd, now, known, answers, ALL_WRITTEN).artist;
            var wasDue := SpotifyDue(a, now);
            var dated := a.linked && c.spotify && known;
            var st := Observe(c, cd, now, dated, wasDue, a.linked && c.spotify && (wasDue || dated), answers).strategy;
            && a'.nextCheck.Some?
            && (HasBatches(st) && !st.partial ==> a'.nextCheck.value == now + c.interval && a'.lastChecked == Some(now))
            && (HasBatches(st) && st.partial ==>
                  a'.nextCheck.value == OrNormal(Active(st.musicBrainzRetry, now), now + c.interval))
            && (!HasBatches(st) && !st.spotify.deferred && st.failed && st.spotify.limit.None? ==>
                  a'.nextCheck.value == now + 15 * MINUTE && a'.lastChecked == a.lastChecked)
  {
    var wasDue := SpotifyDue(a, now);
    var dated := a.linked && c.spotify && known;
    ObserveIsOk(c, cd, now, dated, wasDue, a.linked && c.spotify && (wasDue || dated), answers);
    DeferredAsksNobody(c, cd, now, dated, wasDue, a.linked && c.spotify && (wasDue || dated), answers);
  }

  function OrNormal(at: Option<Time>, normal: Time): Time {
    if at.Some? then at.value else normal
  }

  /** A check that Spotify's own cadence defers asks no fallback provider either. */
  lemma DeferredAsksNobody(
      c: Config, cd: Cooldowns, now: Time, known: bool, wasDue: bool, primary: bool, answers: Answers)
    ensures var o := Observe(c, cd, now, known, wasDue, primary, answers);
            o.strategy.spotify.deferred ==> !HasBatches(o.strategy) && !o.strategy.failed && o.cooldowns == cd
  {
    var spotify := ObserveSpotify(c, cd, now, known, wasDue, primary, answers.spotify);
    var fallback := !spotify.strategy.spotify.batch && (!primary || wasDue);
    var itunes := ObserveITunes(c, spotify, now, fallback, answers.itunes);
    ITunesSparesSpotify(c, spotify, now, fallback, answers.itunes);
    MusicBrainzSparesSpotify(c, itunes, now, answers.musicBrainz);
    OnlyCadenceDefers(c, cd, now, known, wasDue, primary, answers.spotify);
  }

  lemma OnlyCadenceDefers(
      c: Config, cd: Cooldowns, now: Time, known: bool, wasDue: bool, primary: bool, answer: SpotifyAnswer)
    ensures var o := ObserveSpotify(c, cd, now, known, wasDue, primary, answer);
            o.strategy.spotify.deferred ==>
              primary && !wasDue && known && o == Seen(UNSEEN.(deferred := true), false, cd)
  {
  }
}
