/** Which providers a synchronisation asks, what their answers do, and when the artist is looked at again. */
module SyncOutcomes {
  import opened Prelude
  import opened Tables
  import opened CatalogScheduling

  // ---- being due

  predicate IsAhead(at: Option<Time>, now: Time) {
    at.Some? && now < at.value
  }

  /** Due is whoever was never checked or whose check has come, by either schedule, unless the identity is given up. */
  lemma DueIff(a: Artist, now: Time)
    ensures ArtistDue(a, now)
       <==> (a.identity.Some? ==> a.identity.value.status != Unresolvable)
            && (!IsAhead(a.nextCheck, now) || (a.linked && !IsAhead(a.spotifyNext, now)))
  {
  }

  // ---- who is asked

  /** Spotify's own schedule says that the artist is due. */
  predicate SpotifyTurn(a: Artist, now: Time) {
    a.linked && !IsAhead(a.spotifyNext, now)
  }

  predicate AsksSpotify(c: Config, a: Artist, cd: Cooldowns, now: Time) {
    SpotifyTurn(a, now) && c.spotify && !IsAhead(cd.spotify, now)
  }

  /** An artist Spotify has delivered before waits for Spotify's schedule. */
  predicate WaitsForSpotify(c: Config, a: Artist, now: Time, known: bool) {
    a.linked && c.spotify && known && !SpotifyTurn(a, now)
  }

  predicate SpotifyDelivers(c: Config, a: Artist, cd: Cooldowns, now: Time, answers: Answers) {
    AsksSpotify(c, a, cd, now) && answers.spotify.SpotifyReleases? && answers.spotify.count > 0
  }

  predicate FallsBack(c: Config, a: Artist, cd: Cooldowns, now: Time, known: bool, answers: Answers) {
    !WaitsForSpotify(c, a, now, known) && !SpotifyDelivers(c, a, cd, now, answers)
  }

  predicate AsksITunes(c: Config, a: Artist, cd: Cooldowns, now: Time, known: bool, answers: Answers) {
    FallsBack(c, a, cd, now, known, answers) && c.itunes && !IsAhead(cd.itunes, now)
  }

  predicate ITunesDelivers(c: Config, a: Artist, cd: Cooldowns, now: Time, known: bool, answers: Answers) {
    AsksITunes(c, a, cd, now, known, answers) && answers.itunes.ITunesReleases? && answers.itunes.count > 0
  }

  /** A truncated catalogue is used, but leaves the gap to MusicBrainz. */
  predicate LeavesGap(c: Config, a: Artist, cd: Cooldowns, now: Time, known: bool, answers: Answers) {
    ITunesDelivers(c, a, cd, now, known, answers) && answers.itunes.truncated
  }

  predicate WantsMusicBrainz(c: Config, a: Artist, cd: Cooldowns, now: Time, known: bool, answers: Answers) {
    && FallsBack(c, a, cd, now, known, answers)
    && (ITunesDelivers(c, a, cd, now, known, answers) ==> LeavesGap(c, a, cd, now, known, answers))
  }

  predicate AsksMusicBrainz(c: Config, a: Artist, cd: Cooldowns, now: Time, known: bool, answers: Answers) {
    WantsMusicBrainz(c, a, cd, now, known, answers) && !IsAhead(cd.musicBrainz, now)
  }

  predicate MusicBrainzDelivers(c: Config, a: Artist, cd: Cooldowns, now: Time, known: bool, answers: Answers) {
    && AsksMusicBrainz(c, a, cd, now, known, answers)
    && answers.musicBrainz.MusicBrainzReleases? && answers.musicBrainz.count > 0
  }

  /** The chain asked as a synchronisation asks it. */
  function Chain(c: Config, a: Artist, cd: Cooldowns, now: Time, known: bool, answers: Answers): Observed {
    var wasDue, dated := SpotifyDue(a, now), a.linked && c.spotify && known;
    Observe(c, cd, now, dated, wasDue, a.linked && c.spotify && (wasDue || dated), answers)
  }

  // ---- the chain, link by link

  function First(c: Config, a: Artist, cd: Cooldowns, now: Time, known: bool, answers: Answers): Observed {
    var wasDue, dated := SpotifyDue(a, now), a.linked && c.spotify && known;
    ObserveSpotify(c, cd, now, dated, wasDue, a.linked && c.spotify && (wasDue || dated), answers.spotify)
  }

  function Second(c: Config, a: Artist, cd: Cooldowns, now: Time, known: bool, answers: Answers): Observed {
    var o := First(c, a, cd, now, known, answers);
    ObserveITunes(c, o, now, FallsBack(c, a, cd, now, known, answers), answers.itunes)
  }

  function SpotifyCooldown(c: Config, a: Artist, cd: Cooldowns, now: Time, answers: Answers): Option<Time> {
    if !AsksSpotify(c, a, cd, now) then cd.spotify
    else match answers.spotify
      case SpotifyReleases(_, _, _) => None
      case SpotifyLimited(limit) => Longer(cd.spotify, now + LimitDelay(limit, c.spotifyInterval))
      case _ => cd.spotify
  }

  function ITunesCooldown(c: Config, a: Artist, cd: Cooldowns, now: Time, known: bool, answers: Answers): Option<Time> {
    if !AsksITunes(c, a, cd, now, known, answers) then cd.itunes
    else match answers.itunes
      case ITunesReleases(_, _) => None
      case ITunesLimited(retryAfter) => Longer(cd.itunes, now + Max(retryAfter, MINUTE))
      case _ => cd.itunes
  }

  function Longer(until: Option<Time>, at: Time): Option<Time> {
    if until.Some? && until.value >= at then until else Some(at)
  }

  /** A quota lasts at least a full interval, any other limit a minute to an interval. */
  function LimitDelay(limit: Limit, interval: Time): Time {
    if limit.quota then Max(interval, limit.retryAfter)
    else if limit.retryAfter < MINUTE then Min(MINUTE, interval) else Min(limit.retryAfter, interval)
  }

  predicate SpotifyFails(c: Config, a: Artist, cd: Cooldowns, now: Time, answers: Answers) {
    AsksSpotify(c, a, cd, now) && !answers.spotify.SpotifyReleases?
  }

  predicate ITunesFails(c: Config, a: Artist, cd: Cooldowns, now: Time, known: bool, answers: Answers) {
    AsksITunes(c, a, cd, now, known, answers) && (answers.itunes.ITunesLimited? || answers.itunes.ITunesFailed?)
  }

  lemma FirstLink(c: Config, a: Artist, cd: Cooldowns, now: Time, known: bool, answers: Answers)
    ensures var o := First(c, a, cd, now, known, answers);
            var sp := o.strategy.spotify;
            && (sp.batch <==> SpotifyDelivers(c, a, cd, now, answers))
            && (sp.attempted <==> AsksSpotify(c, a, cd, now))
            && (sp.deferred <==> WaitsForSpotify(c, a, now, known))
            && (sp.suppressed == if SpotifyTurn(a, now) && c.spotify && IsAhead(cd.spotify, now) then cd.spotify
                                 else None)
            && (sp.healthy <==> AsksSpotify(c, a, cd, now) && answers.spotify.SpotifyReleases?)
            && (sp.limit == if AsksSpotify(c, a, cd, now) && answers.spotify.SpotifyLimited?
                            then Some(answers.spotify.limit) else None)
            && (sp.tooLarge <==> AsksSpotify(c, a, cd, now) && answers.spotify.SpotifyTooLarge?)
            && (sp.batch ==> sp.changed == answers.spotify.changed && sp.upcoming == answers.spotify.upcoming)
            && o.strategy == Seen(sp, SpotifyFails(c, a, cd, now, answers), cd).strategy
            && o.cooldowns == cd.(spotify := SpotifyCooldown(c, a, cd, now, answers))
  {
  }

  lemma SecondLink(c: Config, a: Artist, cd: Cooldowns, now: Time, known: bool, answers: Answers)
    ensures var o, st := First(c, a, cd, now, known, answers), Second(c, a, cd, now, known, answers).strategy;
            && st.spotify == o.strategy.spotify && !st.musicBrainzBatch && st.musicBrainzRetry == None
            && (st.itunesBatch <==> ITunesDelivers(c, a, cd, now, known, answers))
            && (st.partial <==> LeavesGap(c, a, cd, now, known, answers))
            && (st.itunesHealthy <==> AsksITunes(c, a, cd, now, known, answers)
                                      && (answers.itunes.ITunesReleases? || answers.itunes.ITunesUnknown?))
            && (st.failed <==> SpotifyFails(c, a, cd, now, answers) || ITunesFails(c, a, cd, now, known, answers))
    ensures Second(c, a, cd, now, known, answers).cooldowns
         == cd.(spotify := SpotifyCooldown(c, a, cd, now, answers),
                itunes := ITunesCooldown(c, a, cd, now, known, answers))
  {
    FirstLink(c, a, cd, now, known, answers);
  }

  lemma ThirdLink(c: Config, a: Artist, cd: Cooldowns, now: Time, known: bool, answers: Answers)
    ensures Chain(c, a, cd, now, known, answers) ==
      if WantsMusicBrainz(c, a, cd, now, known, answers)
      then ObserveMusicBrainz(c, Second(c, a, cd, now, known, answers), now, answers.musicBrainz)
      else Second(c, a, cd, now, known, answers)
  {
    FirstLink(c, a, cd, now, known, answers);
    SecondLink(c, a, cd, now, known, answers);
  }

  /**
   Exactly whose releases are used. Spotify is asked in its turn, unless it is cooling down; iTunes when Spotify had
   nothing and does not make the artist wait; MusicBrainz when iTunes had nothing complete either.
   */
  lemma WhoDelivers(c: Config, a: Artist, cd: Cooldowns, now: Time, known: bool, answers: Answers)
    ensures var st := Chain(c, a, cd, now, known, answers).strategy;
            && (st.spotify.batch <==> SpotifyDelivers(c, a, cd, now, answers))
            && (st.spotify.deferred <==> WaitsForSpotify(c, a, now, known))
            && (st.itunesBatch <==> ITunesDelivers(c, a, cd, now, known, answers))
            && (st.partial <==> LeavesGap(c, a, cd, now, known, answers))
            && (st.musicBrainzBatch <==> MusicBrainzDelivers(c, a, cd, now, known, answers))
  {
    FirstLink(c, a, cd, now, known, answers);
    SecondLink(c, a, cd, now, known, answers);
    ThirdLink(c, a, cd, now, known, answers);
  }

  /** The delay after `streak` MusicBrainz failures in a row. */
  function AfterFailures(streak: nat, interval: Time): Time {
    var minutes := if streak <= 1 then 1 else if streak >= 7 then 64 else [2, 4, 8, 16, 32][streak - 2];
    if interval > 0 && minutes * MINUTE > interval then interval else minutes * MINUTE
  }

  lemma MusicBrainzDelayIs(streak: nat, interval: Time)
    ensures MusicBrainzDelay(streak, interval) == AfterFailures(streak, interval)
  {
    assert Power2(1) == 2 && Power2(2) == 4 && Power2(3) == 8 && Power2(4) == 16;
    assert Power2(5) == 2 * Power2(4);
    assert Power2(6) == 2 * Power2(5);
  }

  /** Missing credits fail the check too, although the releases are used. */
  predicate MusicBrainzFails(answers: Answers) {
    answers.musicBrainz.MusicBrainzFailed? || answers.musicBrainz.creditsFailed
  }

  /** When MusicBrainz may fill a gap, if it could not be asked or failed. */
  function MusicBrainzRetry(
      c: Config, a: Artist, cd: Cooldowns, now: Time, known: bool, answers: Answers): Option<Time>
  {
    if !WantsMusicBrainz(c, a, cd, now, known, answers) then None
    else if IsAhead(cd.musicBrainz, now) then cd.musicBrainz
    else if MusicBrainzFails(answers) then Some(now + AfterFailures(cd.streak + 1, c.interval))
    else None
  }

  predicate SomebodyFails(c: Config, a: Artist, cd: Cooldowns, now: Time, known: bool, answers: Answers) {
    || SpotifyFails(c, a, cd, now, answers) || ITunesFails(c, a, cd, now, known, answers)
    || (AsksMusicBrainz(c, a, cd, now, known, answers) && MusicBrainzFails(answers))
  }

  /** What the answers do to the error flag and to what is known of the next MusicBrainz attempt. */
  lemma WhatFails(c: Config, a: Artist, cd: Cooldowns, now: Time, known: bool, answers: Answers)
    ensures var st := Chain(c, a, cd, now, known, answers).strategy;
            && (st.failed <==> SomebodyFails(c, a, cd, now, known, answers))
            && st.musicBrainzRetry == MusicBrainzRetry(c, a, cd, now, known, answers)
  {
    SecondLink(c, a, cd, now, known, answers);
    ThirdLink(c, a, cd, now, known, answers);
    LastLinkFails(c, Second(c, a, cd, now, known, answers), now, answers.musicBrainz);
  }

  lemma LastLinkFails(c: Config, o: Observed, now: Time, answer: MusicBrainzAnswer)
    requires o.strategy.musicBrainzRetry == None
    ensures var st := ObserveMusicBrainz(c, o, now, answer).strategy;
            var ahead := IsAhead(o.cooldowns.musicBrainz, now);
            var fails := answer.MusicBrainzFailed? || answer.creditsFailed;
            && (st.failed <==> o.strategy.failed || (!ahead && fails))
            && st.musicBrainzRetry == if ahead then o.cooldowns.musicBrainz
                                      else if fails then Some(now + AfterFailures(o.cooldowns.streak + 1, c.interval))
                                      else None
  {
    MusicBrainzDelayIs(o.cooldowns.streak + 1, c.interval);
  }

  /** A provider that answers ends its cooldown, one that limits starts or extends it; nobody else touches it. */
  lemma WhatCoolsDown(c: Config, a: Artist, cd: Cooldowns, now: Time, known: bool, answers: Answers)
    ensures var cd' := Chain(c, a, cd, now, known, answers).cooldowns;
            && cd'.spotify == SpotifyCooldown(c, a, cd, now, answers)
            && cd'.itunes == ITunesCooldown(c, a, cd, now, known, answers)
            && (if !AsksMusicBrainz(c, a, cd, now, known, answers)
                then cd'.musicBrainz == cd.musicBrainz && cd'.streak == cd.streak
                else if MusicBrainzFails(answers)
                then cd'.musicBrainz == Some(now + AfterFailures(cd.streak + 1, c.interval))
                     && cd'.streak == cd.streak + 1
                else cd'.musicBrainz == None && cd'.streak == 0)
  {
    SecondLink(c, a, cd, now, known, answers);
    ThirdLink(c, a, cd, now, known, answers);
    MusicBrainzDelayIs(cd.streak + 1, c.interval);
  }

  // ---- when the artist is looked at again

  const QUARTER: Time := 15 * MINUTE

  predicate Delivered(c: Config, a: Artist, cd: Cooldowns, now: Time, known: bool, answers: Answers) {
    || SpotifyDelivers(c, a, cd, now, answers) || ITunesDelivers(c, a, cd, now, known, answers)
    || MusicBrainzDelivers(c, a, cd, now, known, answers)
  }

  /** Somebody was asked, nobody failed, and a source that knows whole catalogues had nothing. */
  predicate FoundEmpty(c: Config, a: Artist, cd: Cooldowns, now: Time, known: bool, answers: Answers) {
    && !SomebodyFails(c, a, cd, now, known, answers) && !Delivered(c, a, cd, now, known, answers)
    && (|| (AsksSpotify(c, a, cd, now) && answers.spotify.SpotifyReleases?)
        || (AsksITunes(c, a, cd, now, known, answers)
            && (answers.itunes.ITunesReleases? || answers.itunes.ITunesUnknown?)))
  }

  /** The regular schedule after a synchronisation in which every write succeeded. */
  function NextRegular(c: Config, a: Artist, cd: Cooldowns, now: Time, known: bool, answers: Answers): Time {
    var retry := MusicBrainzRetry(c, a, cd, now, known, answers);
    if LeavesGap(c, a, cd, now, known, answers) && IsAhead(retry, now) then retry.value
    else if WasChecked(c, a, cd, now, known, answers) then now + c.interval
    else if AsksSpotify(c, a, cd, now) && answers.spotify.SpotifyLimited?
    then now + LimitDelay(answers.spotify.limit, c.interval)
    else now + Min(QUARTER, c.interval)
  }

  predicate WasChecked(c: Config, a: Artist, cd: Cooldowns, now: Time, known: bool, answers: Answers) {
    || WaitsForSpotify(c, a, now, known) || FoundEmpty(c, a, cd, now, known, answers)
    || Delivered(c, a, cd, now, known, answers)
  }

  /** Spotify's schedule: untouched out of turn; else by what became of asking. */
  function NextSpotify(c: Config, a: Artist, cd: Cooldowns, now: Time, answers: Answers): Option<Time> {
    if !SpotifyTurn(a, now) then a.spotifyNext
    else if !c.spotify then Some(now + c.spotifyInterval)
    else if IsAhead(cd.spotify, now) then cd.spotify
    else match answers.spotify
      case SpotifyReleases(count, changed, upcoming) =>
        if count == 0 then Some(now + Min(QUARTER, c.interval))
        else Some(now + AdaptiveDelay(a.digest, c.spotifyInterval, if changed then 0 else a.unchangedChecks + 1,
                                      !changed && !upcoming))
      case SpotifyLimited(limit) => Some(now + LimitDelay(limit, c.spotifyInterval))
      case SpotifyTooLarge => Some(now + c.spotifyInterval)
      case SpotifyFailed => Some(now + Min(QUARTER, c.interval))
  }

  /** Everything rescheduling reads of the chain. */
  ghost predicate IsChain(c: Config, a: Artist, cd: Cooldowns, now: Time, known: bool, answers: Answers, st: Strategy) {
    && (st.spotify.attempted <==> AsksSpotify(c, a, cd, now))
    && (st.spotify.deferred <==> WaitsForSpotify(c, a, now, known))
    && (st.spotify.suppressed == if SpotifyTurn(a, now) && c.spotify && IsAhead(cd.spotify, now) then cd.spotify
                                 else None)
    && (st.spotify.limit == if AsksSpotify(c, a, cd, now) && answers.spotify.SpotifyLimited?
                            then Some(answers.spotify.limit) else None)
    && (st.spotify.tooLarge <==> AsksSpotify(c, a, cd, now) && answers.spotify.SpotifyTooLarge?)
    && (st.spotify.batch <==> SpotifyDelivers(c, a, cd, now, answers))
    && (st.spotify.batch ==>
          st.spotify.changed == answers.spotify.changed && st.spotify.upcoming == answers.spotify.upcoming)
    && (st.spotify.healthy <==> AsksSpotify(c, a, cd, now) && answers.spotify.SpotifyReleases?)
    && (st.itunesHealthy <==> AsksITunes(c, a, cd, now, known, answers)
                              && (answers.itunes.ITunesReleases? || answers.itunes.ITunesUnknown?))
    && (HasBatches(st) <==> Delivered(c, a, cd, now, known, answers))
    && (st.partial <==> LeavesGap(c, a, cd, now, known, answers))
    && (st.failed <==> SomebodyFails(c, a, cd, now, known, answers))
    && st.musicBrainzRetry == MusicBrainzRetry(c, a, cd, now, known, answers)
  }

  lemma ChainIs(c: Config, a: Artist, cd: Cooldowns, now: Time, known: bool, answers: Answers)
    ensures IsChain(c, a, cd, now, known, answers, Chain(c, a, cd, now, known, answers).strategy)
  {
    FirstLink(c, a, cd, now, known, answers);
    SecondLink(c, a, cd, now, known, answers);
    ThirdLink(c, a, cd, now, known, answers);
    WhoDelivers(c, a, cd, now, known, answers);
    WhatFails(c, a, cd, now, known, answers);
  }

  lemma DelaysAre(limit: Limit, interval: Time)
    ensures SyncRetryDelay(Some(limit), interval) == LimitDelay(limit, interval)
    ensures ProviderFailureRetryDelay(Some(limit), interval) == LimitDelay(limit, interval)
    ensures ProviderFailureRetryDelay(None, interval) == Min(QUARTER, interval)
  {
  }

  lemma RescheduleOutcome(
      c: Config, a: Artist, cd: Cooldowns, now: Time, known: bool, answers: Answers, st: Strategy)
    requires IsChain(c, a, cd, now, known, answers, st)
    ensures var a' := Reschedule(c, a, now, SpotifyDue(a, now), st, ALL_WRITTEN);
            && a'.nextCheck == Some(NextRegular(c, a, cd, now, known, answers))
            && a'.lastChecked == (if WasChecked(c, a, cd, now, known, answers) then Some(now) else a.lastChecked)
            && a'.identity == a.identity && a'.linked == a.linked && a'.digest == a.digest
  {
    if AsksSpotify(c, a, cd, now) && answers.spotify.SpotifyLimited? {
      DelaysAre(answers.spotify.limit, c.interval);
    }
  }

  lemma RescheduleSpotifyOutcome(
      c: Config, a: Artist, cd: Cooldowns, now: Time, known: bool, answers: Answers, st: Strategy)
    requires IsChain(c, a, cd, now, known, answers, st)
    ensures Reschedule(c, a, now, SpotifyDue(a, now), st, ALL_WRITTEN).spotifyNext
         == NextSpotify(c, a, cd, now, answers)
  {
    if AsksSpotify(c, a, cd, now) && answers.spotify.SpotifyLimited? {
      DelaysAre(answers.spotify.limit, c.spotifyInterval);
    }
  }

  /**
   When every write succeeds, the artist's two schedules after a synchronisation are these, whoever answered what; it
   counts as checked when releases were used, a catalogue was found empty, or Spotify makes it wait.
   */
  lemma SyncOutcome(c: Config, a: Artist, cd: Cooldowns, now: Time, known: bool, answers: Answers)
    ensures var a' := SyncVerified(c, a, cd, now, known, answers, ALL_WRITTEN).artist;
            && a'.nextCheck == Some(NextRegular(c, a, cd, now, known, answers))
            && a'.spotifyNext == NextSpotify(c, a, cd, now, answers)
            && a'.lastChecked == (if WasChecked(c, a, cd, now, known, answers) then Some(now) else a.lastChecked)
            && a'.identity == a.identity && a'.linked == a.linked && a'.digest == a.digest
  {
    var st := Chain(c, a, cd, now, known, answers).strategy;
    ChainIs(c, a, cd, now, known, answers);
    RescheduleOutcome(c, a, cd, now, known, answers, st);
    RescheduleSpotifyOutcome(c, a, cd, now, known, answers, st);
    assert SyncVerified(c, a, cd, now, known, answers, ALL_WRITTEN).artist
        == Reschedule(c, a, now, SpotifyDue(a, now), st, ALL_WRITTEN);
  }

  // ---- writes that fail

  /**
   After a failed write: looked at again within a quarter of an hour by every schedule that is due; or as it was, if
   that write fails too.
   */
  function Fallen(c: Config, a: Artist, now: Time, w: Writes): Artist {
    var at := now + Min(QUARTER, c.interval);
    if !w.retry then a
    else a.(nextCheck := Some(at), spotifyNext := if IsAhead(a.spotifyNext, now) then a.spotifyNext else Some(at))
  }

  function Checked(c: Config, a: Artist, now: Time): Artist {
    a.(lastChecked := Some(now), nextCheck := Some(now + c.interval))
  }

  /** Spotify's schedule is written in Spotify's turn, and only then. */
  function WithSpotify(
      c: Config, a: Artist, cd: Cooldowns, now: Time, answers: Answers, w: Writes, b: Artist): Artist
  {
    if !SpotifyTurn(a, now) then b
    else if !w.spotify then Fallen(c, b, now, w)
    else if SpotifyDelivers(c, a, cd, now, answers) then
      b.(spotifyNext := NextSpotify(c, a, cd, now, answers),
         unchangedChecks := if answers.spotify.changed then 0 else a.unchangedChecks + 1,
         lastChange := if answers.spotify.changed then Some(now) else a.lastChange)
    else b.(spotifyNext := NextSpotify(c, a, cd, now, answers))
  }

  function AfterDelivery(
      c: Config, a: Artist, cd: Cooldowns, now: Time, known: bool, answers: Answers, w: Writes): Artist
  {
    var retry := MusicBrainzRetry(c, a, cd, now, known, answers);
    if !w.apply || !w.mark then Fallen(c, a, now, w)
    else if LeavesGap(c, a, cd, now, known, answers) && IsAhead(retry, now) then
      if w.check then WithSpotify(c, a, cd, now, answers, w, Checked(c, a, now).(nextCheck := retry))
      else Fallen(c, Checked(c, a, now), now, w)
    else WithSpotify(c, a, cd, now, answers, w, Checked(c, a, now))
  }

  function AfterFailure(
      c: Config, a: Artist, cd: Cooldowns, now: Time, known: bool, answers: Answers, w: Writes): Artist
  {
    var b := WithSpotify(c, a, cd, now, answers, w, a);
    if w.check then b.(nextCheck := Some(NextRegular(c, a, cd, now, known, answers))) else Fallen(c, b, now, w)
  }

  /** The artist after a synchronisation, for every answer and every failing write. */
  lemma WriteOutcome(c: Config, a: Artist, cd: Cooldowns, now: Time, known: bool, answers: Answers, w: Writes)
    ensures SyncVerified(c, a, cd, now, known, answers, w).artist ==
      if WaitsForSpotify(c, a, now, known) then if w.mark then Checked(c, a, now) else Fallen(c, a, now, w)
      else if Delivered(c, a, cd, now, known, answers) then AfterDelivery(c, a, cd, now, known, answers, w)
      else if FoundEmpty(c, a, cd, now, known, answers) then
        if w.mark then WithSpotify(c, a, cd, now, answers, w, Checked(c, a, now)) else Fallen(c, a, now, w)
      else AfterFailure(c, a, cd, now, known, answers, w)
  {
    var st := Chain(c, a, cd, now, known, answers).strategy;
    ChainIs(c, a, cd, now, known, answers);
    assert SyncVerified(c, a, cd, now, known, answers, w).artist == Reschedule(c, a, now, SpotifyDue(a, now), st, w);
    if Delivered(c, a, cd, now, known, answers) {
      DeliveryWrites(c, a, cd, now, known, answers, w, st);
    } else if !WaitsForSpotify(c, a, now, known) {
      EmptyWrites(c, a, cd, now, known, answers, w, st);
    }
  }

  lemma FallenIs(c: Config, a: Artist, now: Time, w: Writes)
    ensures PersistenceFailure(c, a, now, w) == Fallen(c, a, now, w)
  {
  }

  lemma SpotifyWrites(
      c: Config, a: Artist, cd: Cooldowns, now: Time, known: bool, answers: Answers, w: Writes, st: Strategy, b: Artist)
    requires IsChain(c, a, cd, now, known, answers, st) && !WaitsForSpotify(c, a, now, known)
    requires b.digest == a.digest && b.unchangedChecks == a.unchangedChecks && b.lastChange == a.lastChange
    ensures AfterSpotify(c, b, now, SpotifyDue(a, now), st, w) == WithSpotify(c, a, cd, now, answers, w, b)
  {
    FallenIs(c, b, now, w);
    if AsksSpotify(c, a, cd, now) && answers.spotify.SpotifyLimited? {
      DelaysAre(answers.spotify.limit, c.spotifyInterval);
    }
  }

  lemma DeliveryWrites(
      c: Config, a: Artist, cd: Cooldowns, now: Time, known: bool, answers: Answers, w: Writes, st: Strategy)
    requires IsChain(c, a, cd, now, known, answers, st)
    requires Delivered(c, a, cd, now, known, answers) && !WaitsForSpotify(c, a, now, known)
    ensures AfterReleases(c, a, now, SpotifyDue(a, now), st, w) == AfterDelivery(c, a, cd, now, known, answers, w)
  {
    var b := Checked(c, a, now);
    FallenIs(c, a, now, w);
    FallenIs(c, b, now, w);
    SpotifyWrites(c, a, cd, now, known, answers, w, st, b);
    SpotifyWrites(c, a, cd, now, known, answers, w, st, b.(nextCheck := st.musicBrainzRetry));
  }

  lemma EmptySpotify(c: Config, a: Artist, cd: Cooldowns, now: Time, known: bool, answers: Answers, st: Strategy)
    requires IsChain(c, a, cd, now, known, answers, st) && !Delivered(c, a, cd, now, known, answers)
    ensures EmptySpotifyCheck(c, now, SpotifyDue(a, now), st)
         == if SpotifyTurn(a, now) then NextSpotify(c, a, cd, now, answers) else None
    ensures SpotifyTurn(a, now) ==> NextSpotify(c, a, cd, now, answers).Some?
  {
    if AsksSpotify(c, a, cd, now) && answers.spotify.SpotifyLimited? {
      DelaysAre(answers.spotify.limit, c.spotifyInterval);
    }
  }

  lemma EmptyWrites(
      c: Config, a: Artist, cd: Cooldowns, now: Time, known: bool, answers: Answers, w: Writes, st: Strategy)
    requires IsChain(c, a, cd, now, known, answers, st)
    requires !Delivered(c, a, cd, now, known, answers) && !WaitsForSpotify(c, a, now, known)
    ensures AfterNothing(c, a, now, SpotifyDue(a, now), st, w) ==
      if FoundEmpty(c, a, cd, now, known, answers) then
        if w.mark then WithSpotify(c, a, cd, now, answers, w, Checked(c, a, now)) else Fallen(c, a, now, w)
      else AfterFailure(c, a, cd, now, known, answers, w)
  {
    EmptySpotify(c, a, cd, now, known, answers, st);
    FallenIs(c, a, now, w);
    FallenIs(c, Checked(c, a, now), now, w);
    FallenIs(c, WithSpotify(c, a, cd, now, answers, w, a), now, w);
    if AsksSpotify(c, a, cd, now) && answers.spotify.SpotifyLimited? {
      DelaysAre(answers.spotify.limit, c.interval);
    }
  }

  /** Only a delivery by Spotify moves the streak: a changed catalogue starts over, an unchanged one counts. */
  lemma StreakOutcome(c: Config, a: Artist, cd: Cooldowns, now: Time, known: bool, answers: Answers)
    ensures var a' := SyncVerified(c, a, cd, now, known, answers, ALL_WRITTEN).artist;
            if SpotifyDelivers(c, a, cd, now, answers) then
              && a'.unchangedChecks == (if answers.spotify.changed then 0 else a.unchangedChecks + 1)
              && a'.lastChange == (if answers.spotify.changed then Some(now) else a.lastChange)
            else a'.unchangedChecks == a.unchangedChecks && a'.lastChange == a.lastChange
  {
    ChainIs(c, a, cd, now, known, answers);
  }

  /** A verified artist, and one without an identity on record, goes straight to its releases. */
  lemma VerifiedSync(c: Config, a: Artist, cd: Cooldowns, now: Time, known: bool, answers: Answers, w: Writes)
    requires a.identity.Some? ==> a.identity.value.status == Verified
    ensures SyncOne(c, a, cd, now, known, answers, w) == SyncVerified(c, a, cd, now, known, answers, w)
  {
  }

  /** Releases from any provider, and no gap left, put the artist on its interval and mark it checked. */
  lemma DeliveryIsOnSchedule(c: Config, a: Artist, cd: Cooldowns, now: Time, known: bool, answers: Answers)
    requires a.identity.Some? ==> a.identity.value.status == Verified
    requires Delivered(c, a, cd, now, known, answers) && !LeavesGap(c, a, cd, now, known, answers)
    ensures var a' := SyncOne(c, a, cd, now, known, answers, ALL_WRITTEN).artist;
            a'.nextCheck == Some(now + c.interval) && a'.lastChecked == Some(now)
  {
    VerifiedSync(c, a, cd, now, known, answers, ALL_WRITTEN);
    SyncOutcome(c, a, cd, now, known, answers);
    DeliveryIsChecked(c, a, cd, now, known, answers);
  }

  lemma DeliveryIsChecked(c: Config, a: Artist, cd: Cooldowns, now: Time, known: bool, answers: Answers)
    requires Delivered(c, a, cd, now, known, answers) && !LeavesGap(c, a, cd, now, known, answers)
    ensures WasChecked(c, a, cd, now, known, answers)
    ensures NextRegular(c, a, cd, now, known, answers) == now + c.interval
  {
  }

  // ---- unverified identities

  function IdentityDelay(attempts: int): Time {
    if attempts >= 5 then 24 * HOUR
    else if attempts <= 1 then MINUTE else [5 * MINUTE, 15 * MINUTE, HOUR][attempts - 2]
  }

  predicate Postponed(a: Artist, a': Artist, attempts: int, terminal: bool, next: Time) {
    && a'.identity == Some(Identity(if terminal then Unresolvable else Unverified, Max(0, attempts)))
    && a'.nextCheck == Some(next)
    && a'.spotifyNext == (if a.linked && (a.spotifyNext == None || a.spotifyNext.value < next) then Some(next)
                          else a.spotifyNext)
    && a' == a.(identity := a'.identity, nextCheck := a'.nextCheck, spotifyNext := a'.spotifyNext)
  }

  /**
   What becomes of an unverified identity when writes succeed: postponed to the end of a MusicBrainz cooldown, postponed
   with a new cooldown after an outage, counted and postponed after a rejection, and otherwise verified and synchronised
   with the cooldown gone.
   */
  lemma IdentityOutcome(c: Config, a: Artist, cd: Cooldowns, now: Time, known: bool, answers: Answers)
    requires AwaitsIdentity(a)
    ensures var r, n := SyncOne(c, a, cd, now, known, answers, ALL_WRITTEN), a.identity.value.attempts;
            if IsAhead(cd.musicBrainz, now) then
              r.cooldowns == cd && Postponed(a, r.artist, n, false, cd.musicBrainz.value)
            else match answers.identity
              case TimedOut => r == Synced(a, cd)
              case Transient =>
                var retry := now + AfterFailures(cd.streak + 1, c.interval);
                && r.cooldowns == cd.(musicBrainz := Some(retry), streak := cd.streak + 1)
                && Postponed(a, r.artist, n, false, retry)
              case Rejected =>
                r.cooldowns == cd && Postponed(a, r.artist, n + 1, n >= 4, now + IdentityDelay(n + 1))
              case Resolved =>
                r == SyncVerified(c, a.(identity := Some(Identity(Verified, 0))), cd.(musicBrainz := None, streak := 0),
                                  now, known, answers, ALL_WRITTEN)
  {
    MusicBrainzDelayIs(cd.streak + 1, c.interval);
  }

  /** An explicit request makes the artist due at once, and starts a doubtful identity over. */
  lemma RequestOutcome(a: Artist, now: Time)
    ensures var a' := ResetIdentity(a, now);
            && a'.nextCheck == Some(now) && a'.spotifyNext == (if a.linked then Some(now) else a.spotifyNext)
            && a'.identity == Some(if a.identity == None || a.identity.value.status == Verified
                                   then Identity(Verified, if a.identity == None then 0 else a.identity.value.attempts)
                                   else Identity(Unverified, 0))
            && a' == a.(identity := a'.identity, nextCheck := a'.nextCheck, spotifyNext := a'.spotifyNext)
  {
  }

  // ---- the adaptive delay

  /** A lively catalogue is polled around its interval, spread by the artist's digest. */
  lemma LivelyDelay(digest: nat, interval: Time, streak: int)
    requires interval >= HOUR
    ensures interval / 2 <= AdaptiveDelay(digest, interval, streak, false) < interval / 2 + interval
    ensures digest < interval ==> AdaptiveDelay(digest, interval, streak, false) == interval / 2 + digest
  {
  }

  /** A quiet one backs off to two, four and eight intervals, but never beyond a week. */
  lemma QuietDelay(digest: nat, interval: Time, streak: int)
    requires interval >= HOUR && streak >= 1
    ensures var backoff := Min(7 * 24 * HOUR, interval * (if streak >= 3 then 8 else if streak == 2 then 4 else 2));
            backoff / 2 <= AdaptiveDelay(digest, interval, streak, true) <= backoff
  {
    assert Doubled(interval, 1) == 2 * interval;
    assert Doubled(interval, 2) == 2 * Doubled(interval, 1);
    assert Doubled(interval, 3) == 2 * Doubled(interval, 2);
  }
}
