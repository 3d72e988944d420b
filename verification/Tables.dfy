/**
 The notification tables. A `Db` value is one committed state of the database; every write transaction of the
 store replaces one `Db` by the next. Columns that only carry text for people (titles, bodies, error messages,
 audit timestamps) are not part of the model.
 */
module Tables {
  import opened Prelude

  type Id = int

  // ---- what a member follows, and how

  datatype Mode = Inherit | Immediate | Digest | Off
  datatype Role = Primary | Featured | Guest
  datatype ReleaseType = Album | EP | Single | CompilationType | OtherType
  datatype Moment = Announcement | ReleaseDay

  datatype Rule = Rule(
    mode: Mode, includePrimary: bool, includeFeatured: bool,
    albums: bool, eps: bool, singles: bool, compilations: bool,
    announcements: bool, releaseDay: bool, pausedUntil: Option<Time>)

  datatype Prefs = Prefs(
    albums: bool, eps: bool, singles: bool, announcements: bool, releaseDay: bool, holdConflicts: bool)

  datatype Credit = Credit(artist: Id, role: Role)

  /** `compilation` says that a secondary type of the release is "compilation". */
  datatype Release = Release(
    artist: Id, kind: ReleaseType, compilation: bool, role: Option<Role>, credits: seq<Credit>)

  /** Everything the choice of a governing follow reads, apart from the event itself. */
  datatype Policy = Policy(
    releases: map<Id, Release>, prefs: map<Id, Prefs>, follows: set<(Id, Id)>, rules: map<(Id, Id), Rule>)

  // ---- the queues

  datatype Event = Event(user: Id, release: Id, moment: Moment, createdAt: Time)
  datatype Status = Pending | Sent | Failed | Blocked
  datatype Queue = Deliveries | Digests

  /** A row of `deliveries` (parent = event) or of `release_digest_deliveries` (parent = run). */
  datatype Row = Row(
    parent: Id, dest: Id, status: Status, attempts: nat, nextAt: Time,
    owner: Option<string>, expires: Option<Time>)

  datatype RunStatus = RunPending | RunSent | RunFailed
  datatype Run = Run(user: Id, createdAt: Time, status: RunStatus)

  datatype Destination = Destination(user: Id, enabled: bool, supported: bool, createdAt: Time)
  datatype HealthStatus = Healthy | Degraded | Paused
  datatype Health = Health(status: HealthStatus, failures: int, nextRetry: Option<Time>)

  datatype HoldStatus = Held | Released | Discarded
  datatype Hold = Hold(user: Id, release: Id, moment: Moment, status: HoldStatus)

  /** `issues` lists, per release, the summaries of its open warning and critical evidence issues. */
  datatype Db = Db(
    policy: Policy, events: map<Id, Event>, deliveries: map<Id, Row>,
    runs: map<Id, Run>, digests: map<Id, Row>,
    dests: map<Id, Destination>, health: map<Id, Health>,
    holds: map<Id, Hold>, issues: map<Id, seq<string>>)

  function Tab(db: Db, q: Queue): map<Id, Row> {
    match q case Deliveries => db.deliveries case Digests => db.digests
  }

  function WithTab(db: Db, q: Queue, t: map<Id, Row>): Db {
    match q case Deliveries => db.(deliveries := t) case Digests => db.(digests := t)
  }

  predicate Open(r: Row) {
    r.status.Pending? || r.status.Blocked?
  }

  /** No live lease: what every statement that must not disturb a sending worker tests. */
  predicate Unclaimed(r: Row, now: Time) {
    r.owner.None? || r.expires.None? || r.expires.value <= now
  }

  function Unlease(r: Row): Row {
    r.(owner := None, expires := None)
  }

  predicate IsPaused(db: Db, d: Id) {
    d in db.health && db.health[d].status.Paused?
  }

  predicate IsSupported(db: Db, d: Id) {
    d in db.dests && db.dests[d].supported
  }

  /** The status new work for a destination is queued with. */
  function QueueStatus(db: Db, d: Id): Status {
    if !IsSupported(db, d) || IsPaused(db, d) then Blocked else Pending
  }

  // ---- releases and the artists they are credited to

  function InsertAscending(x: Id, s: seq<Id>): (r: seq<Id>)
    ensures forall y :: y in r <==> y == x || y in s
  {
    if s == [] || x < s[0] then [x] + s
    else if x == s[0] then s
    else
      assert s == [s[0]] + s[1..];
      [s[0]] + InsertAscending(x, s[1..])
  }

  /** The distinct credited artists, in ascending order. */
  function CreditArtists(credits: seq<Credit>): (r: seq<Id>)
    ensures forall a :: a in r <==> exists c :: c in credits && c.artist == a
  {
    if credits == [] then []
    else
      assert credits == [credits[0]] + credits[1..];
      InsertAscending(credits[0].artist, CreditArtists(credits[1..]))
  }

  predicate Associated(rel: Release, artist: Id) {
    rel.artist == artist || exists c | c in rel.credits :: c.artist == artist
  }
}
