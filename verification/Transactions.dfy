/**
 What each write transaction of the notification store does to the tables. Every function takes the committed
 state before the transaction to the committed state after it.
 */
module Transactions {
  import opened Prelude
  import opened Tables
  import opened Governing
  import Ranking

  // ---- the retry ladder

  const MAX_ATTEMPTS: nat := 5
  const SHIFT_CAP: nat := 6

  datatype Schedule = Schedule(status: Status, next: Time, willRetry: bool)

  /** `attempts` includes the attempt that has just failed. */
  function RetrySchedule(attempts: nat, now: Time): Schedule {
    Schedule(
      if attempts < MAX_ATTEMPTS then Pending else Failed,
      now + MINUTE * Power2(Min(attempts, SHIFT_CAP)),
      attempts < MAX_ATTEMPTS)
  }

  // ---- what a worker records about a row

  /** The row an owner-scoped update hits; a blank owner drops the ownership test. */
  predicate Hits(t: map<Id, Row>, id: Id, owner: string) {
    id in t && (Blank(owner) || t[id].owner == Some(owner))
  }

  function SentRow(r: Row): Row {
    Unlease(r).(status := Sent, attempts := r.attempts + 1)
  }

  function FailedRow(r: Row, attempts: nat, now: Time): Row {
    var s := RetrySchedule(attempts, now);
    Unlease(r).(status := s.status, attempts := attempts, nextAt := s.next)
  }

  function LimitedRow(r: Row, next: Time): Row {
    Unlease(r).(status := Pending, nextAt := next)
  }

  predicate HasOpen(t: map<Id, Row>, run: Id) {
    exists id | id in t :: t[id].parent == run && Open(t[id])
  }

  predicate HasFailed(t: map<Id, Row>, run: Id) {
    exists id | id in t :: t[id].parent == run && t[id].status.Failed?
  }

  /** Once no row of a digest run is open any more, the run takes the status its rows imply. */
  function CloseRun(db: Db, run: Id): Db {
    if run !in db.runs || HasOpen(db.digests, run) then db
    else db.(runs := db.runs[run := db.runs[run].(
      status := if HasFailed(db.digests, run) then RunFailed else RunSent)])
  }

  function FailRun(db: Db, run: Id): Db {
    if run !in db.runs || HasOpen(db.digests, run) then db
    else db.(runs := db.runs[run := db.runs[run].(status := RunFailed)])
  }

  function PutRow(db: Db, q: Queue, id: Id, r: Row): Db {
    WithTab(db, q, Tab(db, q)[id := r])
  }

  function CompleteRow(db: Db, q: Queue, id: Id): Db
    requires id in Tab(db, q)
  {
    var r := SentRow(Tab(db, q)[id]);
    var db1 := PutRow(db, q, id, r);
    if q.Digests? then CloseRun(db1, r.parent) else db1
  }

  function MarkSent(db: Db, q: Queue, id: Id, owner: string): Db {
    if Hits(Tab(db, q), id, owner) then CompleteRow(db, q, id) else db
  }

  predicate Finalizable(t: map<Id, Row>, id: Id) {
    id in t && Open(t[id]) && t[id].owner.None?
  }

  /** Takes only an unclaimed open row; an active claim is left to its worker. */
  function FinalizeSent(db: Db, q: Queue, id: Id): Db {
    if Finalizable(Tab(db, q), id) then CompleteRow(db, q, id) else db
  }

  function MarkFailed(db: Db, q: Queue, id: Id, attempts: nat, owner: string, now: Time): Db {
    if !Hits(Tab(db, q), id, owner) then db
    else
      var r := FailedRow(Tab(db, q)[id], attempts, now);
      var db1 := PutRow(db, q, id, r);
      if q.Digests? && r.status.Failed? then FailRun(db1, r.parent) else db1
  }

  function MarkRateLimited(db: Db, q: Queue, id: Id, owner: string, next: Time): Db {
    if !Hits(Tab(db, q), id, owner) then db
    else PutRow(db, q, id, LimitedRow(Tab(db, q)[id], next))
  }

  // ---- destination health and the circuit breaker

  const TRIP: int := 5

  datatype Verdict = Accepted | Rejected | RateLimited

  function BlockRow(r: Row, dest: Id): Row {
    if r.dest == dest && r.status.Pending? then Unlease(r).(status := Blocked) else r
  }

  function BlockAll(t: map<Id, Row>, dest: Id): map<Id, Row> {
    map id | id in t :: BlockRow(t[id], dest)
  }

  function NextHealth(db: Db, dest: Id, v: Verdict, next: Option<Time>): Health {
    var known := dest in db.health;
    match v
    case RateLimited =>
      if known then
        var h := db.health[dest];
        Health(if h.status.Paused? then Paused else Degraded, h.failures, next)
      else Health(Degraded, 0, next)
    case Accepted =>
      if known && db.health[dest].status.Paused? then db.health[dest] else Health(Healthy, 0, None)
    case Rejected =>
      var failures := if known then db.health[dest].failures + 1 else 1;
      Health(if failures >= TRIP then Paused else Degraded, failures, next)
  }

  /** Records one finished attempt; the failure that trips the circuit takes all pending work off both queues. */
  function FinishAttempt(db: Db, dest: Id, v: Verdict, next: Option<Time>): Db {
    var h := NextHealth(db, dest, v, next);
    var db1 := db.(health := db.health[dest := h]);
    if v.Rejected? && h.status.Paused? then
      db1.(deliveries := BlockAll(db.deliveries, dest), digests := BlockAll(db.digests, dest))
    else db1
  }

  // ---- recovery

  predicate Retryable(r: Row, dest: Id) {
    r.dest == dest && (r.status.Failed? || r.status.Blocked?)
  }

  function RetriedRow(db: Db, r: Row, at: Time): Row {
    Unlease(r).(status := if IsSupported(db, r.dest) then Pending else Blocked, attempts := 0, nextAt := at)
  }

  function OrElse(o: Option<Time>, t: Time): Time {
    if o.Some? then o.value else t
  }

  function RetryFailed(db: Db, user: Id, dest: Id, now: Time): Db {
    if dest !in db.dests || db.dests[dest].user != user then db
    else db.(
      deliveries := map id | id in db.deliveries ::
        var r := db.deliveries[id];
        if Retryable(r, dest)
        then RetriedRow(db, r, OrElse(DeferredUntil(db.policy, db.events, r.parent, now), now)) else r,
      digests := map id | id in db.digests ::
        var r := db.digests[id];
        if Retryable(r, dest) then RetriedRow(db, r, now) else r,
      health := db.health[dest := Health(Healthy, 0, None)])
  }

  predicate Releasable(db: Db, r: Row, now: Time) {
    && r.status.Blocked? && r.dest in db.dests && db.dests[r.dest].enabled
    && db.dests[r.dest].supported && !IsPaused(db, r.dest)
    && DeferredUntil(db.policy, db.events, r.parent, now).None?
  }

  function ReleaseBlocked(db: Db, now: Time): Db {
    db.(deliveries := map id | id in db.deliveries ::
      var r := db.deliveries[id];
      if Releasable(db, r, now) then Unlease(r).(status := Pending) else r)
  }

  predicate Orphaned(db: Db, r: Row, now: Time) {
    && Open(r) && Unclaimed(r, now) && r.parent in db.events
    && db.events[r.parent].release in db.policy.releases
    && !IsFollowed(db.policy, db.events[r.parent].user, db.events[r.parent].release)
  }

  predicate IsFollowed(p: Policy, user: Id, release: Id) {
    release in p.releases && exists f | f in p.follows :: f.0 == user && Associated(p.releases[release], f.1)
  }

  function CancelOrphaned(db: Db, now: Time): Db {
    db.(deliveries := map id | id in db.deliveries && !Orphaned(db, db.deliveries[id], now) :: db.deliveries[id])
  }

  predicate Expired(r: Row, now: Time) {
    r.status.Pending? && r.expires.Some? && r.expires.value <= now
  }

  function RecoverTab(t: map<Id, Row>, now: Time): map<Id, Row> {
    map id | id in t :: if Expired(t[id], now) then Unlease(t[id]) else t[id]
  }

  function RecoverExpired(db: Db, now: Time): Db {
    db.(deliveries := RecoverTab(db.deliveries, now), digests := RecoverTab(db.digests, now))
  }

  predicate Parked(r: Row, now: Time, cutoff: Time) {
    Open(r) && r.nextAt > cutoff && Unclaimed(r, now)
  }

  function Cutoff(now: Time, horizon: Time): Time {
    now + if horizon <= 0 then 24 * HOUR else horizon
  }

  function RepairSkewed(db: Db, now: Time, horizon: Time): Db {
    var cutoff := Cutoff(now, horizon);
    db.(
      deliveries := map id | id in db.deliveries ::
        var r := db.deliveries[id];
        if Parked(r, now, cutoff) && DeferredUntil(db.policy, db.events, r.parent, now).None?
        then Unlease(r).(nextAt := now) else r,
      digests := map id | id in db.digests ::
        var r := db.digests[id];
        if Parked(r, now, cutoff) then Unlease(r).(nextAt := now) else r)
  }

  // ---- claiming

  predicate Due(db: Db, q: Queue, now: Time, id: Id) {
    var t := Tab(db, q);
    && id in t && t[id].status.Pending? && t[id].nextAt <= now
    && t[id].dest in db.dests && db.dests[t[id].dest].enabled && db.dests[t[id].dest].supported
    && (t[id].expires.None? || t[id].expires.value <= now)
    && !IsPaused(db, t[id].dest)
    && (t[id].dest in db.health && db.health[t[id].dest].nextRetry.Some? ==>
          db.health[t[id].dest].nextRetry.value <= now)
  }

  function DueSet(db: Db, q: Queue, now: Time): set<Id> {
    set id | id in Tab(db, q) && Due(db, q, now, id)
  }

  const USER_CAP: nat := 5

  /** Queue order: by next attempt, then by id. */
  predicate Precedes(t: map<Id, Row>, a: Id, b: Id) {
    a in t && b in t && (t[a].nextAt < t[b].nextAt || (t[a].nextAt == t[b].nextAt && a < b))
  }

  function UserOf(db: Db, q: Queue, id: Id): Id {
    if id in Tab(db, q) && Tab(db, q)[id].dest in db.dests then db.dests[Tab(db, q)[id].dest].user else 0
  }

  function Users(db: Db, q: Queue, ids: set<Id>): set<Id> {
    set id | id in ids :: UserOf(db, q, id)
  }

  function QueueOrder(t: map<Id, Row>): (Id, Id) -> bool {
    (a, b) => Precedes(t, a, b)
  }

  function OfUser(db: Db, q: Queue, ids: set<Id>, user: Id): set<Id> {
    set j | j in ids && UserOf(db, q, j) == user
  }

  /** With more than one member waiting, nobody gets more than a fixed share of a batch. */
  function ShareCap(db: Db, q: Queue, due: set<Id>, limit: int): int {
    if |Users(db, q, due)| > 1 then USER_CAP else limit
  }

  /** Due rows whose rank among their member's due rows is within the share. */
  function Shared(db: Db, q: Queue, now: Time, limit: int): set<Id> {
    var due := DueSet(db, q, now);
    set id | id in due && id in
      Ranking.First(OfUser(db, q, due, UserOf(db, q, id)), QueueOrder(Tab(db, q)), ShareCap(db, q, due, limit))
  }

  function Claimable(db: Db, q: Queue, now: Time, limit: int): set<Id> {
    Ranking.First(Shared(db, q, now, limit), QueueOrder(Tab(db, q)), limit)
  }

  function OwnerName(owner: string): (r: string)
    ensures !Blank(r)
  {
    if Trim(owner) == "" then
      assert !IsSpace("legacy-worker"[0]);
      "legacy-worker"
    else
      TrimmedIsNotBlank(owner);
      Trim(owner)
  }

  /** When a lease taken now runs out; two minutes when no length is asked for. */
  function LeaseEnd(now: Time, lease: Time): (end: Time)
    ensures end > now
  {
    if lease <= 0 then now + 2 * MINUTE else now + lease
  }

  function Leased(r: Row, owner: string, expires: Time): Row {
    r.(owner := Some(owner), expires := Some(expires))
  }

  function LeaseAll(t: map<Id, Row>, ids: set<Id>, owner: string, expires: Time): map<Id, Row> {
    map id | id in t :: if id in ids then Leased(t[id], owner, expires) else t[id]
  }

  ghost predicate AllDue(db: Db, q: Queue, now: Time, ids: set<Id>) {
    forall id | id in ids :: Due(db, q, now, id)
  }

  /** Leases any selection of rows; a claim leases the rows of `Claimable`. */
  function Lease(db: Db, q: Queue, ids: set<Id>, owner: string, expires: Time): Db {
    WithTab(db, q, LeaseAll(Tab(db, q), ids, owner, expires))
  }

  // ---- follows, rules and realignment

  /** A queued delivery whose schedule a change to `artists` of `user` could affect. */
  predicate Affected(db: Db, r: Row, user: Id, artists: set<Id>) {
    Open(r) && r.parent in db.events && Correlated(db.policy, db.events[r.parent], user, artists)
  }

  function RealignedRow(db: Db, r: Row, now: Time): Row {
    if r.parent !in db.events || GovernorOf(db.policy, db.events[r.parent]).None? then r
    else match DeferredUntil(db.policy, db.events, r.parent, now)
      case Some(until) => r.(nextAt := if r.attempts == 0 then until else Max(until, r.nextAt))
      case None => if r.attempts == 0 && r.nextAt > now then r.(nextAt := now) else r
  }

  function Realign(db: Db, user: Id, artists: set<Id>, now: Time): Db {
    if user < 1 then db
    else db.(deliveries := map id | id in db.deliveries ::
      var r := db.deliveries[id];
      if Affected(db, r, user, artists) then RealignedRow(db, r, now) else r)
  }

  function Positive(artists: seq<Id>): set<Id> {
    set a | a in artists && a >= 1
  }

  function WithRules(p: Policy, user: Id, artists: set<Id>, rule: Rule): Policy {
    p.(rules := p.rules + map a | a in artists :: (user, a) := rule)
  }

  predicate FollowsAll(p: Policy, user: Id, artists: set<Id>) {
    (exists a :: a in artists) && forall a | a in artists :: (user, a) in p.follows
  }

  function UpdateRules(db: Db, user: Id, artists: seq<Id>, rule: Rule, now: Time): Db {
    var ids := Positive(artists);
    if user < 1 || !FollowsAll(db.policy, user, ids) then db
    else Realign(db.(policy := WithRules(db.policy, user, ids, rule)), user, ids, now)
  }

  /** Changes the mode of the rule rows that exist, and leaves their filters and pauses alone. */
  function WithModes(p: Policy, user: Id, artists: set<Id>, mode: Mode): Policy {
    p.(rules := map k | k in p.rules ::
      if k.0 == user && k.1 in artists then p.rules[k].(mode := mode) else p.rules[k])
  }

  function SetMode(db: Db, user: Id, artists: seq<Id>, mode: Mode, now: Time): Db {
    var ids := Positive(artists);
    if !FollowsAll(db.policy, user, ids) then db
    else Realign(db.(policy := WithModes(db.policy, user, ids, mode)), user, ids, now)
  }

  function PauseFollow(db: Db, user: Id, artist: Id, until: Option<Time>, now: Time): Db {
    if artist < 1 || (user, artist) !in db.policy.follows then db
    else
      var rule := RuleOf(db.policy, user, artist).(pausedUntil := until);
      Realign(db.(policy := WithRules(db.policy, user, {artist}, rule)), user, Positive([artist]), now)
  }

  function WithFollow(p: Policy, user: Id, artist: Id): Policy {
    p.(follows := p.follows + {(user, artist)},
       rules := if (user, artist) in p.rules then p.rules else p.rules[(user, artist) := DEFAULT_RULE])
  }

  /** A follow that comes with an accepted resolution or an imported row; the queue is not rescheduled. */
  function FollowOnly(db: Db, user: Id, artist: Id): Db {
    db.(policy := WithFollow(db.policy, user, artist))
  }

  function Follow(db: Db, user: Id, artist: Id, now: Time): Db {
    Realign(FollowOnly(db, user, artist), user, Positive([artist]), now)
  }

  function WithoutFollow(p: Policy, user: Id, artist: Id): Policy {
    p.(follows := p.follows - {(user, artist)}, rules := p.rules - {(user, artist)})
  }

  /** Rows the unfollow takes away; `db` already lacks the follow. */
  predicate Abandoned(db: Db, r: Row, user: Id, artist: Id, now: Time) {
    Orphaned(db, r, now) && Correlated(db.policy, db.events[r.parent], user, {artist})
  }

  function Abandon(db: Db, user: Id, artist: Id, now: Time): Db {
    db.(deliveries := map id | id in db.deliveries
      && !Abandoned(db, db.deliveries[id], user, artist, now) :: db.deliveries[id])
  }

  function Unfollow(db: Db, user: Id, artist: Id, now: Time): Db {
    if (user, artist) !in db.policy.follows then db
    else
      var db1 := db.(policy := WithoutFollow(db.policy, user, artist));
      Realign(Abandon(db1, user, artist, now), user, Positive([artist]), now)
  }

  // ---- admission

  /** `rows` numbers the delivery rows an admission inserts: new row id to destination. */
  datatype Admission = Admission(
    user: Id, release: Id, moment: Moment, now: Time, bypass: bool,
    eid: Id, rows: map<Id, Id>, holdId: Id)

  predicate HasKey(e: Event, user: Id, release: Id, moment: Moment) {
    e.user == user && e.release == release && e.moment == moment
  }

  predicate EventExists(db: Db, user: Id, release: Id, moment: Moment) {
    exists id | id in db.events :: HasKey(db.events[id], user, release, moment)
  }

  predicate HoldExists(db: Db, user: Id, release: Id, moment: Moment, status: HoldStatus) {
    exists h | h in db.holds :: db.holds[h] == Hold(user, release, moment, status)
  }

  predicate HasRow(t: map<Id, Row>, parent: Id, dest: Id) {
    exists id | id in t :: t[id].parent == parent && t[id].dest == dest
  }

  /** Enabled destinations at most as new as the parent that have no row for it yet. */
  function Targets(db: Db, t: map<Id, Row>, user: Id, parent: Id, createdAt: Time): set<Id> {
    set d | d in db.dests && db.dests[d].user == user && db.dests[d].enabled
      && db.dests[d].createdAt <= createdAt && !HasRow(t, parent, d)
  }

  predicate Serves(rows: map<Id, Id>, dest: Id) {
    exists id | id in rows :: rows[id] == dest
  }

  /** New row ids, one for each target. */
  predicate Fresh(t: map<Id, Row>, rows: map<Id, Id>, targets: set<Id>) {
    && rows.Keys !! t.Keys && |rows| == |targets|
    && (forall id | id in rows :: rows[id] in targets)
    && (forall d | d in targets :: Serves(rows, d))
    && (forall a, b | a in rows && b in rows && a != b :: rows[a] != rows[b])
  }

  function FanOut(db: Db, t: map<Id, Row>, parent: Id, rows: map<Id, Id>, at: Time): map<Id, Row> {
    (map id | id in rows :: Row(parent, rows[id], QueueStatus(db, rows[id]), 0, at, None, None)) + t
  }

  function EventCreated(db: Db, a: Admission): Time {
    if a.eid in db.events then db.events[a.eid].createdAt else a.now
  }

  /** The ids the database hands out: the existing event of this key or a new id, and new row ids. */
  predicate Fits(db: Db, a: Admission) {
    && (if EventExists(db, a.user, a.release, a.moment)
        then a.eid in db.events && HasKey(db.events[a.eid], a.user, a.release, a.moment)
        else a.eid !in db.events)
    && Fresh(db.deliveries, a.rows, Targets(db, db.deliveries, a.user, a.eid, EventCreated(db, a)))
    && a.holdId !in db.holds
  }

  function InsertEvent(db: Db, a: Admission, queue: bool, deliverAt: Time): Db {
    var db1 := if a.eid in db.events then db
               else db.(events := db.events[a.eid := Event(a.user, a.release, a.moment, a.now)]);
    if !queue then db1
    else db1.(deliveries := FanOut(db1, db1.deliveries, a.eid, a.rows, deliverAt))
  }

  function IssuesOf(db: Db, release: Id): seq<string> {
    if release in db.issues then db.issues[release] else []
  }

  function Join(parts: seq<string>): string {
    if parts == [] then "" else if |parts| == 1 then parts[0] else parts[0] + "; " + Join(parts[1..])
  }

  datatype Gated = Gated(db: Db, held: bool)

  /** The conflict gate: hold the event for review, or let it through when there is nothing to review. */
  function HoldConflicting(db: Db, a: Admission): Gated {
    if EventExists(db, a.user, a.release, a.moment) then Gated(db, false)
    else if HoldExists(db, a.user, a.release, a.moment, Discarded) then Gated(db, true)
    else if Blank(Join(IssuesOf(db, a.release))) then Gated(InsertEvent(db, a, true, a.now), false)
    else if HoldExists(db, a.user, a.release, a.moment, Held) then Gated(db, true)
    else Gated(db.(holds := db.holds[a.holdId := Hold(a.user, a.release, a.moment, Held)]), true)
  }

  datatype Admitted = Admitted(db: Db, admitted: bool)

  predicate TakesGate(db: Db, a: Admission, rule: Rule) {
    && PrefsOf(db.policy, a.user).holdConflicts && !a.bypass
    && (QueuesImmediate(rule, a.now) || ResumesAt(rule, a.now).Some?)
  }

  function Enqueue(db: Db, a: Admission): Admitted {
    match Governor(db.policy, a.user, a.release, a.moment)
    case None => Admitted(db, false)
    case Some(c) =>
      if TakesGate(db, a, c.rule) then
        var g := HoldConflicting(db, a);
        Admitted(g.db, !g.held)
      else
        var deferred := ResumesAt(c.rule, a.now);
        Admitted(
          InsertEvent(db, a, QueuesImmediate(c.rule, a.now) || deferred.Some?, OrElse(deferred, a.now)),
          !EffectiveMode(c.rule, a.now).Off? || deferred.Some?)
  }

  // ---- holds

  predicate ForHold(h: Hold, a: Admission) {
    a.user == h.user && a.release == h.release && a.moment == h.moment
  }

  function SettleHold(db: Db, h: Id, status: HoldStatus): Db {
    if h in db.holds && db.holds[h].status.Held?
    then db.(holds := db.holds[h := db.holds[h].(status := status)]) else db
  }

  predicate Reviewable(db: Db, h: Id, status: HoldStatus) {
    h in db.holds && db.holds[h].status == status && IsFollowed(db.policy, db.holds[h].user, db.holds[h].release)
  }

  /** Re-admits one held event under the current rules, and releases the hold only if it was admitted. */
  function ReAdmit(db: Db, h: Id, a: Admission): Db {
    var r := Enqueue(db, a);
    if r.admitted then SettleHold(r.db, h, Released) else r.db
  }

  /** Evidence-driven drains stop at open issues, approvals do not. */
  predicate Drains(db: Db, h: Id, a: Admission) {
    Reviewable(db, h, Held) && ForHold(db.holds[h], a) && (a.bypass || IssuesOf(db, a.release) == [])
  }

  /** One turn of the drain loop. */
  function DrainHold(db: Db, h: Id, a: Admission): Db {
    if Drains(db, h, a) then ReAdmit(db, h, a) else db
  }

  function NotifyHold(db: Db, user: Id, h: Id, a: Admission): Db {
    if Reviewable(db, h, Held) && db.holds[h].user == user && ForHold(db.holds[h], a) && a.bypass
    then ReAdmit(db, h, a) else db
  }

  function DiscardHold(db: Db, user: Id, h: Id): Db {
    if Reviewable(db, h, Held) && db.holds[h].user == user then SettleHold(db, h, Discarded) else db
  }

  function RestoreHold(db: Db, user: Id, h: Id): Db {
    if Reviewable(db, h, Discarded) && db.holds[h].user == user
    then db.(holds := db.holds[h := db.holds[h].(status := Held)]) else db
  }

  /** An explicit approval re-creates a missing event unless the member discarded a hold of the release. */
  function Approve(db: Db, a: Admission, bypassBlocking: bool): Db {
    if (exists id | id in db.events :: db.events[id].user == a.user && db.events[id].release == a.release)
       || (exists h | h in db.holds ::
             db.holds[h].user == a.user && db.holds[h].release == a.release && db.holds[h].status.Discarded?)
       || !IsFollowed(db.policy, a.user, a.release)
       || (!bypassBlocking && IssuesOf(db, a.release) != [])
    then db
    else Enqueue(db, a.(bypass := true)).db
  }

  // ---- digests

  /** `found` is the run the period lookup returned; a new run gets the id `runId`. */
  datatype DigestPlan = DigestPlan(user: Id, found: Option<Id>, runId: Id, now: Time, rows: map<Id, Id>)

  predicate HasRows(t: map<Id, Row>, run: Id) {
    exists id | id in t :: t[id].parent == run
  }

  function RunFor(plan: DigestPlan): Id {
    if plan.found.Some? then plan.found.value else plan.runId
  }

  predicate FitsDigest(db: Db, plan: DigestPlan) {
    && (if plan.found.Some?
        then plan.found.value in db.runs && db.runs[plan.found.value].user == plan.user
        else plan.runId !in db.runs)
    && Fresh(db.digests, plan.rows, Targets(db, db.digests, plan.user, RunFor(plan),
         if plan.found.Some? && plan.found.value in db.runs then db.runs[plan.found.value].createdAt else plan.now))
  }

  function QueueDigest(db: Db, plan: DigestPlan): Db {
    if plan.found.Some? then
      var run := plan.found.value;
      if run !in db.runs || !db.runs[run].status.RunPending? || HasRows(db.digests, run) then db
      else db.(digests := FanOut(db, db.digests, run, plan.rows, plan.now))
    else
      var db1 := db.(runs := db.runs[plan.runId := Run(plan.user, plan.now, RunPending)]);
      db1.(digests := FanOut(db1, db1.digests, plan.runId, plan.rows, plan.now))
  }

  /** The cheap pre-check: the run lookup already decides the period. */
  predicate PeriodSettled(db: Db, found: Option<Id>) {
    found.Some? && found.value in db.runs
    && (!db.runs[found.value].status.RunPending? || HasRows(db.digests, found.value))
  }

  // ---- edits made elsewhere

  function AddDestination(db: Db, d: Id, user: Id, supported: bool, now: Time): Db {
    if d in db.dests then db else db.(dests := db.dests[d := Destination(user, true, supported, now)])
  }

  /** Preference edits and catalogue changes; neither touches the queue. */
  function EditPolicy(db: Db, releases: map<Id, Release>, prefs: map<Id, Prefs>): Db {
    db.(policy := db.policy.(releases := releases, prefs := prefs))
  }

  function EditIssues(db: Db, issues: map<Id, seq<string>>): Db {
    db.(issues := issues)
  }
}
