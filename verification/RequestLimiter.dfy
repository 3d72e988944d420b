/**
 The shared limiter of notification requests. Every method below is one section under the limiter's lock, so the
 interleavings of any number of senders are exactly the sequences of calls of these methods.
 */
module RequestLimiter {
  import opened Prelude

  /** The hash of a bot token or of a destination URL. */
  type Key = string

  const MAX_COOLDOWN: Time := HOUR

  // ---- spacing

  ghost predicate Spaced(slots: seq<Time>, interval: Time) {
    forall i | 0 < i < |slots| :: slots[i] - slots[i - 1] >= interval
  }

  lemma {:induction false} SpacedFromEnd(slots: seq<Time>, interval: Time, i: nat)
    requires Spaced(slots, interval) && interval >= 0 && i < |slots|
    ensures slots[|slots| - 1] - slots[i] >= (|slots| - 1 - i) * interval
    decreases |slots|
  {
    if i < |slots| - 1 {
      SpacedFromEnd(slots[..|slots| - 1], interval, i);
    }
  }

  /** The slots that fall into the window from `a` up to, but not including, `a + length`. */
  function InWindow(slots: seq<Time>, a: Time, length: Time): seq<Time> {
    if slots == [] then []
    else
      var last := slots[|slots| - 1];
      InWindow(slots[..|slots| - 1], a, length) + if a <= last < a + length then [last] else []
  }

  lemma SpacedSnoc(w: seq<Time>, interval: Time, last: Time)
    requires Spaced(w, interval) && (w != [] ==> last - w[|w| - 1] >= interval)
    ensures Spaced(w + [last], interval)
  {
  }

  lemma {:induction false} InWindowSpaced(slots: seq<Time>, interval: Time, a: Time, length: Time)
    requires Spaced(slots, interval) && interval >= 0
    ensures var w := InWindow(slots, a, length);
            && Spaced(w, interval)
            && (forall x | x in w :: a <= x < a + length)
            && (w != [] ==> slots != [] && w[|w| - 1] <= slots[|slots| - 1])
  {
    if slots != [] {
      var n := |slots| - 1;
      var front := slots[..n];
      assert n > 0 ==> slots[n] - slots[n - 1] >= interval;
      InWindowSpaced(front, interval, a, length);
      SpacedSnoc(InWindow(front, a, length), interval, slots[n]);
    }
  }

  function CeilDiv(a: int, b: int): int
    requires b > 0
  {
    (a + b - 1) / b
  }

  lemma AtLeastQuotient(n: int, b: int, a: int)
    requires b > 0 && n * b <= a
    ensures n <= a / b
  {
    var q := a / b;
    if n > q {
      ProductGrows(q + 1, n, b);
      assert false;
    }
  }

  lemma FirstToLast(w: seq<Time>, interval: Time)
    requires Spaced(w, interval) && interval > 0 && w != []
    ensures w[|w| - 1] - w[0] >= (|w| - 1) * interval
  {
    SpacedFromEnd(w, interval, 0);
  }

  lemma CountBound(n: int, interval: int, span: int, length: int)
    requires interval > 0 && (n - 1) * interval <= span < length
    ensures n <= CeilDiv(length, interval)
  {
    assert n * interval == (n - 1) * interval + interval;
    AtLeastQuotient(n, interval, length + interval - 1);
  }

  /**
   Spaced slots bound the rate: a window of any length holds at most its length divided by the interval, rounded up.
   */
  lemma WindowBound(slots: seq<Time>, interval: Time, a: Time, length: Time)
    requires Spaced(slots, interval) && interval > 0 && length >= 0
    ensures |InWindow(slots, a, length)| <= CeilDiv(length, interval)
  {
    var w := InWindow(slots, a, length);
    InWindowSpaced(slots, interval, a, length);
    if w != [] {
      FirstToLast(w, interval);
      assert w[|w| - 1] in w && w[0] in w;
      CountBound(|w|, interval, w[|w| - 1] - w[0], length);
    } else {
      CountBound(0, interval, -1, length);
    }
  }

  // ---- the limiter

  datatype Entry = Refused(retryAfter: Time) | Unpaced | Slot(at: Time)

  predicate CoolingDown(cooldowns: map<Key, Time>, key: Key, now: Time) {
    key in cooldowns && cooldowns[key] > now
  }

  /** What the first locked section makes of the limiter's state. */
  datatype Section = Section(entry: Entry, next: Option<Time>, cooldowns: map<Key, Time>)

  function Entering(
      interval: Time, next: Option<Time>, cooldowns: map<Key, Time>, key: Key, started: Time, checked: Time): Section
  {
    if CoolingDown(cooldowns, key, checked) then Section(Refused(cooldowns[key] - checked), next, cooldowns)
    else if interval <= 0 then Section(Unpaced, next, cooldowns - {key})
    else
      var slot := if next.None? || next.value < started then started else next.value;
      Section(Slot(slot), Some(slot + interval), cooldowns - {key})
  }

  /** Cooldowns are bounded and only ever extended. */
  function Banned(cooldowns: map<Key, Time>, key: Key, delay: Time, now: Time): map<Key, Time> {
    var target := now + Min(delay, MAX_COOLDOWN);
    if delay <= 0 || (key in cooldowns && target <= cooldowns[key]) then cooldowns else cooldowns[key := target]
  }

  class Limiter {
    const interval: Time
    var next: Option<Time>
    var cooldowns: map<Key, Time>
    /** Every slot ever reserved, in the order of reservation. */
    ghost var slots: seq<Time>

    ghost predicate Valid()
      reads this
    {
      Paced(slots, next, interval)
    }

    constructor (interval: Time)
      ensures Valid() && this.interval == interval && slots == [] && cooldowns == map[]
    {
      this.interval := interval;
      next, cooldowns, slots := None, map[], [];
    }

    /**
     The first section: refuse during the key's cooldown, else reserve the next slot. `started` was read before
     the lock was taken and `checked` inside it; neither is assumed to be monotone across calls.
     */
    method Enter(key: Key, started: Time, checked: Time) returns (e: Entry)
      requires Valid()
      modifies this
      ensures Valid()
      ensures Section(e, next, cooldowns) == Entering(interval, old(next), old(cooldowns), key, started, checked)
      ensures slots == old(slots) + if e.Slot? then [e.at] else []
    {
      if key in cooldowns && cooldowns[key] > checked {
        return Refused(cooldowns[key] - checked);
      }
      cooldowns := cooldowns - {key};
      if interval <= 0 {
        return Unpaced;
      }
      var slot := if next.None? || next.value < started then started else next.value;
      next := Some(slot + interval);
      slots := slots + [slot];
      e := Slot(slot);
    }

    /** The second section, once the timer of a reserved slot has fired: look at the key's cooldown again. */
    method Wake(key: Key, now: Time) returns (refusedFor: Option<Time>)
      ensures refusedFor.Some? <==> CoolingDown(cooldowns, key, now)
      ensures refusedFor.Some? ==> refusedFor.value == cooldowns[key] - now
    {
      if key in cooldowns && cooldowns[key] > now {
        return Some(cooldowns[key] - now);
      }
      refusedFor := None;
    }

    method Cooldown(key: Key, delay: Time, now: Time)
      modifies this`cooldowns
      ensures cooldowns == Banned(old(cooldowns), key, delay, now)
    {
      if delay <= 0 {
        return;
      }
      var target := now + if delay > MAX_COOLDOWN then MAX_COOLDOWN else delay;
      if key !in cooldowns || target > cooldowns[key] {
        cooldowns := cooldowns[key := target];
      }
    }
  }

  /** The reserved slots are spaced, and the next one is reckoned from the last. */
  ghost predicate Paced(slots: seq<Time>, next: Option<Time>, interval: Time) {
    && Spaced(slots, interval)
    && (slots == [] ==> next.None?)
    && (slots != [] ==> next == Some(slots[|slots| - 1] + interval))
  }

  // ---- many senders

  /** What a sender has reached: a reserved slot, permission to send, or a refusal. */
  datatype Sender =
    | Waiting(key: Key, at: Time)
    | Passed(key: Key, slot: Option<Time>, checked: Time)
    | Turned(key: Key)

  datatype Shared = Shared(
    interval: Time, next: Option<Time>, cooldowns: map<Key, Time>, senders: map<nat, Sender>, slots: seq<Time>)

  datatype Move =
    | Start(sender: nat, key: Key, started: Time, checked: Time, later: Time)
    | Fire(sender: nat, now: Time)
    | Abandon(sender: nat)
    | Ban(key: Key, delay: Time, now: Time)

  /** `later` is the reading that decides whether a reserved slot lies ahead; a timer fires no earlier than its slot. */
  predicate CanMove(s: Shared, m: Move) {
    match m
    case Start(i, _, _, _, _) => i !in s.senders
    case Fire(i, now) => i in s.senders && s.senders[i].Waiting? && now >= s.senders[i].at
    case Abandon(i) => i in s.senders && s.senders[i].Waiting?
    case Ban(_, _, _) => true
  }

  function Put(s: Shared, i: nat, sender: Sender): Shared {
    s.(senders := s.senders[i := sender])
  }

  function Moved(s: Shared, m: Move): Shared
    requires CanMove(s, m)
  {
    match m
    case Start(i, key, started, checked, later) =>
      var e := Entering(s.interval, s.next, s.cooldowns, key, started, checked);
      var s1 := s.(next := e.next, cooldowns := e.cooldowns);
      (match e.entry
       case Refused(_) => Put(s1, i, Turned(key))
       case Unpaced => Put(s1, i, Passed(key, None, checked))
       case Slot(at) =>
         Put(s1.(slots := s.slots + [at]), i, if at <= later then Passed(key, Some(at), checked) else Waiting(key, at)))
    case Fire(i, now) =>
      var w := s.senders[i];
      Put(s, i, if CoolingDown(s.cooldowns, w.key, now) then Turned(w.key) else Passed(w.key, Some(w.at), now))
    case Abandon(i) => Put(s, i, Turned(s.senders[i].key))
    case Ban(key, delay, now) => s.(cooldowns := Banned(s.cooldowns, key, delay, now))
  }

  ghost predicate PacingInv(s: Shared) {
    && Paced(s.slots, s.next, s.interval)
    && (forall i | i in s.senders && s.senders[i].Waiting? :: s.senders[i].at in s.slots)
    && (s.interval > 0 ==> forall i | i in s.senders && s.senders[i].Passed? ::
          s.senders[i].slot.Some? && s.senders[i].slot.value in s.slots)
  }

  lemma MoveKeepsPacing(s: Shared, m: Move)
    requires PacingInv(s) && CanMove(s, m)
    ensures PacingInv(Moved(s, m)) && Moved(s, m).interval == s.interval && s.slots <= Moved(s, m).slots
  {
  }

  /** A sender passes only after its own slot and outside its key's cooldown at its last look under the lock. */
  lemma PassingIsTimely(s: Shared, m: Move, i: nat)
    requires PacingInv(s) && CanMove(s, m)
    requires i in Moved(s, m).senders && Moved(s, m).senders[i].Passed?
    requires i !in s.senders || Moved(s, m).senders[i] != s.senders[i]
    ensures var p := Moved(s, m).senders[i];
            && !CoolingDown(s.cooldowns, p.key, p.checked)
            && match m
               case Start(_, _, _, checked, later) => p.checked == checked && (p.slot.Some? ==> p.slot.value <= later)
               case Fire(_, now) => p.checked == now && p.slot.Some? && p.slot.value <= now
               case _ => false
  {
  }

  /** A ban of another key changes nothing for a sender, whatever it does next. */
  lemma BansAreIndependent(s: Shared, ban: Move, m: Move, i: nat)
    requires ban.Ban? && CanMove(s, m)
    requires (m.Start? && m.sender == i && m.key != ban.key)
          || (m.Fire? && m.sender == i && s.senders[i].Waiting? && s.senders[i].key != ban.key)
    ensures CanMove(Moved(s, ban), m)
    ensures Moved(Moved(s, ban), m).senders == Moved(s, m).senders
    ensures Moved(Moved(s, ban), m).next == Moved(s, m).next
  {
  }

  ghost predicate Moves(s: Shared, ms: seq<Move>)
    decreases |ms|
  {
    ms == [] || (CanMove(s, ms[0]) && Moves(Moved(s, ms[0]), ms[1..]))
  }

  function AfterMoves(s: Shared, ms: seq<Move>): Shared
    requires Moves(s, ms)
    decreases |ms|
  {
    if ms == [] then s else AfterMoves(Moved(s, ms[0]), ms[1..])
  }

  /** Whatever the senders, the bans and the clock do, no window of time holds more slots than its length allows. */
  lemma {:induction false} RateBound(s: Shared, ms: seq<Move>, a: Time, length: Time)
    requires PacingInv(s) && Moves(s, ms) && s.interval > 0 && length >= 0
    ensures PacingInv(AfterMoves(s, ms))
    ensures |InWindow(AfterMoves(s, ms).slots, a, length)| <= CeilDiv(length, s.interval)
    decreases |ms|
  {
    if ms == [] {
      WindowBound(s.slots, s.interval, a, length);
    } else {
      MoveKeepsPacing(s, ms[0]);
      RateBound(Moved(s, ms[0]), ms[1..], a, length);
    }
  }

  /** A limiter nobody has used yet. */
  function Fresh(interval: Time): Shared {
    Shared(interval, None, map[], map[], [])
  }

  lemma FreshIsPaced(interval: Time)
    ensures PacingInv(Fresh(interval))
  {
  }

  /** From a fresh limiter on, no window of time ever holds more slots than its length allows. */
  lemma FreshRateBound(interval: Time, ms: seq<Move>, a: Time, length: Time)
    requires Moves(Fresh(interval), ms) && interval > 0 && length >= 0
    ensures |InWindow(AfterMoves(Fresh(interval), ms).slots, a, length)| <= CeilDiv(length, interval)
  {
    FreshIsPaced(interval);
    RateBound(Fresh(interval), ms, a, length);
  }

  ghost predicate Represents(l: Limiter, s: Shared)
    reads l
  {
    l.interval == s.interval && l.next == s.next && l.cooldowns == s.cooldowns && l.slots == s.slots
  }

  /** The limiter object takes every start of a sender just as the machine does. */
  method StartOn(
      l: Limiter, ghost s: Shared, key: Key, ghost sender: nat, started: Time, checked: Time, ghost later: Time)
    returns (e: Entry)
    requires l.Valid() && Represents(l, s) && CanMove(s, Start(sender, key, started, checked, later))
    modifies l
    ensures l.Valid() && Represents(l, Moved(s, Start(sender, key, started, checked, later)))
  {
    e := l.Enter(key, started, checked);
    assert e.Slot? || s.slots + [] == s.slots;
  }

  /** And every ban. */
  method BanOn(l: Limiter, ghost s: Shared, key: Key, delay: Time, now: Time)
    requires l.Valid() && Represents(l, s)
    modifies l
    ensures l.Valid() && Represents(l, Moved(s, Ban(key, delay, now)))
  {
    l.Cooldown(key, delay, now);
  }

  // ---- what a ban does

  /**
   A ban lasts for its delay, an hour at most, unless the key is banned for longer already; a delay of nothing bans
   nobody.
   */
  lemma BanOutcome(cooldowns: map<Key, Time>, key: Key, delay: Time, now: Time)
    ensures var cooldowns' := Banned(cooldowns, key, delay, now);
            var until := now + (if delay > HOUR then HOUR else delay);
            && (forall k | k != key :: (k in cooldowns' <==> k in cooldowns)
                                       && (k in cooldowns ==> cooldowns'[k] == cooldowns[k]))
            && (if delay <= 0 then cooldowns' == cooldowns
                else key in cooldowns'
                     && cooldowns'[key] == if key in cooldowns && cooldowns[key] > until then cooldowns[key] else until)
  {
  }

  /** Every reading of the clock that the key's senders take lies before `until`. */
  predicate ReadsBefore(m: Move, key: Key, until: Time, s: Shared) {
    match m
    case Start(_, k, _, checked, _) => k == key ==> checked < until
    case Fire(i, now) => i in s.senders && s.senders[i].key == key ==> now < until
    case _ => true
  }

  ghost predicate AllBefore(s: Shared, ms: seq<Move>, key: Key, until: Time)
    requires Moves(s, ms)
    decreases |ms|
  {
    ms == [] || (ReadsBefore(ms[0], key, until, s) && AllBefore(Moved(s, ms[0]), ms[1..], key, until))
  }

  predicate IsBanned(s: Shared, key: Key, until: Time) {
    key in s.cooldowns && s.cooldowns[key] >= until
  }

  predicate Passes(s: Shared, i: nat) {
    i in s.senders && s.senders[i].Passed?
  }

  lemma BanHolds(s: Shared, m: Move, key: Key, until: Time)
    requires CanMove(s, m) && IsBanned(s, key, until) && ReadsBefore(m, key, until, s)
    ensures IsBanned(Moved(s, m), key, until)
    ensures forall i | Passes(Moved(s, m), i) && !Passes(s, i) :: Moved(s, m).senders[i].key != key
  {
  }

  /**
   Nobody passes with a banned key: until a sender of the key reads the clock at or past the end of the ban, no sender
   of it that was not through already gets through, whatever the others do.
   */
  lemma {:induction false} BannedKeysDoNotPass(s: Shared, ms: seq<Move>, key: Key, until: Time, i: nat)
    requires Moves(s, ms) && IsBanned(s, key, until) && AllBefore(s, ms, key, until)
    requires Passes(AfterMoves(s, ms), i) && !Passes(s, i)
    ensures AfterMoves(s, ms).senders[i].key != key
    decreases |ms|
  {
    BanHolds(s, ms[0], key, until);
    if Passes(Moved(s, ms[0]), i) {
      PassedStays(Moved(s, ms[0]), ms[1..], i);
    } else {
      BannedKeysDoNotPass(Moved(s, ms[0]), ms[1..], key, until, i);
    }
  }

  lemma {:induction false} PassedStays(s: Shared, ms: seq<Move>, i: nat)
    requires Moves(s, ms) && Passes(s, i)
    ensures Passes(AfterMoves(s, ms), i) && AfterMoves(s, ms).senders[i] == s.senders[i]
    decreases |ms|
  {
    if ms != [] {
      PassedStays(Moved(s, ms[0]), ms[1..], i);
    }
  }

  // ---- what a start gets

  /** Only a banned key is refused; everyone else gets the earliest slot that keeps the pace. */
  lemma StartOutcome(s: Shared, m: Move)
    requires m.Start? && CanMove(s, m) && PacingInv(s)
    ensures var s' := Moved(s, m);
            var slot := if s.slots == [] then m.started else MaxOf(m.started, s.slots[|s.slots| - 1] + s.interval);
            && m.sender in s'.senders
            && (if m.key in s.cooldowns && s.cooldowns[m.key] > m.checked then
                  s'.senders[m.sender] == Turned(m.key) && s'.slots == s.slots
                else if s.interval <= 0 then
                  s'.senders[m.sender] == Passed(m.key, None, m.checked) && s'.slots == s.slots
                else
                  && s'.slots == s.slots + [slot]
                  && s'.senders[m.sender] == if slot <= m.later then Passed(m.key, Some(slot), m.checked)
                                             else Waiting(m.key, slot))
  {
  }

  function MaxOf(a: Time, b: Time): Time {
    if a < b then b else a
  }

  /** A timer that fires lets its sender through unless the key was banned meanwhile. */
  lemma FireOutcome(s: Shared, m: Move)
    requires m.Fire? && CanMove(s, m)
    ensures var w := s.senders[m.sender];
            Moved(s, m) == s.(senders := s.senders[m.sender :=
              if w.key in s.cooldowns && s.cooldowns[w.key] > m.now then Turned(w.key)
              else Passed(w.key, Some(w.at), m.now)])
  {
  }
}
