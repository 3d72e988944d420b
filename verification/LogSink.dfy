/**
 The asynchronous application-log sink: any number of `Enqueue` calls, one writer and `Close`, interleaved step by
 step. Each call is identified by a number; atomics, channel operations and the sink call are single steps.
 */
module LogSink {

  type Call = nat

  /** Where an `Enqueue` call stands. */
  datatype Phase =
    | Entered   // has not looked at the closed flag yet
    | Sending   // saw the sink open
    | Checking  // its entry is in the buffer, the flag is looked at again
    | Finished  // returned after seeing the sink open
    | Refused   // returned because it saw the sink closed

  datatype Writer = Running | Draining | Exited

  /** `sent` and `lost` are history: the entries in the order they were buffered, and the calls that counted a drop. */
  datatype Sink = Sink(
    capacity: nat, queue: seq<Call>, closed: bool, stopped: bool, writer: Writer, writing: seq<Call>,
    handed: seq<Call>, dropped: nat, errors: nat, calls: map<Call, Phase>, sent: seq<Call>, lost: set<Call>)

  datatype Step =
    | Enter(c: Call)
    | LoadClosed(c: Call)
    | TrySend(c: Call)
    | CheckClosed(c: Call)
    | SetClosed
    | CloseStop
    | Receive
    | Write(ok: bool)
    | SeeStop
    | FindEmpty

  predicate In(s: Sink, c: Call, p: Phase) {
    c in s.calls && s.calls[c] == p
  }

  predicate Enabled(s: Sink, step: Step) {
    match step
    case Enter(c) => c !in s.calls
    case LoadClosed(c) => In(s, c, Entered)
    case TrySend(c) => In(s, c, Sending)
    case CheckClosed(c) => In(s, c, Checking)
    case SetClosed => !s.closed
    case CloseStop => s.closed && !s.stopped
    case Receive => !s.writer.Exited? && s.writing == [] && s.queue != []
    case Write(_) => s.writing != []
    case SeeStop => s.writer.Running? && s.writing == [] && s.stopped
    case FindEmpty => s.writer.Draining? && s.writing == [] && s.queue == []
  }

  function Drop(s: Sink, c: Call): Sink {
    s.(dropped := s.dropped + 1, lost := s.lost + {c}, calls := s.calls[c := Finished])
  }

  function Next(s: Sink, step: Step): Sink
    requires Enabled(s, step)
  {
    match step
    case Enter(c) => s.(calls := s.calls[c := Entered])
    case LoadClosed(c) => s.(calls := s.calls[c := if s.closed then Refused else Sending])
    case TrySend(c) =>
      if |s.queue| < s.capacity then
        s.(queue := s.queue + [c], sent := s.sent + [c], calls := s.calls[c := Checking])
      else Drop(s, c)
    case CheckClosed(c) => if s.closed then Drop(s, c) else s.(calls := s.calls[c := Finished])
    case SetClosed => s.(closed := true)
    case CloseStop => s.(stopped := true)
    case Receive => s.(queue := s.queue[1..], writing := [s.queue[0]])
    case Write(ok) => s.(handed := s.handed + s.writing, writing := [], errors := s.errors + if ok then 0 else 1)
    case SeeStop => s.(writer := Draining)
    case FindEmpty => s.(writer := Exited)
  }

  /** A buffer of less than one entry becomes a buffer of one. */
  function Open(buffer: int): Sink {
    Sink(if buffer < 1 then 1 else buffer, [], false, false, Running, [], [], 0, 0, map[], [], {})
  }

  // ---- what every interleaving keeps

  ghost predicate Distinct(s: seq<Call>) {
    forall i, j | 0 <= i < j < |s| :: s[i] != s[j]
  }

  /** Entries are buffered, taken and handed over in one order, and a call buffers its entry at most once. */
  ghost predicate OrderInv(s: Sink) {
    && s.sent == s.handed + s.writing + s.queue && |s.writing| <= 1 && |s.queue| <= s.capacity
    && Distinct(s.sent)
    && (forall c | c in s.sent :: In(s, c, Checking) || In(s, c, Finished))
    && (forall c | In(s, c, Checking) :: c in s.sent)
  }

  /** Every call that finished after seeing the sink open buffered its entry or counted it; counts are exact. */
  ghost predicate CountInv(s: Sink) {
    && (forall c | In(s, c, Finished) :: c in s.sent || c in s.lost)
    && (forall c | c in s.lost :: In(s, c, Finished))
    && s.dropped == |s.lost| && s.errors <= |s.handed|
  }

  /** The writer leaves only after the flag was set; what is buffered later will be counted. */
  ghost predicate CloseInv(s: Sink) {
    && (s.stopped ==> s.closed) && (!s.writer.Running? ==> s.stopped)
    && (s.writer.Exited? ==> s.writing == [] && forall c | c in s.queue :: In(s, c, Checking) || c in s.lost)
  }

  ghost predicate SinkInv(s: Sink) {
    OrderInv(s) && CountInv(s) && CloseInv(s)
  }

  lemma DropKeeps(s: Sink, c: Call)
    requires SinkInv(s) && (In(s, c, Sending) || In(s, c, Checking))
    ensures SinkInv(Drop(s, c))
  {
    assert c !in s.lost;
  }

  lemma SendKeeps(s: Sink, c: Call)
    requires SinkInv(s) && In(s, c, Sending) && |s.queue| < s.capacity
    ensures SinkInv(Next(s, TrySend(c)))
  {
    var s' := Next(s, TrySend(c));
    assert c !in s.sent;
    assert s'.sent == s'.handed + s'.writing + s'.queue;
  }

  lemma WriterKeeps(s: Sink, step: Step)
    requires SinkInv(s) && Enabled(s, step) && (step.Receive? || step.Write?)
    ensures SinkInv(Next(s, step))
  {
    var s' := Next(s, step);
    if step.Receive? {
      assert s.queue == [s.queue[0]] + s.queue[1..];
    }
    assert s'.handed + s'.writing + s'.queue == s.handed + s.writing + s.queue;
  }

  lemma NextKeeps(s: Sink, step: Step)
    requires SinkInv(s) && Enabled(s, step)
    ensures SinkInv(Next(s, step))
  {
    if step.TrySend? && |s.queue| < s.capacity {
      SendKeeps(s, step.c);
    } else if step.TrySend? || (step.CheckClosed? && s.closed) {
      DropKeeps(s, step.c);
    } else if step.Receive? || step.Write? {
      WriterKeeps(s, step);
    }
  }

  // ---- runs

  ghost predicate Runs(s: Sink, steps: seq<Step>)
    decreases |steps|
  {
    steps == [] || (Enabled(s, steps[0]) && Runs(Next(s, steps[0]), steps[1..]))
  }

  function After(s: Sink, steps: seq<Step>): Sink
    requires Runs(s, steps)
    decreases |steps|
  {
    if steps == [] then s else After(Next(s, steps[0]), steps[1..])
  }

  lemma {:induction false} RunsKeep(s: Sink, steps: seq<Step>)
    requires SinkInv(s) && Runs(s, steps)
    ensures SinkInv(After(s, steps))
    decreases |steps|
  {
    if steps != [] {
      NextKeeps(s, steps[0]);
      RunsKeep(Next(s, steps[0]), steps[1..]);
    }
  }

  ghost predicate AtRest(s: Sink) {
    s.writer.Exited? && forall c | c in s.calls :: s.calls[c].Finished? || s.calls[c].Refused?
  }

  /**
   No silent loss: whatever the interleaving, once the writer has left and no call is under way, every entry whose
   call saw the sink open was handed over or counted as dropped. Entries are handed over in the order they were
   buffered, none of them twice, and the drop counter is the number of calls that counted.
   */
  lemma NoSilentLoss(buffer: int, steps: seq<Step>)
    requires Runs(Open(buffer), steps)
    ensures var s := After(Open(buffer), steps);
            && s.handed <= s.sent && Distinct(s.handed) && s.dropped == |s.lost|
            && (AtRest(s) ==> forall c | In(s, c, Finished) :: c in s.handed || c in s.lost)
  {
    RunsKeep(Open(buffer), steps);
    var s := After(Open(buffer), steps);
    assert s.handed == s.sent[..|s.handed|];
    if AtRest(s) {
      forall c | In(s, c, Finished)
        ensures c in s.handed || c in s.lost
      {
        if c !in s.lost {
          assert c in s.handed + s.writing + s.queue;
        }
      }
    }
  }

  /** A call that returned without counting a drop has its entry handed over by the time the writer leaves. */
  lemma AcceptedBeforeCloseIsWritten(s: Sink, steps: seq<Step>, c: Call)
    requires SinkInv(s) && Runs(s, steps) && In(s, c, Finished) && c !in s.lost
    requires After(s, steps).writer.Exited?
    ensures c in After(s, steps).handed
  {
    RunsKeep(s, steps);
    FinishedStays(s, steps, c);
    var s' := After(s, steps);
    assert c in s'.handed + s'.writing + s'.queue;
  }

  lemma {:induction false} FinishedStays(s: Sink, steps: seq<Step>, c: Call)
    requires Runs(s, steps) && In(s, c, Finished)
    ensures In(After(s, steps), c, Finished) && (c in After(s, steps).lost <==> c in s.lost)
    decreases |steps|
  {
    if steps != [] {
      FinishedStays(Next(s, steps[0]), steps[1..], c);
    }
  }

  // ---- nothing is lost without need

  /** A step counts an entry as lost only when the buffer is full, or once the sink is closed. */
  lemma LossNeedsCause(s: Sink, step: Step, c: Call)
    requires Enabled(s, step) && c !in s.lost && c in Next(s, step).lost
    ensures (step == TrySend(c) && |s.queue| >= s.capacity) || (step == CheckClosed(c) && s.closed)
  {
  }

  /** With room in the buffer the entry is buffered, behind those already there. */
  lemma RoomIsUsed(s: Sink, c: Call)
    requires Enabled(s, TrySend(c)) && |s.queue| < s.capacity
    ensures Next(s, TrySend(c)).queue == s.queue + [c] && Next(s, TrySend(c)).lost == s.lost
  {
  }

  /** The run finds room for every entry, and the sink open. */
  ghost predicate Roomy(s: Sink, steps: seq<Step>)
    requires Runs(s, steps)
    decreases |steps|
  {
    steps == [] ||
    (&& (steps[0].TrySend? ==> |s.queue| < s.capacity) && (steps[0].CheckClosed? ==> !s.closed)
     && Roomy(Next(s, steps[0]), steps[1..]))
  }

  /** Such a run loses nothing. */
  lemma {:induction false} RoomyRunsLoseNothing(s: Sink, steps: seq<Step>)
    requires Runs(s, steps) && Roomy(s, steps)
    ensures After(s, steps).lost == s.lost && After(s, steps).dropped == s.dropped
    decreases |steps|
  {
    if steps != [] {
      RoomyRunsLoseNothing(Next(s, steps[0]), steps[1..]);
    }
  }

  // ---- closing comes to an end

  function Owed(p: Phase): nat {
    match p
    case Entered => 5
    case Sending => 4
    case Checking => 1
    case _ => 0
  }

  ghost function CallsOwe(calls: map<Call, Phase>, known: set<Call>): nat
    requires known <= calls.Keys
    decreases known
  {
    if known == {} then 0
    else
      var c := Pick(known);
      Owed(calls[c]) + CallsOwe(calls, known - {c})
  }

  /** Some element, the same one whenever it is asked for. */
  ghost function Pick(s: set<Call>): (c: Call)
    requires s != {}
    ensures c in s
  {
    var c :| c in s;
    c
  }

  lemma {:induction false} OneOwesLess(calls: map<Call, Phase>, known: set<Call>, c: Call, p: Phase)
    requires known <= calls.Keys && c in calls
    ensures known <= calls[c := p].Keys
    ensures CallsOwe(calls[c := p], known) + (if c in known then Owed(calls[c]) else 0)
         == CallsOwe(calls, known) + (if c in known then Owed(p) else 0)
    decreases known
  {
    if known != {} {
      OneOwesLess(calls, known - {Pick(known)}, c, p);
    }
  }

  /** How many steps are still to come if no further call is made. */
  ghost function Remaining(s: Sink): nat {
    CallsOwe(s.calls, s.calls.Keys) + 2 * |s.queue| + |s.writing|
    + (match s.writer case Running => 2 case Draining => 1 case Exited => 0)
    + (if s.closed then 0 else 1) + (if s.stopped then 0 else 1)
  }

  /** Every step but a new call brings the end nearer. */
  lemma StepsRunOut(s: Sink, step: Step)
    requires SinkInv(s) && Enabled(s, step) && !step.Enter?
    ensures Remaining(Next(s, step)) < Remaining(s)
  {
    if step.LoadClosed? || step.TrySend? || step.CheckClosed? {
      CallsRunOut(s, step);
    }
  }

  lemma CallsRunOut(s: Sink, step: Step)
    requires Enabled(s, step) && (step.LoadClosed? || step.TrySend? || step.CheckClosed?)
    ensures Remaining(Next(s, step)) < Remaining(s)
  {
    var s' := Next(s, step);
    var p := s'.calls[step.c];
    assert s'.calls == s.calls[step.c := p] && s'.calls.Keys == s.calls.Keys;
    OneOwesLess(s.calls, s.calls.Keys, step.c, p);
    assert Owed(p) + 2 * |s'.queue| < Owed(s.calls[step.c]) + 2 * |s.queue|;
  }

  /** And until the sink is at rest there is such a step: closing never gets stuck. */
  lemma ClosingGoesOn(s: Sink) returns (step: Step)
    requires SinkInv(s) && !AtRest(s)
    ensures Enabled(s, step) && !step.Enter?
  {
    if !s.closed {
      step := SetClosed;
    } else if !s.stopped {
      step := CloseStop;
    } else if s.writing != [] {
      step := Write(true);
    } else if !s.writer.Exited? {
      step := if s.queue != [] then Receive else if s.writer.Running? then SeeStop else FindEmpty;
    } else {
      var c :| c in s.calls && !(s.calls[c].Finished? || s.calls[c].Refused?);
      step := match s.calls[c] case Entered => LoadClosed(c) case Sending => TrySend(c) case _ => CheckClosed(c);
    }
  }

  /** So the sink can always be brought to rest, with everything handed over or counted. */
  lemma {:induction false} ClosingEnds(s: Sink) returns (steps: seq<Step>)
    requires SinkInv(s)
    ensures Runs(s, steps) && SinkInv(After(s, steps)) && AtRest(After(s, steps))
    ensures |steps| <= Remaining(s)
    decreases Remaining(s)
  {
    if AtRest(s) {
      steps := [];
    } else {
      var step := ClosingGoesOn(s);
      NextKeeps(s, step);
      StepsRunOut(s, step);
      var rest := ClosingEnds(Next(s, step));
      steps := [step] + rest;
      assert steps[1..] == rest;
    }
  }

  // ---- failed writes

  function FailedWrites(steps: seq<Step>): nat {
    if steps == [] then 0 else (if steps[0] == Write(false) then 1 else 0) + FailedWrites(steps[1..])
  }

  /** The error counter is the number of entries the sink behind could not write. */
  lemma {:induction false} ErrorsAreCounted(s: Sink, steps: seq<Step>)
    requires Runs(s, steps)
    ensures After(s, steps).errors == s.errors + FailedWrites(steps)
    decreases |steps|
  {
    if steps != [] {
      ErrorsAreCounted(Next(s, steps[0]), steps[1..]);
    }
  }

  /** A call that finds the sink closed returns without a trace; a buffer holds at least one entry. */
  lemma ClosedRefuses(s: Sink, c: Call, buffer: int)
    requires Enabled(s, LoadClosed(c)) && s.closed
    ensures Next(s, LoadClosed(c)) == s.(calls := s.calls[c := Refused])
    ensures Open(buffer).capacity == (if buffer >= 1 then buffer else 1)
  {
  }
}
