/**
 The controller on its event loop: every await-free segment is one event, and `Run` plays any
 interleaving of submissions, worker turns, command ends, timer callbacks and shutdown.
 */
module ActionProtocol {
  import opened Common
  import opened Actions

  /** Where `shutdown` stands; the deadline is the one it was called with. */
  datatype Phase =
    | Open
    | WaitActive(deadline: int)
    | Terminating(deadline: int, direction: Direction)
    | Stopping(deadline: int, incomplete: bool)
    | OffCommand(deadline: int)
    | Closed

  datatype Machine = Machine(
    c: Controller,
    now: int,
    phase: Phase,
    live: map<nat, int>,             // timers the event loop will still fire, with their delays
    nextTimer: nat,
    running: nat,                    // calls into the runner that have not returned
    submitted: seq<Message>,         // every accepted message
    taken: seq<Message>,             // messages the worker took from the queue
    outcomes: seq<bool>,             // how the worker's commands ended
    workerCommands: seq<Command>,
    shutdownCommands: seq<Command>)

  datatype Event =
    | Start
    | Submit(request: Request, timeout: Option<int>)
    | Take
    | Finish(success: bool, residue: bool)   // residue: what a failed command left behind
    | Fire(handle: nat)
    | Tick(elapsed: nat)
    | Shutdown(deadline: int)
    | WaitOver
    | CancelWorker
    | Terminated
    | Conclude

  function Init(config: Config): Machine {
    Machine(Fresh(config), 0, Open, map[], 0, 0, [], [], [], [], [])
  }

  predicate Enabled(m: Machine, e: Event) {
    match e
    case Start => true
    case Submit(_, _) => true
    case Take => m.c.worker == Live && m.c.active == None && m.c.queue != []
    case Finish(_, _) => m.c.active.Some?
    case Fire(handle) => handle in m.live
    case Tick(_) => true
    case Shutdown(_) => true
    case WaitOver => m.phase.WaitActive? && (m.c.active == None || m.now >= m.phase.deadline)
    case CancelWorker => m.c.worker == Live && (m.phase.Terminating? || m.phase.Stopping?)
    case Terminated => m.phase.Terminating? && m.c.worker != Live
    case Conclude => m.phase.Stopping? && m.c.worker != Live
  }

  function Unscheduled(live: map<nat, int>, timer: Option<nat>): map<nat, int> {
    if timer.Some? then live - {timer.value} else live
  }

  /** An accepted submission, as the trace sees it. */
  function Submitted(m: Machine, request: Request, timeout: Option<int>): Machine {
    if !m.c.accepting then m
    else m.(c := Enqueue(m.c, request, timeout),
            submitted := m.submitted + [Message(m.c.nextSequence, request, timeout)])
  }

  function Next(m: Machine, e: Event): Machine
    requires m.c.Consistent() && Enabled(m, e)
  {
    match e
    case Start => if m.c.accepting && m.c.worker == Unstarted then m.(c := m.c.(worker := Live)) else m
    case Submit(request, timeout) => Submitted(m, request, timeout)
    case Take => TakeNext(m)
    case Finish(success, _) => FinishNext(m, success)
    case Fire(handle) => Submitted(m.(c := m.c.(timer := None), live := m.live - {handle}), AutoOff, None)
    case Tick(elapsed) => m.(now := m.now + elapsed)
    case Shutdown(deadline) => if m.phase.Open? then ShutdownNext(m, deadline) else m
    case WaitOver =>
      m.(phase := if m.c.active == None then Stopping(m.phase.deadline, false)
                  else Terminating(m.phase.deadline, m.c.active.value.direction))
    case CancelWorker =>
      m.(c := m.c.(worker := Ended, active := None),
         running := if m.c.active.Some? && m.running > 0 then m.running - 1 else m.running)
    case Terminated =>
      m.(c := m.c.(state := Uncertain, failed := Some(m.phase.direction)),
         phase := Stopping(m.phase.deadline, true))
    case Conclude => ConcludeNext(m)
  }

  function TakeNext(m: Machine): Machine
    requires m.c.Consistent() && m.c.queue != []
  {
    var head := m.c.queue[0];
    var (c, command) := Begin(m.c.(queue := m.c.queue[1..]), head, None);
    m.(c := c,
       live := Unscheduled(m.live, m.c.timer),
       taken := m.taken + [head],
       running := if command.Some? then m.running + 1 else m.running,
       workerCommands := if command.Some? then m.workerCommands + [command.value] else m.workerCommands)
  }

  function FinishNext(m: Machine, success: bool): Machine
    requires m.c.Consistent() && m.c.active.Some?
  {
    var command := m.c.active.value;
    var last := m.phase.OffCommand?;
    var ended := m.(c := Complete(m.c, success, !last, m.nextTimer),
                    running := if m.running > 0 then m.running - 1 else 0);
    if last then ended.(phase := Closed)
    else if ArmsTimer(m.c, command, success, true)
    then ended.(live := ended.live[m.nextTimer := command.message.toggleTimeout.value],
                nextTimer := m.nextTimer + 1,
                outcomes := m.outcomes + [success])
    else ended.(outcomes := m.outcomes + [success])
  }

  function ShutdownNext(m: Machine, deadline: int): Machine {
    m.(c := CloseIntake(m.c),
       live := Unscheduled(m.live, m.c.timer),
       phase := if m.c.active == None then Stopping(deadline, false)
                else if m.now < deadline then WaitActive(deadline)
                else Terminating(deadline, m.c.active.value.direction))
  }

  function ConcludeNext(m: Machine): Machine
    requires m.c.Consistent() && m.phase.Stopping?
  {
    if !m.c.config.offOnShutdown || m.now >= m.phase.deadline then m.(phase := Closed)
    else
      var (c, command) := Begin(m.c, Message(m.c.nextSequence, Off, None), Some(m.phase.deadline));
      if command == None then m.(c := c, phase := Closed)
      else m.(c := c,
              phase := OffCommand(m.phase.deadline),
              running := m.running + 1,
              shutdownCommands := m.shutdownCommands + [command.value])
  }

  /** The machine after the events, or None when one of them could not happen. */
  function Run(config: Config, events: seq<Event>): (r: Option<Machine>)
    ensures r.Some? ==> r.value.c.Consistent()
  {
    if events == [] then Some(Init(config))
    else
      var before := Run(config, events[..|events| - 1]);
      if before.Some? && Enabled(before.value, events[|events| - 1])
      then Some(Next(before.value, events[|events| - 1]))
      else None
  }

  // ---------------------------------------------------------------------------
  // A sequential reading of the worker: one message after another, no loop, no timers.
  // ---------------------------------------------------------------------------

  datatype Sequential = Sequential(
    state: ActionState, failed: Option<Direction>, commands: seq<Command>, pending: bool)

  /** Handling one message in order, taking the next unused outcome when a command is needed. */
  function Handle(config: Config, s: Sequential, m: Message, outcomes: seq<bool>): Sequential {
    var d := match m.request
             case On => TurnOn
             case Off => TurnOff
             case AutoOff => TurnOff
             case Toggle => if s.failed.Some? then s.failed.value
                            else if s.state == StateOn then TurnOff else TurnOn;
    var skipped := || (s.failed == Some(TurnOn) && d == TurnOff && config.skipOffAfterFailedOn)
                   || (s.failed == Some(TurnOff) && d == TurnOn && config.skipOnAfterFailedOff);
    if skipped then s.(state := StableState(d), failed := None)
    else if s.state == StableState(d) then s
    else
      var started := s.(commands := s.commands + [Command(d, m, None)]);
      if |s.commands| >= |outcomes| then started.(pending := true)
      else if outcomes[|s.commands|] then started.(state := StableState(d), failed := None)
      else started.(state := Uncertain, failed := Some(d))
  }

  function Fold(config: Config, messages: seq<Message>, outcomes: seq<bool>): Sequential {
    if messages == [] then Sequential(StateOff, None, [], false)
    else Handle(config, Fold(config, messages[..|messages| - 1], outcomes),
                messages[|messages| - 1], outcomes)
  }

  /** A later outcome cannot change what was decided before it was needed. */
  lemma {:induction false} FoldIgnoresLaterOutcomes(
      config: Config, messages: seq<Message>, outcomes: seq<bool>, later: bool)
    requires |Fold(config, messages, outcomes).commands| <= |outcomes|
    ensures Fold(config, messages, outcomes + [later]) == Fold(config, messages, outcomes)
  {
    if messages != [] {
      FoldIgnoresLaterOutcomes(config, messages[..|messages| - 1], outcomes, later);
    }
  }

  // ---------------------------------------------------------------------------
  // The invariant of every run.
  // ---------------------------------------------------------------------------

  predicate TimerOk(m: Machine) {
    && m.live.Keys == (if m.c.timer.Some? then {m.c.timer.value} else {})
    && (m.c.timer.Some? ==>
          m.c.state == StateOn && m.c.active == None && m.c.accepting && m.c.timer.value < m.nextTimer)
  }

  predicate PhaseOk(m: Machine) {
    && m.c.accepting == m.phase.Open?
    && (!m.c.accepting ==> m.c.queue == [])
    && m.running == (if m.c.active.Some? then 1 else 0)
    && |m.shutdownCommands| <= 1
    && (m.phase.Open? || m.phase.WaitActive? || m.phase.Terminating? || m.phase.Stopping? ==>
          m.shutdownCommands == [])
    && (m.phase.Open? || m.phase.WaitActive? || m.phase.Terminating? ==>
          (m.c.active.Some? ==> m.c.worker == Live))
    && (m.phase.Stopping? || m.phase.Closed? ==> m.c.active == None)
    && (m.phase.OffCommand? ==>
          m.c.active.Some? && m.shutdownCommands == [m.c.active.value])
    && (m.phase.OffCommand? || m.phase.Closed? ==> m.c.worker != Live)
    && (forall command <- m.shutdownCommands ::
          command.direction == TurnOff && command.message.request == Off && command.deadline.Some?)
  }

  predicate TraceOk(m: Machine) {
    && |m.submitted| == m.c.nextSequence
    && (forall i | 0 <= i < |m.submitted| :: m.submitted[i].sequence == i)
    && (if m.c.accepting then m.taken + m.c.queue == m.submitted else m.taken <= m.submitted)
  }

  predicate FoldOk(m: Machine) {
    var s := Fold(m.c.config, m.taken, m.outcomes);
    && s.commands == m.workerCommands
    && |m.outcomes| == (if s.pending then |s.commands| - 1 else |s.commands|)
    && (s.pending ==> m.taken != [] && !Fold(m.c.config, m.taken[..|m.taken| - 1], m.outcomes).pending)
    && (m.c.active.Some? && !m.phase.OffCommand? ==>
          s.pending && m.workerCommands[|m.workerCommands| - 1] == m.c.active.value)
    && (m.phase.Open? || m.phase.WaitActive? ==>
          s.pending == m.c.active.Some? && s.state == m.c.state && s.failed == m.c.failed)
  }

  predicate Inv(m: Machine) {
    m.c.Consistent() && TimerOk(m) && PhaseOk(m) && TraceOk(m) && FoldOk(m)
  }

  lemma TakeKeepsInv(m: Machine)
    requires Inv(m) && Enabled(m, Take)
    ensures Inv(TakeNext(m))
  {
    TakeKeepsTrace(m);
    TakeKeepsFold(m);
  }

  lemma TakeKeepsTrace(m: Machine)
    requires m.c.Consistent() && TimerOk(m) && PhaseOk(m) && TraceOk(m) && Enabled(m, Take)
    ensures var n := TakeNext(m);
            n.c.Consistent() && TimerOk(n) && PhaseOk(n) && TraceOk(n)
  {
    var n := TakeNext(m);
    assert m.c.accepting;
    assert m.taken + m.c.queue == n.taken + n.c.queue;
  }

  lemma TakeKeepsFold(m: Machine)
    requires m.c.Consistent() && PhaseOk(m) && FoldOk(m) && Enabled(m, Take)
    ensures FoldOk(TakeNext(m))
  {
    var n := TakeNext(m);
    var s := Fold(m.c.config, m.taken, m.outcomes);
    assert n.taken[..|n.taken| - 1] == m.taken;
    assert Fold(n.c.config, n.taken, n.outcomes) == Handle(m.c.config, s, m.c.queue[0], m.outcomes);
  }

  lemma FinishKeepsInv(m: Machine, success: bool)
    requires Inv(m) && m.c.active.Some?
    ensures Inv(FinishNext(m, success))
  {
    if !m.phase.OffCommand? {
      FinishKeepsFold(m, success);
    }
  }

  /** What one more outcome makes of a message that was waiting for it. */
  lemma HandleResolves(config: Config, s: Sequential, m: Message, outcomes: seq<bool>, success: bool)
    requires !s.pending && Handle(config, s, m, outcomes).pending
    requires |outcomes| == |Handle(config, s, m, outcomes).commands| - 1
    ensures var waiting := Handle(config, s, m, outcomes);
            var done := Handle(config, s, m, outcomes + [success]);
            var d := waiting.commands[|waiting.commands| - 1].direction;
            && !done.pending && done.commands == waiting.commands
            && done.state == (if success then StableState(d) else Uncertain)
            && done.failed == (if success then None else Some(d))
  {
  }

  /** One more outcome settles a fold that was waiting for it. */
  lemma FoldResolves(config: Config, messages: seq<Message>, outcomes: seq<bool>, success: bool)
    requires messages != [] && Fold(config, messages, outcomes).pending
    requires !Fold(config, messages[..|messages| - 1], outcomes).pending
    requires |outcomes| == |Fold(config, messages, outcomes).commands| - 1
    ensures var waiting := Fold(config, messages, outcomes);
            var done := Fold(config, messages, outcomes + [success]);
            var d := waiting.commands[|waiting.commands| - 1].direction;
            && !done.pending && done.commands == waiting.commands
            && done.state == (if success then StableState(d) else Uncertain)
            && done.failed == (if success then None else Some(d))
  {
    var prior, last := messages[..|messages| - 1], messages[|messages| - 1];
    FoldIgnoresLaterOutcomes(config, prior, outcomes, success);
    HandleResolves(config, Fold(config, prior, outcomes), last, outcomes, success);
  }

  /** The outcome the fold was waiting for is the one the command ends with. */
  lemma FinishKeepsFold(m: Machine, success: bool)
    requires m.c.Consistent() && FoldOk(m) && m.c.active.Some? && !m.phase.OffCommand?
    ensures FoldOk(FinishNext(m, success))
  {
    var n := FinishNext(m, success);
    FoldResolves(m.c.config, m.taken, m.outcomes, success);
    FinishChanges(m, success);
    var done := Fold(n.c.config, n.taken, n.outcomes);
    assert done.commands == n.workerCommands && !done.pending && n.c.active == None;
    assert done.state == n.c.state && done.failed == n.c.failed;
  }

  lemma FinishChanges(m: Machine, success: bool)
    requires m.c.Consistent() && m.c.active.Some? && !m.phase.OffCommand?
    ensures var n, d := FinishNext(m, success), m.c.active.value.direction;
            && n.taken == m.taken && n.outcomes == m.outcomes + [success] && n.workerCommands == m.workerCommands
            && n.c.config == m.c.config && n.phase == m.phase && n.c.active == None
            && n.c.state == (if success then StableState(d) else Uncertain)
            && n.c.failed == (if success then None else Some(d))
  {
  }

  lemma ConcludeKeepsInv(m: Machine)
    requires Inv(m) && Enabled(m, Conclude)
    ensures Inv(ConcludeNext(m))
  {
  }

  lemma SubmitKeepsInv(m: Machine, request: Request, timeout: Option<int>)
    requires Inv(m)
    ensures Inv(Submitted(m, request, timeout))
  {
    var n := Submitted(m, request, timeout);
    if m.c.accepting {
      assert n.taken + n.c.queue == (m.taken + m.c.queue) + [n.submitted[|m.submitted|]];
    }
  }

  lemma ShutdownKeepsInv(m: Machine, deadline: int)
    requires Inv(m)
    ensures Inv(Next(m, Shutdown(deadline)))
  {
    if m.phase.Open? {
      var n := ShutdownNext(m, deadline);
      assert n.taken == m.taken && n.outcomes == m.outcomes && n.c.config == m.c.config;
      assert n.c.state == m.c.state && n.c.failed == m.c.failed && n.c.active == m.c.active;
      assert FoldOk(n);
    }
  }

  lemma CancelKeepsInv(m: Machine)
    requires Inv(m) && Enabled(m, CancelWorker)
    ensures Inv(Next(m, CancelWorker))
  {
  }

  lemma WindDownKeepsInv(m: Machine, e: Event)
    requires Inv(m) && Enabled(m, e) && (e.WaitOver? || e.Terminated?)
    ensures Inv(Next(m, e))
  {
    if e.WaitOver? {
      assert Next(m, e).c == m.c;
    }
  }

  lemma IdleKeepsInv(m: Machine, e: Event)
    requires Inv(m) && Enabled(m, e) && (e.Tick? || e.Start?)
    ensures Inv(Next(m, e))
  {
  }

  lemma FireKeepsInv(m: Machine, handle: nat)
    requires Inv(m) && Enabled(m, Fire(handle))
    ensures Inv(Next(m, Fire(handle)))
  {
    var quiet := m.(c := m.c.(timer := None), live := m.live - {handle});
    assert Inv(quiet);
    SubmitKeepsInv(quiet, AutoOff, None);
  }

  lemma NextKeepsConfig(m: Machine, e: Event)
    requires m.c.Consistent() && Enabled(m, e)
    ensures Next(m, e).c.config == m.c.config
  {
  }

  lemma NextKeepsInv(m: Machine, e: Event)
    requires Inv(m) && Enabled(m, e)
    ensures Inv(Next(m, e))
  {
    match e
    case Submit(request, timeout) => SubmitKeepsInv(m, request, timeout);
    case Take => TakeKeepsInv(m);
    case Finish(success, _) => FinishKeepsInv(m, success);
    case Fire(handle) => FireKeepsInv(m, handle);
    case Conclude => ConcludeKeepsInv(m);
    case Shutdown(deadline) => ShutdownKeepsInv(m, deadline);
    case CancelWorker => CancelKeepsInv(m);
    case Start => IdleKeepsInv(m, e);
    case Tick(_) => IdleKeepsInv(m, e);
    case _ => WindDownKeepsInv(m, e);
  }

  /** Every reachable machine keeps the invariant, whatever the interleaving. */
  lemma {:induction false} RunKeepsInv(config: Config, events: seq<Event>)
    requires Run(config, events).Some?
    ensures Inv(Run(config, events).value) && Run(config, events).value.c.config == config
  {
    if events != [] {
      RunKeepsInv(config, events[..|events| - 1]);
      NextKeepsInv(Run(config, events[..|events| - 1]).value, events[|events| - 1]);
      NextKeepsConfig(Run(config, events[..|events| - 1]).value, events[|events| - 1]);
    }
  }

  /** What an observer relies on at every await point. */
  lemma StateAndTimerAtEveryPoint(config: Config, events: seq<Event>)
    requires Run(config, events).Some?
    ensures var m := Run(config, events).value;
            && (m.c.state == Uncertain <==> m.c.failed.Some?)
            && |m.live| <= 1
            && (m.live != map[] ==> m.c.state == StateOn && m.running == 0 && m.c.accepting)
            && m.running <= 1
  {
    RunKeepsInv(config, events);
    var m := Run(config, events).value;
    assert |m.live| == |m.live.Keys|;
    if m.live != map[] {
      var handle :| handle in m.live;
    }
  }

  /** A toggle after a failure starts the failed direction again; no skip flag can divert it. */
  lemma ToggleRetriesTheFailure(c: Controller, m: Message, deadline: Option<int>)
    requires c.Consistent() && c.state == Uncertain && m.request == Toggle
    ensures Begin(c, m, deadline).1 == Some(Command(c.failed.value, m, deadline))
    ensures Begin(c, m, deadline).0.state == Uncertain
  {
  }

  /** A run cut short is a run. */
  lemma {:induction false} PrefixRuns(config: Config, events: seq<Event>, k: nat)
    requires k <= |events| && Run(config, events).Some?
    ensures Run(config, events[..k]).Some?
    ensures k < |events| ==> Enabled(Run(config, events[..k]).value, events[k])
                             && Run(config, events[..k + 1]).Some?
  {
    if k < |events| {
      var shorter := events[..|events| - 1];
      if k == |shorter| {
        assert events[..k + 1] == events;
      } else {
        PrefixRuns(config, shorter, k);
        assert shorter[..k] == events[..k] && shorter[..k + 1] == events[..k + 1];
      }
    } else {
      assert events[..k] == events;
    }
  }

  lemma RunsWithoutLast(config: Config, events: seq<Event>, e: Event)
    requires Run(config, events + [e]).Some?
    ensures Run(config, events).Some? && Enabled(Run(config, events).value, e)
    ensures Run(config, events + [e]) == Some(Next(Run(config, events).value, e))
  {
    assert (events + [e])[..|events|] == events;
  }

  /** A handle that is not scheduled and is below the counter is never scheduled again. */
  lemma {:induction false} SpentTimersStaySpent(config: Config, events: seq<Event>, i: nat, j: nat, handle: nat)
    requires i <= j <= |events| && Run(config, events).Some?
    requires Run(config, events[..i]).Some?
    requires handle !in Run(config, events[..i]).value.live && handle < Run(config, events[..i]).value.nextTimer
    ensures Run(config, events[..j]).Some?
    ensures handle !in Run(config, events[..j]).value.live && handle < Run(config, events[..j]).value.nextTimer
  {
    if i < j {
      SpentTimersStaySpent(config, events, i, j - 1, handle);
      PrefixRuns(config, events, j - 1);
      assert events[..j] == events[..j - 1] + [events[j - 1]];
      RunsWithoutLast(config, events[..j - 1], events[j - 1]);
      SpentStaysSpent(Run(config, events[..j - 1]).value, events[j - 1], handle);
    }
  }

  lemma SpentStaysSpent(m: Machine, e: Event, handle: nat)
    requires m.c.Consistent() && Enabled(m, e) && handle !in m.live && handle < m.nextTimer
    ensures handle !in Next(m, e).live && handle < Next(m, e).nextTimer
  {
  }

  lemma FiredOnceBefore(config: Config, events: seq<Event>, i: nat, j: nat, handle: nat)
    requires Run(config, events).Some? && i < j < |events| && events[i] == Fire(handle)
    ensures Run(config, events[..j]).Some? && handle !in Run(config, events[..j]).value.live
  {
    PrefixRuns(config, events, i);
    assert events[..i + 1] == events[..i] + [Fire(handle)];
    FiredAtTheEnd(config, events[..i], handle);
    SpentTimersStaySpent(config, events, i + 1, j, handle);
  }

  lemma FiredAtTheEnd(config: Config, events: seq<Event>, handle: nat)
    requires Run(config, events + [Fire(handle)]).Some?
    ensures var m := Run(config, events + [Fire(handle)]).value;
            handle !in m.live && handle < m.nextTimer
  {
    RunsWithoutLast(config, events, Fire(handle));
    RunKeepsInv(config, events);
    FiredIsSpent(Run(config, events).value, handle);
  }

  /** Each armed timer yields at most one automatic off. */
  lemma EachTimerFiresOnce(config: Config, events: seq<Event>, i: nat, j: nat, handle: nat)
    requires Run(config, events).Some?
    requires i < |events| && j < |events|
    requires events[i] == Fire(handle) && events[j] == Fire(handle)
    ensures i == j
  {
    if i != j {
      var first, second := if i < j then i else j, if i < j then j else i;
      FiredOnceBefore(config, events, first, second, handle);
      PrefixRuns(config, events, second);
    }
  }

  lemma FiredIsSpent(m: Machine, handle: nat)
    requires Inv(m) && Enabled(m, Fire(handle))
    ensures handle !in Next(m, Fire(handle)).live && handle < Next(m, Fire(handle)).nextTimer
  {
  }

  // ---------------------------------------------------------------------------
  // What is accepted, and which timers are live, told from the events alone.
  // ---------------------------------------------------------------------------

  predicate BeforeShutdown(events: seq<Event>) {
    forall e <- events :: !e.Shutdown?
  }

  /** The messages asked for before the first shutdown, a timer's firing asking for an automatic off. */
  function Accepted(events: seq<Event>): seq<Message> {
    if events == [] then []
    else
      var prior, e := events[..|events| - 1], events[|events| - 1];
      var earlier := Accepted(prior);
      if !BeforeShutdown(prior) then earlier
      else if e.Submit? then earlier + [Message(|earlier|, e.request, e.timeout)]
      else if e.Fire? then earlier + [Message(|earlier|, AutoOff, None)]
      else earlier
  }

  lemma AcceptStep(m: Machine, e: Event)
    requires Inv(m) && Enabled(m, e)
    ensures var n := Next(m, e);
            && n.c.accepting == (m.c.accepting && !e.Shutdown?)
            && n.submitted == (if !m.c.accepting then m.submitted
                               else if e.Submit? then m.submitted + [Message(|m.submitted|, e.request, e.timeout)]
                               else if e.Fire? then m.submitted + [Message(|m.submitted|, AutoOff, None)]
                               else m.submitted)
  {
  }

  /** Intake is open until the first shutdown, and what was accepted is what was asked for until then. */
  lemma {:induction false} AcceptedExactly(config: Config, events: seq<Event>)
    requires Run(config, events).Some?
    ensures var m := Run(config, events).value;
            m.submitted == Accepted(events) && m.c.accepting == BeforeShutdown(events)
  {
    if events != [] {
      var prior, e := events[..|events| - 1], events[|events| - 1];
      assert events == prior + [e];
      RunsWithoutLast(config, prior, e);
      AcceptedExactly(config, prior);
      RunKeepsInv(config, prior);
      AcceptStep(Run(config, prior).value, e);
      AcceptedMore(prior, e);
    }
  }

  lemma AcceptedMore(prior: seq<Event>, e: Event)
    ensures BeforeShutdown(prior + [e]) == (BeforeShutdown(prior) && !e.Shutdown?)
    ensures Accepted(prior + [e])
            == if !BeforeShutdown(prior) then Accepted(prior)
               else if e.Submit? then Accepted(prior) + [Message(|Accepted(prior)|, e.request, e.timeout)]
               else if e.Fire? then Accepted(prior) + [Message(|Accepted(prior)|, AutoOff, None)]
               else Accepted(prior)
  {
    assert (prior + [e])[..|prior|] == prior;
  }

  /** Event `i` ended a command that arms a timer: a toggle's on command, well, with a positive timeout. */
  predicate Arms(config: Config, events: seq<Event>, i: nat, delay: int) {
    && i < |events| && events[i].Finish? && events[i].success && BeforeShutdown(events[..i])
    && var before := Run(config, events[..i]);
       && before.Some? && before.value.c.active.Some?
       && var command := before.value.c.active.value;
          && command.direction == TurnOn && command.message.request == Toggle
          && command.message.toggleTimeout == Some(delay) && delay > 0
  }

  /** Whether event `e` disturbs a live timer. */
  predicate Disturbs(e: Event) {
    e.Fire? || e.Take? || e.Shutdown?
  }

  /** Since event `i` no timer fired, no message was taken and shutdown was not called. */
  predicate Undisturbed(events: seq<Event>, i: nat) {
    forall k | i < k < |events| :: !Disturbs(events[k])
  }

  predicate Due(config: Config, events: seq<Event>, delay: int) {
    exists i | 0 <= i < |events| :: Arms(config, events, i, delay) && Undisturbed(events, i)
  }

  lemma TimerStep(m: Machine, e: Event, delay: int)
    requires Inv(m) && Enabled(m, e)
    ensures delay in Next(m, e).live.Values
            <==> if e.Finish? then
                   && e.success && m.c.accepting && m.c.active.value.direction == TurnOn
                   && m.c.active.value.message.request == Toggle
                   && m.c.active.value.message.toggleTimeout == Some(delay) && delay > 0
                 else delay in m.live.Values && !Disturbs(e)
  {
    if e.Finish? {
      FinishTimer(m, e.success, delay);
    } else {
      LiveAfter(m, e);
    }
  }

  lemma LiveAfter(m: Machine, e: Event)
    requires TimerOk(m) && PhaseOk(m) && m.c.Consistent() && Enabled(m, e) && !e.Finish?
    ensures Next(m, e).live == if Disturbs(e) then map[] else m.live
  {
    var n := Next(m, e);
    if Disturbs(e) {
      assert n.live.Keys == {};
      NoTimers(n.live);
    } else {
      assert n.live == m.live;
    }
  }

  lemma NoTimers(live: map<nat, int>)
    requires live.Keys == {}
    ensures live == map[]
  {
  }

  lemma FinishTimer(m: Machine, success: bool, delay: int)
    requires TimerOk(m) && PhaseOk(m) && m.c.Consistent() && m.c.active.Some?
    ensures delay in FinishNext(m, success).live.Values
            <==> && success && m.c.accepting && m.c.active.value.direction == TurnOn
                 && m.c.active.value.message.request == Toggle
                 && m.c.active.value.message.toggleTimeout == Some(delay) && delay > 0
  {
    NoTimers(m.live);
    var n, timeout := FinishNext(m, success), m.c.active.value.message.toggleTimeout;
    if n.nextTimer == m.nextTimer {
      assert n.live == map[];
    } else {
      assert n.live == map[m.nextTimer := timeout.value] && n.live[m.nextTimer] == timeout.value;
    }
  }

  lemma DueStep(config: Config, prior: seq<Event>, e: Event, delay: int)
    requires Run(config, prior).Some? && Enabled(Run(config, prior).value, e)
    ensures Due(config, prior + [e], delay)
            <==> Arms(config, prior + [e], |prior|, delay)
                 || (Due(config, prior, delay) && !Disturbs(e))
  {
    var events := prior + [e];
    forall i | 0 <= i < |prior|
      ensures Arms(config, events, i, delay) == Arms(config, prior, i, delay)
      ensures Undisturbed(events, i) == (Undisturbed(prior, i) && !Disturbs(e))
    {
      assert events[..i] == prior[..i];
      assert forall k | i < k < |prior| :: events[k] == prior[k];
      assert events[|prior|] == e;
    }
    if Due(config, prior, delay) && !Disturbs(e) {
      var i :| 0 <= i < |prior| && Arms(config, prior, i, delay) && Undisturbed(prior, i);
      assert Arms(config, events, i, delay) && Undisturbed(events, i);
    }
    assert Undisturbed(events, |prior|);
  }

  /**
   A timer of this delay is live exactly if a toggle's on command with this positive timeout ended well before
   any shutdown, and since then no timer has fired and no message been taken.
   */
  lemma {:induction false} TimersAreExact(config: Config, events: seq<Event>, delay: int)
    requires Run(config, events).Some?
    ensures delay in Run(config, events).value.live.Values <==> Due(config, events, delay)
  {
    if events != [] {
      var prior, e := events[..|events| - 1], events[|events| - 1];
      assert events == prior + [e] && events[..|prior|] == prior;
      TimersAreExact(config, prior, delay);
      RunKeepsInv(config, prior);
      AcceptedExactly(config, prior);
      TimerStep(Run(config, prior).value, e, delay);
      DueStep(config, prior, e, delay);
      var m := Run(config, prior).value;
      if e.Finish? {
        assert m.live.Keys == {};
      }
    }
  }

  // ---------------------------------------------------------------------------
  // How shutdown ends.
  // ---------------------------------------------------------------------------

  /** The deadline of the first shutdown. */
  function FirstDeadline(events: seq<Event>): Option<int> {
    if events == [] then None
    else
      var earlier := FirstDeadline(events[..|events| - 1]);
      if earlier.Some? then earlier
      else if events[|events| - 1].Shutdown? then Some(events[|events| - 1].deadline)
      else None
  }

  /** A command in flight is waited for until the deadline; one given up leaves its direction to be retried. */
  predicate WindsDown(m: Machine, deadline: Option<int>) {
    match m.phase
    case Open => deadline == None
    case WaitActive(d) => deadline == Some(d)
    case Terminating(d, direction) =>
      && deadline == Some(d) && m.now >= d
      && (m.c.active.Some? ==> m.c.active.value.direction == direction)
    case Stopping(d, incomplete) => deadline == Some(d) && (incomplete ==> m.now >= d && m.c.state == Uncertain)
    case OffCommand(d) => deadline == Some(d)
    case Closed => deadline.Some?
  }

  lemma WindDownStep(m: Machine, e: Event, deadline: Option<int>)
    requires Inv(m) && Enabled(m, e) && WindsDown(m, deadline)
    ensures WindsDown(Next(m, e), if deadline == None && e.Shutdown? then Some(e.deadline) else deadline)
  {
  }

  lemma {:induction false} ShutdownWaits(config: Config, events: seq<Event>)
    requires Run(config, events).Some?
    ensures WindsDown(Run(config, events).value, FirstDeadline(events))
  {
    if events != [] {
      var prior, e := events[..|events| - 1], events[|events| - 1];
      ShutdownWaits(config, prior);
      RunKeepsInv(config, prior);
      WindDownStep(Run(config, prior).value, e, FirstDeadline(prior));
    }
  }

  /** Shutdown's own steps, taken with no command ending and no time passing. */
  predicate OwnSteps(rest: seq<Event>) {
    forall e <- rest :: e in {WaitOver, CancelWorker, Terminated, Conclude}
  }

  /** The direction of a command that the deadline has cut off, or now does. */
  function CutOff(m: Machine): Option<Direction> {
    match m.phase
    case Terminating(_, direction) => Some(direction)
    case Stopping(_, incomplete) => if incomplete then m.c.failed else None
    case _ => if m.c.active.Some? then Some(m.c.active.value.direction) else None
  }

  function StepsLeft(m: Machine): nat {
    (if m.phase.WaitActive? then 3 else if m.phase.Terminating? then 2 else if m.phase.Stopping? then 1 else 0)
    + if m.c.worker == Live then 1 else 0
  }

  /** The step shutdown takes of its own accord. */
  function OwnEvent(m: Machine): Event {
    if m.phase.WaitActive? then WaitOver
    else if m.c.worker == Live then CancelWorker
    else if m.phase.Terminating? then Terminated
    else Conclude
  }

  predicate WindingDown(m: Machine, deadline: int) {
    && Inv(m) && WindsDown(m, Some(deadline)) && !m.phase.OffCommand?
    && (m.c.active == None || m.now >= deadline)
  }

  /** Shutdown has come to its end from `m`: closed, or before its deadline with the final off under way. */
  predicate WoundDown(m: Machine, n: Machine, deadline: int) {
    && (n.phase == Closed || (m.now < deadline && n.phase.OffCommand?))
    && (CutOff(m).Some? ==> n.c.state == Uncertain && n.c.failed == CutOff(m))
  }

  lemma OwnStep(m: Machine, deadline: int)
    requires WindingDown(m, deadline) && !m.phase.Closed?
    ensures Enabled(m, OwnEvent(m)) && StepsLeft(Next(m, OwnEvent(m))) < StepsLeft(m)
    ensures var n := Next(m, OwnEvent(m));
            && n.now == m.now
            && (if n.phase.OffCommand? then WoundDown(m, n, deadline)
                else (n.c.active == None || n.now >= deadline)
                     && (if n.phase.Closed? then WoundDown(m, n, deadline)
                         else CutOff(m).Some? ==> CutOff(n) == CutOff(m)))
  {
  }

  lemma OneStepThenMore(events: seq<Event>, e: Event, later: seq<Event>)
    ensures events + [e] + later == events + ([e] + later)
  {
  }

  /** The run, with the step shutdown takes of its own accord. */
  lemma TakesOwnStep(config: Config, events: seq<Event>)
    requires Run(config, events).Some? && FirstDeadline(events).Some?
    requires WindingDown(Run(config, events).value, FirstDeadline(events).value)
    requires !Run(config, events).value.phase.Closed?
    ensures var m, deadline, longer := Run(config, events).value, FirstDeadline(events).value,
                                       events + [OwnEvent(Run(config, events).value)];
            && Run(config, longer).Some? && FirstDeadline(longer) == Some(deadline)
            && var n := Run(config, longer).value;
               && StepsLeft(n) < StepsLeft(m) && n.now == m.now
               && (if n.phase.OffCommand? || n.phase.Closed? then WoundDown(m, n, deadline)
                   else (n.c.active == None || n.now >= deadline) && (CutOff(m).Some? ==> CutOff(n) == CutOff(m)))
  {
    var m := Run(config, events).value;
    OwnStep(m, FirstDeadline(events).value);
    assert (events + [OwnEvent(m)])[..|events|] == events;
  }

  /**
   Shutdown never gets stuck: with nothing in flight, or past its deadline, its own steps end it, but for the final
   off they may start.  A command cut off by the deadline leaves its direction to be retried.
   */
  lemma {:induction false} ShutdownFinishes(config: Config, events: seq<Event>) returns (rest: seq<Event>)
    requires Run(config, events).Some? && FirstDeadline(events).Some?
    requires var m := Run(config, events).value;
             !m.phase.OffCommand? && (m.c.active == None || m.now >= FirstDeadline(events).value)
    ensures OwnSteps(rest) && Run(config, events + rest).Some?
    ensures WoundDown(Run(config, events).value, Run(config, events + rest).value, FirstDeadline(events).value)
    decreases StepsLeft(Run(config, events).value)
  {
    var m := Run(config, events).value;
    RunKeepsInv(config, events);
    ShutdownWaits(config, events);
    if m.phase.Closed? {
      assert events + [] == events;
      return [];
    }
    var longer := events + [OwnEvent(m)];
    TakesOwnStep(config, events);
    var n := Run(config, longer).value;
    if n.phase.OffCommand? || n.phase.Closed? {
      return [OwnEvent(m)];
    }
    var later := ShutdownFinishes(config, longer);
    OneStepThenMore(events, OwnEvent(m), later);
    return [OwnEvent(m)] + later;
  }

  /** The final off is needless: the state is off, or a skip makes it so. */
  predicate OffIsNeedless(config: Config, m: Machine) {
    m.c.state == StateOff || (m.c.failed == Some(TurnOn) && config.skipOffAfterFailedOn)
  }

  lemma ConcludeStep(m: Machine)
    requires Inv(m) && Enabled(m, Conclude)
    ensures var n, config := Next(m, Conclude), m.c.config;
            && n.shutdownCommands
               == (if config.offOnShutdown && m.now < m.phase.deadline && !OffIsNeedless(config, m)
                   then [Command(TurnOff, Message(|m.submitted|, Off, None), Some(m.phase.deadline))]
                   else [])
            && n.phase == (if n.shutdownCommands == [] then Closed else OffCommand(m.phase.deadline))
            && n.running == |n.shutdownCommands|
            && (config.offOnShutdown && m.now < m.phase.deadline && OffIsNeedless(config, m) ==>
                  n.c.state == StateOff)
  {
  }

  /**
   Shutdown's last step issues the off, with the first shutdown's deadline, exactly if it is configured, time is
   left and it is not needless; a needless one leaves the state off.
   */
  lemma FinalOffExactly(config: Config, events: seq<Event>)
    requires Run(config, events + [Conclude]).Some?
    ensures Run(config, events).Some? && FirstDeadline(events).Some?
    ensures var m, n := Run(config, events).value, Run(config, events + [Conclude]).value;
            var deadline := FirstDeadline(events).value;
            var due := config.offOnShutdown && m.now < deadline;
            && n.shutdownCommands
               == (if due && !OffIsNeedless(config, m)
                   then [Command(TurnOff, Message(|Accepted(events)|, Off, None), Some(deadline))]
                   else [])
            && n.phase == (if n.shutdownCommands == [] then Closed else OffCommand(deadline))
            && n.running == |n.shutdownCommands|
            && (due && OffIsNeedless(config, m) ==> n.c.state == StateOff)
  {
    RunsWithoutLast(config, events, Conclude);
    RunKeepsInv(config, events);
    AcceptedExactly(config, events);
    ShutdownWaits(config, events);
    ConcludeStep(Run(config, events).value);
  }

  /**
   The worker is a sequential fold: what it took is a prefix of what was submitted, numbered from
   zero, and the commands it started are exactly those of handling that prefix one by one.
   */
  lemma WorkerIsASequentialFold(config: Config, events: seq<Event>)
    requires Run(config, events).Some?
    ensures var m := Run(config, events).value;
            && m.taken <= m.submitted
            && (forall i | 0 <= i < |m.taken| :: m.taken[i].sequence == i)
            && m.workerCommands == Fold(config, m.taken, m.outcomes).commands
            && (m.c.accepting && m.c.active == None ==>
                  m.c.state == Fold(config, m.taken, m.outcomes).state)
  {
    RunKeepsInv(config, events);
  }

  /** The final off, once ended, leaves the state off, or uncertain for a later off to be retried. */
  lemma FinalOffEnds(config: Config, events: seq<Event>, success: bool, residue: bool)
    requires Run(config, events + [Finish(success, residue)]).Some?
    requires Run(config, events).Some? && Run(config, events).value.phase.OffCommand?
    ensures var n := Run(config, events + [Finish(success, residue)]).value;
            && n.phase == Closed && n.running == 0 && n.c.active == None && n.live == map[]
            && n.c.state == (if success then StateOff else Uncertain)
            && n.c.failed == (if success then None else Some(TurnOff))
  {
    RunsWithoutLast(config, events, Finish(success, residue));
    RunKeepsInv(config, events);
    var m := Run(config, events).value;
    NoTimers(m.live);
    assert m.c.active.value in m.shutdownCommands;
  }

  // ---------------------------------------------------------------------------
  // Shutdown is a barrier.
  // ---------------------------------------------------------------------------

  /** Once intake is closed, one step takes nothing more and starts at most the final off. */
  lemma ClosedStep(m: Machine, e: Event)
    requires Inv(m) && !m.c.accepting && Enabled(m, e)
    ensures var n := Next(m, e);
            && !n.c.accepting
            && n.taken == m.taken && n.workerCommands == m.workerCommands && n.submitted == m.submitted
            && (n.shutdownCommands != m.shutdownCommands ==>
                  m.shutdownCommands == [] && m.running == 0 && m.c.worker != Live
                  && |n.shutdownCommands| == 1 && m.phase.Stopping?
                  && n.shutdownCommands[0].direction == TurnOff
                  && n.shutdownCommands[0].deadline == Some(m.phase.deadline))
  {
  }

  predicate ClosingWith(m: Machine, deadline: int) {
    && !m.c.accepting
    && (m.phase.WaitActive? || m.phase.Terminating? || m.phase.Stopping? || m.phase.OffCommand? ==>
          m.phase.deadline == deadline)
    && (forall command <- m.shutdownCommands :: command.deadline == Some(deadline))
  }

  /** Nothing more was taken or started by the worker than before the shutdown, and at most the final off. */
  predicate Barrier(m: Machine, n: Machine, deadline: int) {
    && ClosingWith(n, deadline) && n.taken == m.taken && n.workerCommands == m.workerCommands
    && |n.shutdownCommands| <= 1
    && (forall command <- n.shutdownCommands :: command.direction == TurnOff && command.deadline == Some(deadline))
  }

  lemma BarrierCloses(config: Config, before: seq<Event>, deadline: int)
    requires Run(config, before).Some? && Run(config, before).value.c.accepting
    requires Run(config, before + [Shutdown(deadline)]).Some?
    ensures Barrier(Run(config, before).value, Run(config, before + [Shutdown(deadline)]).value, deadline)
  {
    RunKeepsInv(config, before);
    RunKeepsInv(config, before + [Shutdown(deadline)]);
    assert (before + [Shutdown(deadline)])[..|before|] == before;
    ShutdownCloses(Run(config, before).value, deadline);
    FinalCommandIsOff(Run(config, before + [Shutdown(deadline)]).value, deadline);
  }

  lemma BarrierHolds(config: Config, m: Machine, closed: seq<Event>, e: Event, deadline: int)
    requires Run(config, closed).Some? && Barrier(m, Run(config, closed).value, deadline)
    requires Run(config, closed + [e]).Some?
    ensures Barrier(m, Run(config, closed + [e]).value, deadline)
  {
    RunKeepsInv(config, closed);
    RunKeepsInv(config, closed + [e]);
    assert (closed + [e])[..|closed|] == closed;
    ClosingStep(Run(config, closed).value, e, deadline);
    FinalCommandIsOff(Run(config, closed + [e]).value, deadline);
  }

  /**
   After the first `shutdown(deadline)` nothing queued is processed, the worker starts nothing,
   and at most one more command starts: an off carrying that deadline, with nothing in flight.
   */
  lemma {:induction false} ShutdownIsABarrier(config: Config, before: seq<Event>, deadline: int, after: seq<Event>)
    requires Run(config, before).Some? && Run(config, before).value.c.accepting
    requires Run(config, before + [Shutdown(deadline)] + after).Some?
    ensures Barrier(Run(config, before).value, Run(config, before + [Shutdown(deadline)] + after).value, deadline)
  {
    var events := before + [Shutdown(deadline)] + after;
    if after == [] {
      assert events == before + [Shutdown(deadline)];
      BarrierCloses(config, before, deadline);
    } else {
      var shorter, e := before + [Shutdown(deadline)] + after[..|after| - 1], after[|after| - 1];
      assert events == shorter + [e];
      RunsWithoutLast(config, shorter, e);
      ShutdownIsABarrier(config, before, deadline, after[..|after| - 1]);
      BarrierHolds(config, Run(config, before).value, shorter, e, deadline);
    }
  }

  lemma ShutdownCloses(m: Machine, deadline: int)
    requires Inv(m) && m.c.accepting
    ensures var n := Next(m, Shutdown(deadline));
            ClosingWith(n, deadline) && n.taken == m.taken && n.workerCommands == m.workerCommands
  {
  }

  lemma ClosingStep(m: Machine, e: Event, deadline: int)
    requires Inv(m) && ClosingWith(m, deadline) && Enabled(m, e)
    ensures var n := Next(m, e);
            ClosingWith(n, deadline) && n.taken == m.taken && n.workerCommands == m.workerCommands
  {
    ClosedStep(m, e);
  }

  lemma FinalCommandIsOff(m: Machine, deadline: int)
    requires Inv(m) && ClosingWith(m, deadline)
    ensures |m.shutdownCommands| <= 1
    ensures forall command <- m.shutdownCommands :: command.direction == TurnOff && command.deadline == Some(deadline)
  {
  }

  // ---------------------------------------------------------------------------
  // The controlled application.
  // ---------------------------------------------------------------------------

  /** How an application reacts to the end of a command. */
  datatype Application =
    | ToggleOnly     // either command flips it; a failed command has no effect
    | Idempotent     // each command sets it; a failed command may leave anything

  predicate BitAfter(kind: Application, command: Command, success: bool, residue: bool, bit: bool) {
    match kind
    case ToggleOnly => if success then !bit else bit
    case Idempotent => if success then command.direction == TurnOn else residue
  }

  /** The application's on/off bit along a run; it starts off. */
  predicate Bit(kind: Application, config: Config, events: seq<Event>)
    requires Run(config, events).Some?
  {
    events != [] &&
    (var prior := events[..|events| - 1];
     var e := events[|events| - 1];
     var m := Run(config, prior).value;
     if e.Finish? then BitAfter(kind, m.c.active.value, e.success, e.residue, Bit(kind, config, prior))
     else Bit(kind, config, prior))
  }

  /** What the controller claims about a toggle-only application. */
  predicate Tracks(m: Machine, bit: bool) {
    match m.c.state
    case StateOn => bit
    case StateOff => !bit
    case Uncertain => m.c.failed.Some? && bit == (m.c.failed.value == TurnOff)
  }

  lemma {:induction false} OpenRunsStayOpen(config: Config, events: seq<Event>)
    requires Run(config, events).Some? && BeforeShutdown(events)
    ensures Run(config, events).value.phase == Open
  {
    if events != [] {
      OpenRunsStayOpen(config, events[..|events| - 1]);
    }
  }

  predicate InFlightIsAChange(m: Machine) {
    m.c.active.Some? ==>
      var d := m.c.active.value.direction;
      match m.c.state
      case StateOn => d == TurnOff
      case StateOff => d == TurnOn
      case Uncertain =>
        m.c.failed == Some(d) || (!m.c.config.skipOffAfterFailedOn && d == TurnOff)
        || (!m.c.config.skipOnAfterFailedOff && d == TurnOn)
  }

  lemma ChangeStep(m: Machine, e: Event)
    requires Inv(m) && m.phase.Open? && Enabled(m, e) && !e.Shutdown? && InFlightIsAChange(m)
    ensures InFlightIsAChange(Next(m, e))
  {
  }

  lemma {:induction false} CommandsAreChanges(config: Config, events: seq<Event>)
    requires Run(config, events).Some? && BeforeShutdown(events)
    ensures InFlightIsAChange(Run(config, events).value)
  {
    if events != [] {
      var prior, e := events[..|events| - 1], events[|events| - 1];
      CommandsAreChanges(config, prior);
      OpenRunsStayOpen(config, prior);
      RunKeepsInv(config, prior);
      ChangeStep(Run(config, prior).value, e);
    }
  }

  lemma ToggleOnlyStep(m: Machine, e: Event, bit: bool)
    requires Inv(m) && m.phase.Open? && Enabled(m, e) && !e.Shutdown? && InFlightIsAChange(m)
    requires m.c.config.skipOffAfterFailedOn && m.c.config.skipOnAfterFailedOff && Tracks(m, bit)
    ensures Tracks(Next(m, e),
                   if e.Finish? then BitAfter(ToggleOnly, m.c.active.value, e.success, e.residue, bit) else bit)
  {
  }

  /** With both skips on, the controller never misjudges a toggle-only application. */
  lemma {:induction false} ToggleOnlyIsTracked(config: Config, events: seq<Event>)
    requires config.skipOffAfterFailedOn && config.skipOnAfterFailedOff
    requires Run(config, events).Some? && BeforeShutdown(events)
    ensures Tracks(Run(config, events).value, Bit(ToggleOnly, config, events))
  {
    if events != [] {
      var prior, e := events[..|events| - 1], events[|events| - 1];
      ToggleOnlyIsTracked(config, prior);
      OpenRunsStayOpen(config, prior);
      RunKeepsInv(config, prior);
      CommandsAreChanges(config, prior);
      ToggleOnlyStep(Run(config, prior).value, e, Bit(ToggleOnly, config, prior));
    }
  }

  lemma IdempotentStep(m: Machine, e: Event, bit: bool)
    requires Inv(m) && m.phase.Open? && Enabled(m, e) && !e.Shutdown?
    requires !m.c.config.skipOffAfterFailedOn && !m.c.config.skipOnAfterFailedOff
    requires m.c.state != Uncertain ==> (m.c.state == StateOn) == bit
    ensures var n := Next(m, e);
            var after := if e.Finish? then BitAfter(Idempotent, m.c.active.value, e.success, e.residue, bit) else bit;
            n.c.state != Uncertain ==> (n.c.state == StateOn) == after
  {
  }

  /** With both skips off, a stable state is the bit of an application with idempotent commands. */
  lemma {:induction false} IdempotentIsTracked(config: Config, events: seq<Event>)
    requires !config.skipOffAfterFailedOn && !config.skipOnAfterFailedOff
    requires Run(config, events).Some? && BeforeShutdown(events)
    ensures var m := Run(config, events).value;
            m.c.state != Uncertain ==> (m.c.state == StateOn) == Bit(Idempotent, config, events)
  {
    if events != [] {
      var prior, e := events[..|events| - 1], events[|events| - 1];
      IdempotentIsTracked(config, prior);
      OpenRunsStayOpen(config, prior);
      RunKeepsInv(config, prior);
      IdempotentStep(Run(config, prior).value, e, Bit(Idempotent, config, prior));
    }
  }

  // Which runs go wrong without the flags: three requests are enough.

  /** An application of either kind has the same bit after both runs. */
  predicate SameBits(config: Config, a: seq<Event>, b: seq<Event>)
    requires Run(config, a).Some? && Run(config, b).Some?
  {
    Bit(ToggleOnly, config, a) == Bit(ToggleOnly, config, b) && Bit(Idempotent, config, a) == Bit(Idempotent, config, b)
  }

  /** Playing one more event. */
  lemma Extend(config: Config, events: seq<Event>, e: Event)
    requires Run(config, events).Some? && Enabled(Run(config, events).value, e)
    ensures Run(config, events + [e]) == Some(Next(Run(config, events).value, e))
    ensures !e.Finish? ==> SameBits(config, events, events + [e])
    ensures e.Finish? ==>
              && Bit(ToggleOnly, config, events + [e])
                 == BitAfter(ToggleOnly, Run(config, events).value.c.active.value, e.success, e.residue,
                             Bit(ToggleOnly, config, events))
              && Bit(Idempotent, config, events + [e])
                 == BitAfter(Idempotent, Run(config, events).value.c.active.value, e.success, e.residue,
                             Bit(Idempotent, config, events))
  {
    assert (events + [e])[..|events|] == events;
  }

  /** The worker waits for a message and there is none. */
  predicate Idle(m: Machine) {
    m.phase.Open? && m.c.accepting && m.c.worker == Live && m.c.active == None && m.c.queue == []
  }

  function Asked(request: Request): seq<Event> {
    [Submit(request, None), Take]
  }

  /** The worker has taken the request that was asked for. */
  function AfterAsking(m: Machine, request: Request): Machine
    requires Idle(m) && m.c.Consistent()
  {
    TakeNext(Submitted(m, request, None))
  }

  lemma AskRuns(config: Config, events: seq<Event>, m: Machine, request: Request)
    requires Run(config, events) == Some(m) && Idle(m) && m.c.Consistent()
    ensures Run(config, events + Asked(request)) == Some(AfterAsking(m, request))
    ensures SameBits(config, events, events + Asked(request))
  {
    Extend(config, events, Submit(request, None));
    Extend(config, events + [Submit(request, None)], Take);
    assert events + [Submit(request, None)] + [Take] == events + Asked(request);
  }

  /** A command towards `d` is in flight for a request without a timeout. */
  predicate Executing(m: Machine, d: Direction) {
    && m.phase.Open? && m.c.accepting && m.c.worker == Live && m.c.queue == []
    && m.c.active.Some? && m.c.active.value.direction == d && m.c.active.value.message.toggleTimeout == None
  }

  predicate At(m: Machine, config: Config, state: ActionState, failed: Option<Direction>) {
    m.c.config == config && m.c.state == state && m.c.failed == failed
  }

  /** A request towards a new state starts its command, unless a skip makes the command needless. */
  lemma AskingStarts(m: Machine, request: Request)
    requires Idle(m) && m.c.Consistent() && request in {On, Off}
    requires m.c.state != StableState(if request == On then TurnOn else TurnOff)
    ensures var d := if request == On then TurnOn else TurnOff;
            var n := AfterAsking(m, request);
            if m.c.state == Uncertain && SkipsUncertainTransition(m.c, d)
            then Idle(n) && At(n, m.c.config, StableState(d), None)
            else Executing(n, d) && At(n, m.c.config, m.c.state, m.c.failed)
  {
    assert Submitted(m, request, None).c.queue[1..] == [];
  }

  lemma CommandEnds(config: Config, events: seq<Event>, m: Machine, d: Direction, success: bool, residue: bool)
    requires Run(config, events) == Some(m) && Executing(m, d) && m.c.Consistent()
    ensures var ended := events + [Finish(success, residue)];
            && Run(config, ended).Some? && Idle(Run(config, ended).value)
            && At(Run(config, ended).value, m.c.config,
                  if success then StableState(d) else Uncertain, if success then None else Some(d))
            && Bit(ToggleOnly, config, ended) == (success != Bit(ToggleOnly, config, events))
            && Bit(Idempotent, config, ended) == if success then d == TurnOn else residue
  {
    Extend(config, events, Finish(success, residue));
  }

  /** On succeeds and off fails, or on fails: whichever failure the missing flag would have skipped. */
  function FailedChange(afterOff: bool, residue: bool): seq<Event> {
    if afterOff
    then [Start] + Asked(On) + [Finish(true, false)] + Asked(Off) + [Finish(false, residue)]
    else [Start] + Asked(On) + [Finish(false, residue)]
  }

  lemma FirstOnRuns(config: Config, success: bool, residue: bool)
    ensures var events := [Start] + Asked(On) + [Finish(success, residue)];
            var r := Run(config, events);
            && r.Some? && Idle(r.value)
            && At(r.value, config, if success then StateOn else Uncertain, if success then None else Some(TurnOn))
            && Bit(ToggleOnly, config, events) == success && Bit(Idempotent, config, events) == (success || residue)
  {
    var idle := Next(Init(config), Start);
    Extend(config, [], Start);
    assert [] + [Start] == [Start];
    AskRuns(config, [Start], idle, On);
    AskingStarts(idle, On);
    CommandEnds(config, [Start] + Asked(On), AfterAsking(idle, On), TurnOn, success, residue);
  }

  lemma FailedChangeRuns(config: Config, afterOff: bool, residue: bool)
    ensures var events := FailedChange(afterOff, residue);
            var r := Run(config, events);
            && r.Some? && Idle(r.value)
            && At(r.value, config, Uncertain, Some(if afterOff then TurnOff else TurnOn))
            && Bit(ToggleOnly, config, events) == afterOff
            && Bit(Idempotent, config, events) == residue
  {
    FirstOnRuns(config, afterOff, if afterOff then false else residue);
    if afterOff {
      var on := [Start] + Asked(On) + [Finish(true, false)];
      var m := Run(config, on).value;
      AskRuns(config, on, m, Off);
      AskingStarts(m, Off);
      CommandEnds(config, on + Asked(Off), AfterAsking(m, Off), TurnOff, false, residue);
    }
  }

  lemma NoShutdownAsked(afterOff: bool, residue: bool, request: Request)
    ensures BeforeShutdown(FailedChange(afterOff, residue) + Asked(request))
    ensures BeforeShutdown(FailedChange(afterOff, residue) + Asked(request) + [Finish(true, false)])
  {
  }

  /** The run that shows a missing skip: the opposite request after the failure repeats the wrong toggle. */
  function RepeatedToggle(afterOff: bool): seq<Event> {
    FailedChange(afterOff, false) + Asked(if afterOff then On else Off) + [Finish(true, false)]
  }

  lemma RepeatedToggleIsWrong(config: Config)
    requires !(config.skipOffAfterFailedOn && config.skipOnAfterFailedOff)
    ensures var wrong := RepeatedToggle(config.skipOffAfterFailedOn);
            && Run(config, wrong).Some? && BeforeShutdown(wrong)
            && Run(config, wrong).value.c.state == (if config.skipOffAfterFailedOn then StateOn else StateOff)
            && Bit(ToggleOnly, config, wrong) == !config.skipOffAfterFailedOn
  {
    var afterOff := config.skipOffAfterFailedOn;
    var failed := FailedChange(afterOff, false);
    var request := if afterOff then On else Off;
    FailedChangeRuns(config, afterOff, false);
    NoShutdownAsked(afterOff, false, request);
    var m := Run(config, failed).value;
    AskRuns(config, failed, m, request);
    AskingStarts(m, request);
    CommandEnds(config, failed + Asked(request), AfterAsking(m, request),
                if afterOff then TurnOn else TurnOff, true, false);
  }

  /** A toggle-only application is tracked on every run exactly when both skips are on. */
  lemma ToggleOnlyNeedsBothSkips(config: Config)
    ensures (forall events :: Run(config, events).Some? && BeforeShutdown(events) ==>
               Tracks(Run(config, events).value, Bit(ToggleOnly, config, events)))
            <==> (config.skipOffAfterFailedOn && config.skipOnAfterFailedOff)
  {
    if config.skipOffAfterFailedOn && config.skipOnAfterFailedOff {
      forall events | Run(config, events).Some? && BeforeShutdown(events)
        ensures Tracks(Run(config, events).value, Bit(ToggleOnly, config, events))
      {
        ToggleOnlyIsTracked(config, events);
      }
    } else {
      RepeatedToggleIsWrong(config);
      var wrong := RepeatedToggle(config.skipOffAfterFailedOn);
      assert !Tracks(Run(config, wrong).value, Bit(ToggleOnly, config, wrong));
    }
  }

  predicate StableIsTheBit(config: Config, events: seq<Event>)
    requires Run(config, events).Some?
  {
    var state := Run(config, events).value.c.state;
    state != Uncertain ==> (state == StateOn) == Bit(Idempotent, config, events)
  }

  /** A stable state is always the bit of an idempotent application exactly when both skips are off. */
  lemma IdempotentNeedsNoSkips(config: Config)
    ensures (forall events :: Run(config, events).Some? && BeforeShutdown(events) ==> StableIsTheBit(config, events))
            <==> (!config.skipOffAfterFailedOn && !config.skipOnAfterFailedOff)
  {
    if !config.skipOffAfterFailedOn && !config.skipOnAfterFailedOff {
      forall events | Run(config, events).Some? && BeforeShutdown(events)
        ensures StableIsTheBit(config, events)
      {
        IdempotentIsTracked(config, events);
      }
    } else {
      StableStateIsWrong(config);
    }
  }

  /** A skip that is on moves the state without a command, whatever the failed command had left behind. */
  lemma StableStateIsWrong(config: Config)
    requires config.skipOffAfterFailedOn || config.skipOnAfterFailedOff
    ensures exists wrong :: Run(config, wrong).Some? && BeforeShutdown(wrong) && !StableIsTheBit(config, wrong)
  {
    var afterOff := !config.skipOffAfterFailedOn;
    var failed := FailedChange(afterOff, !afterOff);
    var request := if afterOff then On else Off;
    FailedChangeRuns(config, afterOff, !afterOff);
    NoShutdownAsked(afterOff, !afterOff, request);
    var m := Run(config, failed).value;
    AskRuns(config, failed, m, request);
    AskingStarts(m, request);
    var wrong := failed + Asked(request);
    assert !StableIsTheBit(config, wrong);
  }
}
