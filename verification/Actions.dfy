/**
 The action controller: one queue of requests, one worker, one command in flight,
 an uncertain state after a failure, an automatic-off timer and a shutdown barrier.

 `Controller` holds the fields of the source's class.  `Begin` and `Complete` are the two
 await-free halves of handling a message, on either side of the awaited command.
 */
module Actions {
  import opened Common

  datatype Request = On | Off | Toggle | AutoOff

  datatype Direction = TurnOn | TurnOff

  datatype ActionState = StateOff | StateOn | Uncertain

  datatype Config = Config(
    skipOffAfterFailedOn: bool,
    skipOnAfterFailedOff: bool,
    offOnShutdown: bool)

  datatype Message = Message(sequence: nat, request: Request, toggleTimeout: Option<int>)

  /** A command handed to the runner, with the deadline it was given. */
  datatype Command = Command(direction: Direction, message: Message, deadline: Option<int>)

  datatype Worker = Unstarted | Live | Ended

  datatype Controller = Controller(
    config: Config,
    state: ActionState,
    failed: Option<Direction>,
    queue: seq<Message>,
    nextSequence: nat,
    accepting: bool,
    timer: Option<nat>,
    active: Option<Command>,
    worker: Worker)
  {
    /** The state is uncertain exactly when a failed direction is remembered. */
    predicate Consistent() {
      (state == Uncertain) == failed.Some?
    }
  }

  function Fresh(config: Config): Controller {
    Controller(config, StateOff, None, [], 0, true, None, None, Unstarted)
  }

  function StableState(d: Direction): ActionState {
    if d == TurnOn then StateOn else StateOff
  }

  function ResolveDirection(c: Controller, request: Request): Direction
    requires c.Consistent()
  {
    match request
    case On => TurnOn
    case Off => TurnOff
    case AutoOff => TurnOff
    case Toggle =>
      match c.state
      case StateOff => TurnOn
      case StateOn => TurnOff
      case Uncertain => c.failed.value
  }

  predicate SkipsUncertainTransition(c: Controller, d: Direction) {
    && c.state == Uncertain
    && ((c.failed == Some(TurnOn) && d == TurnOff && c.config.skipOffAfterFailedOn)
        || (c.failed == Some(TurnOff) && d == TurnOn && c.config.skipOnAfterFailedOff))
  }

  function SetStable(c: Controller, d: Direction): Controller {
    c.(state := StableState(d), failed := None)
  }

  function Enqueue(c: Controller, request: Request, timeout: Option<int>): Controller {
    if !c.accepting then c
    else c.(queue := c.queue + [Message(c.nextSequence, request, timeout)],
            nextSequence := c.nextSequence + 1)
  }

  /** The half of message handling before the command is awaited. */
  function Begin(c: Controller, m: Message, deadline: Option<int>): (r: (Controller, Option<Command>))
    requires c.Consistent()
    ensures r.0.Consistent() && r.0.timer == None
    ensures r.1.Some? ==> r.0.active == r.1
  {
    var quiet := c.(timer := None);
    var d := ResolveDirection(quiet, m.request);
    if SkipsUncertainTransition(quiet, d) then (SetStable(quiet, d), None)
    else if quiet.state == StableState(d) then (quiet, None)
    else
      var command := Command(d, m, deadline);
      (quiet.(active := Some(command)), Some(command))
  }

  predicate ArmsTimer(c: Controller, command: Command, success: bool, allowTimer: bool) {
    && success && allowTimer && c.accepting
    && command.direction == TurnOn && command.message.request == Toggle
    && command.message.toggleTimeout.Some? && command.message.toggleTimeout.value > 0
  }

  /** The half of message handling after the command has ended. */
  function Complete(c: Controller, success: bool, allowTimer: bool, handle: nat): (r: Controller)
    requires c.Consistent() && c.active.Some?
    ensures r.Consistent() && r.active == None
  {
    var command := c.active.value;
    var idle := c.(active := None);
    if !success then idle.(state := Uncertain, failed := Some(command.direction))
    else
      var stable := SetStable(idle, command.direction);
      if ArmsTimer(c, command, success, allowTimer) then stable.(timer := Some(handle)) else stable
  }

  /** The await-free start of shutdown: refuse, discard, cancel. */
  function CloseIntake(c: Controller): Controller {
    c.(accepting := false, queue := [], timer := None)
  }

  // ---------------------------------------------------------------------------
  // The object itself.
  // ---------------------------------------------------------------------------

  class ActionController {
    const config: Config
    var state: ActionState
    var failed: Option<Direction>
    var queue: seq<Message>
    var nextSequence: nat
    var accepting: bool
    var timer: Option<nat>
    var active: Option<Command>
    var worker: Worker

    function State(): Controller
      reads this
    {
      Controller(config, state, failed, queue, nextSequence, accepting, timer, active, worker)
    }

    constructor (config: Config)
      ensures State() == Fresh(config)
    {
      this.config := config;
      state, failed := StateOff, None;
      queue, nextSequence, accepting := [], 0, true;
      timer, active, worker := None, None, Unstarted;
    }

    method Submit(request: Request, timeout: Option<int>) returns (sequence: Option<nat>)
      modifies this
      ensures State() == Enqueue(old(State()), request, timeout)
      ensures sequence == if old(accepting) then Some(old(nextSequence)) else None
    {
      if !accepting {
        return None;
      }
      sequence := Some(nextSequence);
      queue := queue + [Message(nextSequence, request, timeout)];
      nextSequence := nextSequence + 1;
    }

    method CancelTimer() returns (cancelled: Option<nat>)
      modifies this`timer
      ensures State() == old(State()).(timer := None) && cancelled == old(timer)
    {
      cancelled := timer;
      timer := None;
    }

    method AutomaticOff()
      modifies this
      ensures State() == Enqueue(old(State()).(timer := None), AutoOff, None)
    {
      timer := None;
      var _ := Submit(AutoOff, None);
    }

    method BeginMessage(m: Message, deadline: Option<int>) returns (command: Option<Command>)
      requires State().Consistent()
      modifies this
      ensures (State(), command) == Begin(old(State()), m, deadline)
    {
      var _ := CancelTimer();
      var direction: Direction;
      match m.request {
        case On => direction := TurnOn;
        case Off => direction := TurnOff;
        case AutoOff => direction := TurnOff;
        case Toggle =>
          if state == StateOff {
            direction := TurnOn;
          } else if state == StateOn {
            direction := TurnOff;
          } else {
            direction := failed.value;
          }
      }
      var skip := false;
      if state == Uncertain {
        if failed == Some(TurnOn) && direction == TurnOff {
          skip := config.skipOffAfterFailedOn;
        } else if failed == Some(TurnOff) && direction == TurnOn {
          skip := config.skipOnAfterFailedOff;
        }
      }
      if skip {
        state, failed := StableState(direction), None;
        return None;
      }
      if state == StableState(direction) {
        return None;
      }
      active := Some(Command(direction, m, deadline));
      return active;
    }

    method CompleteMessage(success: bool, allowTimer: bool, handle: nat)
      requires State().Consistent() && active.Some?
      modifies this
      ensures State() == Complete(old(State()), success, allowTimer, handle)
    {
      var command := active.value;
      active := None;
      if success {
        state, failed := StableState(command.direction), None;
        if allowTimer && accepting && command.direction == TurnOn && command.message.request == Toggle
           && command.message.toggleTimeout.Some? && command.message.toggleTimeout.value > 0 {
          timer := Some(handle);
        }
        return;
      }
      state, failed := Uncertain, Some(command.direction);
    }

    method DiscardQueuedMessages()
      modifies this`queue
      ensures State() == old(State()).(queue := [])
    {
      while queue != []
        invariant State() == old(State()).(queue := queue)
        decreases |queue|
      {
        queue := queue[1..];
      }
    }

    method BeginShutdown() returns (cancelled: Option<nat>)
      modifies this
      ensures State() == CloseIntake(old(State())) && cancelled == old(timer)
    {
      accepting := false;
      DiscardQueuedMessages();
      cancelled := CancelTimer();
    }
  }
}
