/**
 What the events alone tell of the runner: the clock, the shutdown deadline, how each call of `run` ends and
 when it is given up, and why a cleanup ends.  The claims hold of every run.
 */
module RunnerHistory {
  import opened Common
  import opened Runner
  import opened RunnerProtocol

  /** The time that has passed. */
  function Clock(events: seq<Event>): int {
    if events == [] then 0
    else
      var e := events[|events| - 1];
      Clock(events[..|events| - 1]) + if e.Tick? then e.elapsed else 0
  }

  /** The earliest deadline any call of `terminate_active` has asked for. */
  function ShutdownBy(shutdownTimeout: nat, events: seq<Event>): Option<int> {
    if events == [] then None
    else
      var prior, e := events[..|events| - 1], events[|events| - 1];
      var earlier := ShutdownBy(shutdownTimeout, prior);
      if !e.Terminate? then earlier
      else if e.deadline.Some? then Earlier(earlier, e.deadline)
      else Earlier(earlier, Some(Clock(prior) + shutdownTimeout))
  }

  function ExitCodes(events: seq<Event>): map<Process, int> {
    if events == [] then map[]
    else
      var e := events[|events| - 1];
      var earlier := ExitCodes(events[..|events| - 1]);
      if e.Exit? then earlier[e.process := e.code] else earlier
  }

  function Calls(events: seq<Event>): nat {
    if events == [] then 0
    else Calls(events[..|events| - 1]) + if events[|events| - 1].Call? then 1 else 0
  }

  /** What has happened to one call of `run`. */
  datatype Story = Story(
    timeout: int,
    deadline: Option<int>,
    refused: bool,              // called after a shutdown
    failed: Option<bool>,       // the spawn failed; true: the program was not found
    process: Option<Process>,   // the spawn succeeded
    launchedAt: int,
    late: bool,                 // it succeeded after a shutdown
    sawExit: bool,
    timedOut: bool,
    cancelled: bool)

  function StoryOf(events: seq<Event>, k: nat): Story {
    if events == [] then Story(0, None, false, None, None, 0, false, false, false, false)
    else
      var prior, e := events[..|events| - 1], events[|events| - 1];
      var s := StoryOf(prior, k);
      match e
      case Call(timeout, deadline) =>
        if Calls(prior) == k then s.(timeout := timeout, deadline := deadline, refused := ShutDown(prior)) else s
      case LaunchFails(i, notFound) => if i == k then s.(failed := Some(notFound)) else s
      case LaunchSucceeds(i, p) =>
        if i == k then s.(process := Some(p), launchedAt := Clock(prior), late := ShutDown(prior)) else s
      case RunSeesExit(i) => if i == k then s.(sawExit := true) else s
      case RunTimesOut(i) => if i == k then s.(timedOut := true) else s
      case CancelRun(i) => if i == k then s.(cancelled := true) else s
      case _ => s
  }

  predicate ShutDown(events: seq<Event>) {
    exists f <- events :: f.Terminate?
  }

  /** The earlier of the timeout, counted from the launch, and the deadline the call was given. */
  function GivenUpAt(s: Story): int {
    if s.deadline.Some? then Min(s.launchedAt + s.timeout, s.deadline.value) else s.launchedAt + s.timeout
  }

  /** The result a call with this story must give. */
  predicate Verdict(s: Story, codes: map<Process, int>, result: RunResult) {
    match result
    case Cancelled => s.cancelled
    case TimedOut => s.timedOut && !s.cancelled
    case NotFound => s.failed == Some(true)
    case LaunchFailed => s.refused || s.failed == Some(false) || (s.late && !s.cancelled)
    case Succeeded => s.sawExit && s.process.Some? && s.process.value in codes && codes[s.process.value] == 0
    case ExitedNonzero(code) =>
      s.sawExit && s.process.Some? && s.process.value in codes && codes[s.process.value] == code && code != 0
  }

  /** Where a call stands, as its story has it. */
  predicate Tells(s: Story, call: RunCall, codes: map<Process, int>) {
    match call
    case Launching(timeout, deadline) =>
      s == Story(timeout, deadline, false, None, None, s.launchedAt, false, false, false, false)
    case LateCleanup(p, _, cancelled) =>
      s == Story(s.timeout, s.deadline, false, None, Some(p), s.launchedAt, true, false, false, cancelled)
    case Running(p, until, deadline) =>
      && s == Story(s.timeout, deadline, false, None, Some(p), s.launchedAt, false, false, false, false)
      && until == GivenUpAt(s)
    case Cleaning(p, _, timedOut, cancelled) =>
      && s == Story(s.timeout, s.deadline, false, None, Some(p), s.launchedAt, false, false, timedOut, cancelled)
      && (timedOut || cancelled)
    case Finished(owner, late, result) =>
      && s.process == owner && s.late == late
      && Decided(s) && (s.sawExit ==> owner.Some? && owner.value in codes) && Verdict(s, codes, result)
  }

  /** Only one way of ending has come up, but for a cancellation on top of a timeout or a late launch. */
  predicate Decided(s: Story) {
    && (s.refused ==> s.failed == None && s.process == None && !s.late)
    && (s.failed.Some? ==> s.process == None && !s.late)
    && (s.late ==> s.process.Some? && !s.sawExit && !s.timedOut)
    && (s.sawExit ==> s.process.Some? && !s.timedOut && !s.cancelled)
    && (s.timedOut || s.cancelled ==> s.process.Some?)
    && (s.refused || s.failed.Some? || s.late || s.sawExit || s.timedOut || s.cancelled)
  }

  /** One story, one result. */
  lemma OneVerdict(s: Story, codes: map<Process, int>, a: RunResult, b: RunResult)
    requires Decided(s) && Verdict(s, codes, a) && Verdict(s, codes, b)
    ensures a == b
  {
  }

  ghost predicate CallsTold(w: World, events: seq<Event>) {
    && |w.runs| == Calls(events)
    && (forall k: nat | k >= |w.runs| :: StoryOf(events, k) == StoryOf([], k))
    && (forall k | 0 <= k < |w.runs| :: Tells(StoryOf(events, k), w.runs[k], w.exited))
  }

  ghost predicate Chronicled(w: World, events: seq<Event>) {
    && w.now == Clock(events)
    && w.shutdownDeadline == ShutdownBy(w.shutdownTimeout, events)
    && (w.shutdownDeadline.Some? <==> ShutDown(events))
    && w.exited == ExitCodes(events)
    && CallsTold(w, events)
  }

  // -- Steps -------------------------------------------------------------------------

  lemma ShutDownMore(prior: seq<Event>, e: Event)
    ensures ShutDown(prior + [e]) <==> ShutDown(prior) || e.Terminate?
  {
    if ShutDown(prior) {
      var f :| f in prior && f.Terminate?;
      assert f in prior + [e];
    }
    assert e in prior + [e];
  }

  /** Which call of `run` an event moves. */
  function Moves(e: Event): Option<nat> {
    match e
    case LaunchFails(k, _) => Some(k)
    case LaunchSucceeds(k, _) => Some(k)
    case RunSeesExit(k) => Some(k)
    case RunTimesOut(k) => Some(k)
    case CancelRun(k) => Some(k)
    case RunResumes(k) => Some(k)
    case _ => None
  }

  /** What a step may do to the clock, the exits, the shutdown deadline and the calls of `run`. */
  predicate Framed(w: World, n: World, e: Event) {
    && n.now == w.now + (if e.Tick? then e.elapsed else 0) && n.shutdownTimeout == w.shutdownTimeout
    && n.exited == (if e.Exit? then w.exited[e.process := e.code] else w.exited)
    && n.shutdownDeadline
       == (if !e.Terminate? then w.shutdownDeadline
           else Earlier(w.shutdownDeadline,
                        if e.deadline.Some? then e.deadline else Some(w.now + w.shutdownTimeout)))
    && (w.shutdownDeadline.Some? ==> n.launches <= w.launches)     // no launch begins
    && (!e.Call? ==> |n.runs| == |w.runs|)
    && (forall i | 0 <= i < |w.runs| && Moves(e) != Some(i) :: i < |n.runs| && n.runs[i] == w.runs[i])
  }

  lemma LaunchIsFramed(w: World, k: nat, p: Process)
    requires Inv(w) && Enabled(w, LaunchSucceeds(k, p))
    ensures Framed(w, LaunchNext(w, k, p), LaunchSucceeds(k, p))
  {
    if w.shutdownDeadline.Some? {
      LateHurries(w, k, p);
    }
  }

  lemma CleanIsFramed(w: World, k: nat, timedOut: bool)
    requires Inv(w) && k < |w.runs| && w.runs[k].Running?
    ensures Framed(w, CleanNext(w, k, timedOut), if timedOut then RunTimesOut(k) else CancelRun(k))
  {
    CleanHurries(w, k, timedOut);
  }

  lemma GatherIsFramed(w: World, j: nat, e: Event)
    requires Inv(w) && j < |w.terminations| && (w.terminations[j].Starting? || w.terminations[j].AwaitingLaunches?)
    requires e.TerminationStarts? || e.LaunchesSettle?
    ensures Framed(w, GatherNext(w, j), e)
  {
    GatherHurries(w, j);
  }

  /** A call moves on, and with it at most the counters and the two dictionaries. */
  lemma MoveIsFramed(w: World, n: World, e: Event, k: nat)
    requires Moves(e) == Some(k) && k < |w.runs| == |n.runs| && n.runs == w.runs[k := n.runs[k]]
    requires n == w.(runs := n.runs, active := n.active, cleanups := n.cleanups, launches := n.launches,
                     launchesFinished := n.launchesFinished)
    requires n.launches <= w.launches
    ensures Framed(w, n, e)
  {
  }

  lemma EndIsFramed(w: World, e: Event)
    requires Enabled(w, e) && (e.RunSeesExit? || e.RunResumes?)
    ensures Framed(w, Next(w, e), e)
  {
    MoveIsFramed(w, Next(w, e), e, e.run);
  }

  lemma OwnStepIsFramed(w: World, e: Event)
    requires Enabled(w, e)
    requires e.LaunchFails? || (e.CancelRun? && !w.runs[e.run].Running?)
    ensures Framed(w, Next(w, e), e)
  {
    MoveIsFramed(w, Next(w, e), e, e.run);
  }

  lemma CallIsFramed(w: World, timeout: int, deadline: Option<int>)
    ensures Framed(w, CallNext(w, timeout, deadline), Call(timeout, deadline))
  {
  }

  lemma OuterStepIsFramed(w: World, e: Event)
    requires Enabled(w, e)
    requires e.Exit? || e.Tick? || e.Terminate? || e.TerminationResumes? || e.CancelTermination?
    ensures Framed(w, Next(w, e), e)
  {
  }

  lemma AdvanceIsFramed(w: World, terms: multiset<Process>, t: nat, c: Cleanup, e: Event)
    requires t < |w.tasks| && (e.CleanupStarts? || e.CleanupSeesExit? || e.CleanupSeesUpdate? || e.CleanupTimesOut?)
    ensures Framed(w, Advance(w.(terms := terms), t, c), e)
  {
  }

  lemma WakeIsFramed(w: World, t: nat, over: bool, e: Event)
    requires InTask(w, t) && (e.CleanupSeesExit? || e.CleanupSeesUpdate? || e.CleanupTimesOut?)
    ensures Framed(w, WakeCleanup(w, t, over), e)
  {
    var c := w.tasks[t];
    var turned := if over then PhaseOver(c, c.phase.grace, w.now) else Turn(c, c.phase.grace, w.now);
    AdvanceIsFramed(w, w.terms, t, turned, e);
  }

  lemma BeginIsFramed(w: World, t: nat)
    requires t < |w.tasks|
    ensures Framed(w, BeginCleanup(w, t), CleanupStarts(t))
  {
    AdvanceIsFramed(w, w.terms + multiset{w.tasks[t].process}, t, Turn(w.tasks[t], Some(w.now + GRACE), w.now),
                    CleanupStarts(t));
  }

  lemma StepIsFramed(w: World, e: Event)
    requires Inv(w) && Enabled(w, e)
    ensures Framed(w, Next(w, e), e)
  {
    match e {
      case LaunchSucceeds(k, p) => LaunchIsFramed(w, k, p);
      case RunTimesOut(k) => CleanIsFramed(w, k, true);
      case CancelRun(k) => if w.runs[k].Running? { CleanIsFramed(w, k, false); } else { OwnStepIsFramed(w, e); }
      case LaunchesSettle(j) => GatherIsFramed(w, j, e);
      case TerminationStarts(j) =>
        if !(w.launches > 0 && w.terminations[j].until > w.now) { GatherIsFramed(w, j, e); }
      case Exit(_, _) => OuterStepIsFramed(w, e);
      case Tick(_) => OuterStepIsFramed(w, e);
      case Terminate(_) => OuterStepIsFramed(w, e);
      case TerminationResumes(_) => OuterStepIsFramed(w, e);
      case CancelTermination(_) => OuterStepIsFramed(w, e);
      case CleanupStarts(t) => BeginIsFramed(w, t);
      case CleanupSeesExit(t) => WakeIsFramed(w, t, true, e);
      case CleanupSeesUpdate(t) => WakeIsFramed(w, t, false, e);
      case CleanupTimesOut(t) => WakeIsFramed(w, t, true, e);
      case Call(timeout, deadline) => CallIsFramed(w, timeout, deadline);
      case RunSeesExit(_) => EndIsFramed(w, e);
      case RunResumes(_) => EndIsFramed(w, e);
      case _ => OwnStepIsFramed(w, e);
    }
  }

  lemma LaunchIsTold(w: World, prior: seq<Event>, k: nat, p: Process)
    requires Enabled(w, LaunchSucceeds(k, p)) && Chronicled(w, prior)
    ensures k < |LaunchNext(w, k, p).runs|
    ensures Tells(StoryOf(prior + [LaunchSucceeds(k, p)], k), LaunchNext(w, k, p).runs[k], w.exited)
  {
    assert (prior + [LaunchSucceeds(k, p)])[..|prior|] == prior;
    assert Tells(StoryOf(prior, k), w.runs[k], w.exited);
  }

  lemma CleanIsTold(w: World, prior: seq<Event>, k: nat, timedOut: bool)
    requires k < |w.runs| && w.runs[k].Running? && Chronicled(w, prior)
    ensures k < |CleanNext(w, k, timedOut).runs|
    ensures Tells(StoryOf(prior + [if timedOut then RunTimesOut(k) else CancelRun(k)], k),
                  CleanNext(w, k, timedOut).runs[k], w.exited)
  {
    var e := if timedOut then RunTimesOut(k) else CancelRun(k);
    assert (prior + [e])[..|prior|] == prior;
    assert Tells(StoryOf(prior, k), w.runs[k], w.exited);
  }

  lemma LaunchFailureIsTold(w: World, prior: seq<Event>, k: nat, notFound: bool)
    requires Enabled(w, LaunchFails(k, notFound)) && Chronicled(w, prior)
    ensures Tells(StoryOf(prior + [LaunchFails(k, notFound)], k), LaunchFailsNext(w, k, notFound).runs[k], w.exited)
  {
    assert (prior + [LaunchFails(k, notFound)])[..|prior|] == prior;
    assert Tells(StoryOf(prior, k), w.runs[k], w.exited);
  }

  lemma ExitIsTold(w: World, prior: seq<Event>, k: nat)
    requires Enabled(w, RunSeesExit(k)) && Chronicled(w, prior)
    ensures Tells(StoryOf(prior + [RunSeesExit(k)], k), SeesExitNext(w, k).runs[k], w.exited)
  {
    assert (prior + [RunSeesExit(k)])[..|prior|] == prior;
    assert Tells(StoryOf(prior, k), w.runs[k], w.exited);
  }

  lemma ResumeIsTold(w: World, prior: seq<Event>, k: nat)
    requires Enabled(w, RunResumes(k)) && Chronicled(w, prior)
    ensures Tells(StoryOf(prior + [RunResumes(k)], k), ResumeNext(w, k).runs[k], w.exited)
  {
    assert (prior + [RunResumes(k)])[..|prior|] == prior;
    assert Tells(StoryOf(prior, k), w.runs[k], w.exited);
  }

  lemma CancelIsTold(w: World, prior: seq<Event>, k: nat)
    requires Enabled(w, CancelRun(k)) && !w.runs[k].Running? && Chronicled(w, prior)
    ensures Tells(StoryOf(prior + [CancelRun(k)], k), CancelNext(w, k).runs[k], w.exited)
  {
    assert (prior + [CancelRun(k)])[..|prior|] == prior;
    assert Tells(StoryOf(prior, k), w.runs[k], w.exited);
  }

  /** The call that an event moves is where its story now has it. */
  lemma MovedCallIsTold(w: World, prior: seq<Event>, e: Event, k: nat)
    requires Inv(w) && Enabled(w, e) && Chronicled(w, prior) && Moves(e) == Some(k)
    ensures k < |w.runs| && k < |Next(w, e).runs|
    ensures Tells(StoryOf(prior + [e], k), Next(w, e).runs[k], w.exited)
  {
    match e {
      case LaunchSucceeds(_, p) => LaunchIsTold(w, prior, k, p);
      case RunTimesOut(_) => CleanIsTold(w, prior, k, true);
      case CancelRun(_) =>
        if w.runs[k].Running? { CleanIsTold(w, prior, k, false); } else { CancelIsTold(w, prior, k); }
      case LaunchFails(_, notFound) => LaunchFailureIsTold(w, prior, k, notFound);
      case RunSeesExit(_) => ExitIsTold(w, prior, k);
      case RunResumes(_) => ResumeIsTold(w, prior, k);
    }
  }

  lemma OtherStoriesStay(prior: seq<Event>, e: Event, i: nat)
    requires Moves(e) != Some(i) && (e.Call? ==> i != Calls(prior))
    ensures StoryOf(prior + [e], i) == StoryOf(prior, i)
  {
    assert (prior + [e])[..|prior|] == prior;
  }

  lemma CallStepTells(w: World, prior: seq<Event>, timeout: int, deadline: Option<int>)
    requires Chronicled(w, prior)
    ensures CallsTold(CallNext(w, timeout, deadline), prior + [Call(timeout, deadline)])
  {
    var e, n := Call(timeout, deadline), CallNext(w, timeout, deadline);
    assert (prior + [e])[..|prior|] == prior;
    forall i: nat | i != |w.runs| ensures StoryOf(prior + [e], i) == StoryOf(prior, i) {
      OtherStoriesStay(prior, e, i);
    }
    assert StoryOf(prior, |w.runs|) == StoryOf([], |w.runs|);
    forall i | 0 <= i < |n.runs| ensures Tells(StoryOf(prior + [e], i), n.runs[i], n.exited) {
      if i < |w.runs| {
        assert Tells(StoryOf(prior, i), w.runs[i], w.exited);
      }
    }
  }

  lemma OtherStepTells(w: World, prior: seq<Event>, e: Event)
    requires Inv(w) && Enabled(w, e) && Chronicled(w, prior) && !e.Call?
    ensures CallsTold(Next(w, e), prior + [e])
  {
    var n := Next(w, e);
    assert (prior + [e])[..|prior|] == prior;
    StepIsFramed(w, e);
    if Moves(e).Some? {
      MovedCallIsTold(w, prior, e, Moves(e).value);
    }
    forall i: nat | Moves(e) != Some(i) ensures StoryOf(prior + [e], i) == StoryOf(prior, i) {
      OtherStoriesStay(prior, e, i);
    }
    forall i | 0 <= i < |n.runs| ensures Tells(StoryOf(prior + [e], i), n.runs[i], n.exited) {
      if Moves(e) != Some(i) {
        assert Tells(StoryOf(prior, i), w.runs[i], w.exited);
      }
    }
  }

  lemma {:induction false} RunIsChronicled(shutdownTimeout: nat, events: seq<Event>)
    requires Run(shutdownTimeout, events).Some?
    ensures Chronicled(Run(shutdownTimeout, events).value, events)
    ensures Run(shutdownTimeout, events).value.shutdownTimeout == shutdownTimeout
  {
    if events != [] {
      var prior, e := events[..|events| - 1], events[|events| - 1];
      RunIsChronicled(shutdownTimeout, prior);
      RunKeepsInv(shutdownTimeout, prior);
      assert events == prior + [e];
      StepIsChronicled(Run(shutdownTimeout, prior).value, prior, e);
    }
  }

  lemma StepIsChronicled(w: World, prior: seq<Event>, e: Event)
    requires Inv(w) && Enabled(w, e) && Chronicled(w, prior)
    ensures Chronicled(Next(w, e), prior + [e]) && Next(w, e).shutdownTimeout == w.shutdownTimeout
  {
    assert (prior + [e])[..|prior|] == prior;
    StepIsFramed(w, e);
    ShutDownMore(prior, e);
    if e.Call? {
      CallStepTells(w, prior, e.timeout, e.deadline);
    } else {
      OtherStepTells(w, prior, e);
    }
  }

  // -- What the events tell ----------------------------------------------------------

  /**
   A call of `run` ends with the one result its story allows: success exactly if it saw its process exit with
   code zero, before its timeout and any cancellation.
   */
  lemma ResultIsTheVerdict(shutdownTimeout: nat, events: seq<Event>, k: nat, result: RunResult)
    requires Run(shutdownTimeout, events).Some?
    requires var w := Run(shutdownTimeout, events).value; k < |w.runs| && w.runs[k].Finished?
    ensures Run(shutdownTimeout, events).value.runs[k].result == result
            <==> Verdict(StoryOf(events, k), ExitCodes(events), result)
  {
    RunIsChronicled(shutdownTimeout, events);
    var w := Run(shutdownTimeout, events).value;
    assert Tells(StoryOf(events, k), w.runs[k], w.exited);
    if Verdict(StoryOf(events, k), ExitCodes(events), result) {
      OneVerdict(StoryOf(events, k), w.exited, result, w.runs[k].result);
    }
  }

  /** A running call whose process has not exited can always end by its exit, whatever the code. */
  lemma ExitDecides(shutdownTimeout: nat, events: seq<Event>, k: nat, code: int)
    requires Run(shutdownTimeout, events).Some?
    requires var w := Run(shutdownTimeout, events).value;
             k < |w.runs| && w.runs[k].Running? && w.runs[k].process !in ExitCodes(events)
    ensures var p := Run(shutdownTimeout, events).value.runs[k].process;
            var after := Run(shutdownTimeout, events + [Exit(p, code), RunSeesExit(k)]);
            && after.Some? && |after.value.runs| > k
            && after.value.runs[k] == Finished(Some(p), false, if code == 0 then Succeeded else ExitedNonzero(code))
  {
    var p := Run(shutdownTimeout, events).value.runs[k].process;
    RunIsChronicled(shutdownTimeout, events);
    RunKeepsInv(shutdownTimeout, events);
    assert Owner(Run(shutdownTimeout, events).value.runs[k]) == Some(p);
    assert (events + [Exit(p, code)])[..|events|] == events;
    var both := events + [Exit(p, code), RunSeesExit(k)];
    assert both[..|both| - 1] == events + [Exit(p, code)];
  }

  /** A running call times out no earlier than its timeout or deadline, and can from then on. */
  lemma TimesOutInTime(shutdownTimeout: nat, events: seq<Event>, k: nat)
    requires Run(shutdownTimeout, events).Some?
    requires var w := Run(shutdownTimeout, events).value; k < |w.runs| && w.runs[k].Running?
    ensures Enabled(Run(shutdownTimeout, events).value, RunTimesOut(k))
            <==> Clock(events) >= GivenUpAt(StoryOf(events, k))
  {
    RunIsChronicled(shutdownTimeout, events);
    var w := Run(shutdownTimeout, events).value;
    assert Tells(StoryOf(events, k), w.runs[k], w.exited);
  }

  /** The shutdown deadline is the earliest asked for, and a new call is refused exactly once there is one. */
  lemma ShutdownIsTold(shutdownTimeout: nat, events: seq<Event>)
    requires Run(shutdownTimeout, events).Some?
    ensures var w := Run(shutdownTimeout, events).value;
            && w.shutdownDeadline == ShutdownBy(shutdownTimeout, events)
            && (w.shutdownDeadline.Some? <==> ShutDown(events))
            && |w.runs| == Calls(events)
  {
    RunIsChronicled(shutdownTimeout, events);
  }

  // -- Cleanups ----------------------------------------------------------------------

  /** When a cleanup task began, which is when it sent the terminating signal. */
  function BegunAt(events: seq<Event>, t: nat): Option<int> {
    if events == [] then None
    else
      var prior, e := events[..|events| - 1], events[|events| - 1];
      if e.CleanupStarts? && e.task == t then Some(Clock(prior)) else BegunAt(prior, t)
  }

  predicate Past(w: World, deadline: Option<int>) {
    deadline.Some? && w.now >= deadline.value
  }

  /** The reasons for which a cleanup may stop waiting for its process. */
  predicate MayEnd(w: World, c: Cleanup) {
    c.process in w.exited || Past(w, c.deadline)
  }

  predicate CleanupTold(w: World, c: Cleanup, begun: Option<int>) {
    match c.phase
    case Queued => begun == None
    case Waiting(Some(grace), armed) =>
      begun == Some(grace - GRACE) && AtMost(Earlier(Some(grace), c.deadline), armed)
    case Waiting(None, armed) =>
      begun.Some? && AtMost(c.deadline, armed) && (MayEnd(w, c) || w.now >= begun.value + GRACE)
    case Done => begun.Some? && MayEnd(w, c)
  }

  ghost predicate CleanupsTold(w: World, events: seq<Event>) {
    && (forall t: nat | t >= |w.tasks| :: BegunAt(events, t) == None)
    && (forall t | 0 <= t < |w.tasks| :: CleanupTold(w, w.tasks[t], BegunAt(events, t)))
  }

  /** What a turn of the waiting loop makes of a cleanup that has begun. */
  lemma TurnIsTold(w: World, c: Cleanup, grace: Option<int>, begun: int)
    requires if grace.Some? then grace.value == begun + GRACE else MayEnd(w, c) || w.now >= begun + GRACE
    ensures CleanupTold(w, Turn(c, grace, w.now), Some(begun))
    decreases grace.Some?
  {
    var armed := Earlier(grace, c.deadline);
    if armed == None || armed.value > w.now {
      assert Turn(c, grace, w.now) == c.(changed := false, phase := Waiting(grace, armed));
    } else if grace.Some? {
      TurnIsTold(w, c, None, begun);
      assert Turn(c, grace, w.now) == Turn(c, None, w.now);
    } else {
      assert Turn(c, grace, w.now) == c.(phase := Done);
    }
  }

  /** A phase that is over ends the cleanup only for a reason; the grace phase goes over into the last one. */
  lemma PhaseOverIsTold(w: World, c: Cleanup, grace: Option<int>, begun: int)
    requires grace.Some? ==> grace.value == begun + GRACE && (MayEnd(w, c) || w.now >= grace.value)
    requires grace == None ==> MayEnd(w, c)
    ensures CleanupTold(w, PhaseOver(c, grace, w.now), Some(begun))
  {
    if grace.Some? {
      TurnIsTold(w, c, None, begun);
    }
  }

  /** Deadlines that come forward, exits and time passing leave what was told true. */
  lemma HurriedIsTold(w: World, n: World, prior: seq<Event>, e: Event)
    requires CleanupsTold(w, prior) && !e.CleanupStarts?
    requires w.now <= n.now && (forall p <- w.exited :: p in n.exited) && |w.tasks| <= |n.tasks|
    requires forall t | 0 <= t < |w.tasks| ::
               n.tasks[t].process == w.tasks[t].process && n.tasks[t].phase == w.tasks[t].phase
               && AtMost(n.tasks[t].deadline, w.tasks[t].deadline)
    requires forall t | |w.tasks| <= t < |n.tasks| :: n.tasks[t].phase == Queued
    ensures CleanupsTold(n, prior + [e])
  {
    assert (prior + [e])[..|prior|] == prior;
    forall t | 0 <= t < |n.tasks| ensures CleanupTold(n, n.tasks[t], BegunAt(prior + [e], t)) {
      if t < |w.tasks| {
        assert CleanupTold(w, w.tasks[t], BegunAt(prior, t));
      }
    }
  }

  lemma AdvanceIsTold(w: World, n: World, prior: seq<Event>, e: Event, t: nat)
    requires CleanupsTold(w, prior) && t < |w.tasks|
    requires |n.tasks| == |w.tasks| && n.tasks == w.tasks[t := n.tasks[t]] && n.now == w.now && n.exited == w.exited
    requires e.CleanupStarts? ==> e.task == t
    requires CleanupTold(w, n.tasks[t], BegunAt(prior + [e], t))
    ensures CleanupsTold(n, prior + [e])
  {
    assert (prior + [e])[..|prior|] == prior;
    forall u | 0 <= u < |n.tasks| ensures CleanupTold(n, n.tasks[u], BegunAt(prior + [e], u)) {
      if u != t {
        assert CleanupTold(w, w.tasks[u], BegunAt(prior, u));
      }
    }
  }

  lemma BeginIsTold(w: World, prior: seq<Event>, t: nat)
    requires CleanupsTold(w, prior) && w.now == Clock(prior) && t < |w.tasks|
    ensures CleanupsTold(BeginCleanup(w, t), prior + [CleanupStarts(t)])
  {
    var e := CleanupStarts(t);
    assert (prior + [e])[..|prior|] == prior;
    TurnIsTold(w, w.tasks[t], Some(w.now + GRACE), w.now);
    AdvanceIsTold(w, BeginCleanup(w, t), prior, e, t);
  }

  lemma WakeIsTold(w: World, prior: seq<Event>, t: nat, e: Event)
    requires CleanupsTold(w, prior) && Enabled(w, e)
    requires e in {CleanupSeesExit(t), CleanupSeesUpdate(t), CleanupTimesOut(t)}
    ensures CleanupsTold(WakeCleanup(w, t, !e.CleanupSeesUpdate?), prior + [e])
  {
    var c := w.tasks[t];
    assert (prior + [e])[..|prior|] == prior;
    assert CleanupTold(w, c, BegunAt(prior, t));
    if e.CleanupSeesUpdate? {
      TurnIsTold(w, c, c.phase.grace, BegunAt(prior, t).value);
    } else {
      PhaseOverIsTold(w, c, c.phase.grace, BegunAt(prior, t).value);
    }
    AdvanceIsTold(w, WakeCleanup(w, t, !e.CleanupSeesUpdate?), prior, e, t);
  }

  lemma UntouchedIsTold(w: World, prior: seq<Event>, e: Event)
    requires CleanupsTold(w, prior) && Enabled(w, e)
    requires e.Call? || e.LaunchFails? || e.Exit? || e.RunSeesExit? || e.RunResumes? || e.TerminationResumes?
             || e.CancelTermination? || e.Tick? || (e.CancelRun? && !w.runs[e.run].Running?)
    ensures CleanupsTold(Next(w, e), prior + [e])
  {
    HurriedIsTold(w, Next(w, e), prior, e);
  }

  /** Starting a cleanup, or one for every active process. */
  lemma StartsAreTold(w: World, prior: seq<Event>, e: Event)
    requires Inv(w) && Enabled(w, e) && CleanupsTold(w, prior)
    requires e.LaunchSucceeds? || e.RunTimesOut? || (e.CancelRun? && w.runs[e.run].Running?)
    ensures CleanupsTold(Next(w, e), prior + [e])
  {
    match e {
      case LaunchSucceeds(k, p) => if w.shutdownDeadline.Some? { LateHurries(w, k, p); }
      case RunTimesOut(k) => CleanHurries(w, k, true);
      case CancelRun(k) => CleanHurries(w, k, false);
    }
    StepIsFramed(w, e);
    HurriedIsTold(w, Next(w, e), prior, e);
  }

  lemma GatherIsTold(w: World, prior: seq<Event>, j: nat, e: Event)
    requires Inv(w) && CleanupsTold(w, prior) && (e.TerminationStarts? || e.LaunchesSettle?)
    requires j < |w.terminations| && (w.terminations[j].Starting? || w.terminations[j].AwaitingLaunches?)
    ensures CleanupsTold(GatherNext(w, j), prior + [e])
  {
    GatherHurries(w, j);
    HurriedIsTold(w, GatherNext(w, j), prior, e);
  }

  lemma StepTellsCleanups(w: World, prior: seq<Event>, e: Event)
    requires Inv(w) && Enabled(w, e) && Chronicled(w, prior) && CleanupsTold(w, prior)
    ensures CleanupsTold(Next(w, e), prior + [e])
  {
    match e {
      case CleanupStarts(t) => BeginIsTold(w, prior, t);
      case CleanupSeesExit(t) => WakeIsTold(w, prior, t, e);
      case CleanupSeesUpdate(t) => WakeIsTold(w, prior, t, e);
      case CleanupTimesOut(t) => WakeIsTold(w, prior, t, e);
      case LaunchSucceeds(_, _) => StartsAreTold(w, prior, e);
      case RunTimesOut(_) => StartsAreTold(w, prior, e);
      case CancelRun(k) =>
        if w.runs[k].Running? { StartsAreTold(w, prior, e); } else { UntouchedIsTold(w, prior, e); }
      case Terminate(deadline) => TerminateIsTold(w, prior, deadline);
      case TerminationStarts(j) => TerminationStartIsTold(w, prior, j);
      case LaunchesSettle(j) => GatherIsTold(w, prior, j, e);
      case _ => UntouchedIsTold(w, prior, e);
    }
  }

  lemma TerminationStartIsTold(w: World, prior: seq<Event>, j: nat)
    requires Inv(w) && Enabled(w, TerminationStarts(j)) && CleanupsTold(w, prior)
    ensures CleanupsTold(Next(w, TerminationStarts(j)), prior + [TerminationStarts(j)])
  {
    if w.launches > 0 && w.terminations[j].until > w.now {
      HurriedIsTold(w, Next(w, TerminationStarts(j)), prior, TerminationStarts(j));
    } else {
      GatherIsTold(w, prior, j, TerminationStarts(j));
    }
  }

  lemma TerminateIsTold(w: World, prior: seq<Event>, deadline: Option<int>)
    requires Inv(w) && CleanupsTold(w, prior)
    ensures CleanupsTold(TerminateNext(w, deadline), prior + [Terminate(deadline)])
  {
    var n := TerminateNext(w, deadline);
    AdoptAllOk(w.(shutdownDeadline := n.shutdownDeadline), w.cleanups.Keys, n.shutdownDeadline);
    HurriedIsTold(w, n, prior, Terminate(deadline));
  }

  lemma {:induction false} RunTellsCleanups(shutdownTimeout: nat, events: seq<Event>)
    requires Run(shutdownTimeout, events).Some?
    ensures CleanupsTold(Run(shutdownTimeout, events).value, events)
  {
    if events != [] {
      var prior, e := events[..|events| - 1], events[|events| - 1];
      RunTellsCleanups(shutdownTimeout, prior);
      RunKeepsInv(shutdownTimeout, prior);
      RunIsChronicled(shutdownTimeout, prior);
      assert events == prior + [e];
      StepTellsCleanups(Run(shutdownTimeout, prior).value, prior, e);
    }
  }

  /**
   A cleanup gives up the grace phase only once its process has exited, half a second has passed since it began,
   or its deadline has; and it ends only once its process has exited or its deadline has passed.
   */
  lemma CleanupEndsForAReason(shutdownTimeout: nat, events: seq<Event>, t: nat)
    requires Run(shutdownTimeout, events).Some? && t < |Run(shutdownTimeout, events).value.tasks|
    ensures var w := Run(shutdownTimeout, events).value;
            var c := w.tasks[t];
            && (c.phase.Queued? <==> BegunAt(events, t) == None)
            && (c.phase.Done? ==> MayEnd(w, c))
            && (c.phase.Waiting? && c.phase.grace == None ==>
                  MayEnd(w, c) || Clock(events) >= BegunAt(events, t).value + GRACE)
            && (c.phase.Waiting? && c.phase.grace.Some? ==>
                  c.phase.grace.value == BegunAt(events, t).value + GRACE)
  {
    RunTellsCleanups(shutdownTimeout, events);
    RunIsChronicled(shutdownTimeout, events);
    var w := Run(shutdownTimeout, events).value;
    assert CleanupTold(w, w.tasks[t], BegunAt(events, t));
  }

  /** A cleanup that is asked for has the deadline asked for, unless it was to end earlier anyway. */
  lemma StartedWith(w: World, p: Process, wanted: Option<int>)
    requires TaskInv(w) && p in w.launched && Reachable(w, p)
    ensures var (n, t) := StartCleanup(w, p, wanted);
            && t < |n.tasks| && n.tasks[t].process == p
            && n.tasks[t].deadline
               == (if p in w.cleanups && w.cleanups[p] < |w.tasks| then Earlier(w.tasks[w.cleanups[p]].deadline, wanted)
                   else wanted)
  {
    StartCleanupOk(w, p, wanted);
    if p in w.cleanups {
      AdoptIsEarlier(w.tasks[w.cleanups[p]].deadline, w.tasks[w.cleanups[p]].changed, wanted);
    }
  }

  lemma BothDeadlines(own: Option<int>, shutdown: Option<int>)
    ensures RunCleanupDeadline(own, shutdown) == Earlier(own, shutdown)
  {
  }

  /** A run that is given up hands its process to a cleanup with the earliest of all the deadlines that concern it. */
  lemma HandedOverInTime(shutdownTimeout: nat, events: seq<Event>, k: nat, timedOut: bool)
    requires Run(shutdownTimeout, events).Some?
    requires var w := Run(shutdownTimeout, events).value; k < |w.runs| && w.runs[k].Running?
    ensures var w := Run(shutdownTimeout, events).value;
            var n, p := CleanNext(w, k, timedOut), w.runs[k].process;
            var asked := Earlier(StoryOf(events, k).deadline, ShutdownBy(shutdownTimeout, events));
            && k < |n.runs| && n.runs[k].Cleaning? && n.runs[k].process == p
            && n.runs[k].task < |n.tasks| && n.tasks[n.runs[k].task].process == p
            && n.tasks[n.runs[k].task].deadline
               == (if p in w.cleanups && w.cleanups[p] < |w.tasks| then Earlier(w.tasks[w.cleanups[p]].deadline, asked)
                   else asked)
  {
    RunKeepsInv(shutdownTimeout, events);
    RunIsChronicled(shutdownTimeout, events);
    var w := Run(shutdownTimeout, events).value;
    assert Tells(StoryOf(events, k), w.runs[k], w.exited);
    RunningIsReachable(w, k);
    assert Owner(w.runs[k]) == Some(w.runs[k].process);
    BothDeadlines(w.runs[k].deadline, w.shutdownDeadline);
    StartedWith(w, w.runs[k].process, RunCleanupDeadline(w.runs[k].deadline, w.shutdownDeadline));
  }

  // -- Calls of `terminate_active` ---------------------------------------------------

  function Terminations(events: seq<Event>): nat {
    if events == [] then 0
    else Terminations(events[..|events| - 1]) + if events[|events| - 1].Terminate? then 1 else 0
  }

  /** The deadline the `j`-th termination goes by: the shutdown deadline as it left it. */
  function TerminatesBy(shutdownTimeout: nat, events: seq<Event>, j: nat): Option<int> {
    if events == [] then None
    else
      var prior := events[..|events| - 1];
      if events[|events| - 1].Terminate? && Terminations(prior) == j then ShutdownBy(shutdownTimeout, events)
      else TerminatesBy(shutdownTimeout, prior, j)
  }

  predicate TerminationTold(w: World, call: TerminateCall, events: seq<Event>, j: nat) {
    && TerminatesBy(w.shutdownTimeout, events, j) == Some(call.until)
    && (call.cancelled <==> CancelTermination(j) in events)
    && (call.Gathering? || call.Returned? ==> w.launches <= 0 || w.now >= call.until)
  }

  ghost predicate TerminationsTold(w: World, events: seq<Event>) {
    && |w.terminations| == Terminations(events)
    && (forall j: nat | j >= |w.terminations| :: CancelTermination(j) !in events)
    && (forall j | 0 <= j < |w.terminations| :: TerminationTold(w, w.terminations[j], events, j))
  }

  /** Which termination an event moves. */
  function Turns(e: Event): Option<nat> {
    match e
    case TerminationStarts(j) => Some(j)
    case LaunchesSettle(j) => Some(j)
    case TerminationResumes(j) => Some(j)
    case CancelTermination(j) => Some(j)
    case _ => None
  }

  /** What a step does to the terminations: at most one of them moves, on its own conditions. */
  predicate TerminationsFramed(w: World, n: World, e: Event) {
    && |n.terminations| == |w.terminations| + (if e.Terminate? then 1 else 0)
    && (forall j | 0 <= j < |w.terminations| && Turns(e) != Some(j) :: n.terminations[j] == w.terminations[j])
    && (forall j | 0 <= j < |w.terminations| && Turns(e) == Some(j) ::
          && n.terminations[j].until == w.terminations[j].until
          && n.terminations[j].cancelled == (w.terminations[j].cancelled || e.CancelTermination?)
          && (n.terminations[j].Gathering? || n.terminations[j].Returned? ==>
                || (w.terminations[j].Gathering? || w.terminations[j].Returned?)
                || w.launches <= 0 || w.now >= w.terminations[j].until))
    && (e.Terminate? ==>
          && !n.terminations[|w.terminations|].cancelled && n.terminations[|w.terminations|].Starting?
          && n.shutdownDeadline == Some(n.terminations[|w.terminations|].until))
  }

  lemma GatherTurns(w: World, j: nat, e: Event)
    requires Inv(w) && Enabled(w, e) && Turns(e) == Some(j) && (e.TerminationStarts? || e.LaunchesSettle?)
    requires w.launches <= 0 || w.now >= w.terminations[j].until
    ensures TerminationsFramed(w, GatherNext(w, j), e)
  {
    GatherHurries(w, j);
  }

  lemma TerminationTurns(w: World, e: Event)
    requires Inv(w) && Enabled(w, e) && Turns(e).Some?
    ensures TerminationsFramed(w, Next(w, e), e)
  {
    match e {
      case TerminationStarts(j) =>
        if !(w.launches > 0 && w.terminations[j].until > w.now) { GatherTurns(w, j, e); }
      case LaunchesSettle(j) => GatherTurns(w, j, e);
      case _ =>
    }
  }

  lemma StartsAreFramed(w: World, e: Event)
    requires Inv(w) && Enabled(w, e)
    requires e.LaunchSucceeds? || e.RunTimesOut? || (e.CancelRun? && w.runs[e.run].Running?)
    ensures TerminationsFramed(w, Next(w, e), e)
  {
    match e {
      case LaunchSucceeds(k, p) => if w.shutdownDeadline.Some? { LateHurries(w, k, p); }
      case RunTimesOut(k) => CleanHurries(w, k, true);
      case CancelRun(k) => CleanHurries(w, k, false);
    }
  }

  lemma RunsLeaveTerminations(w: World, e: Event)
    requires Enabled(w, e)
    requires e.Call? || e.LaunchFails? || e.Exit? || e.RunSeesExit? || e.RunResumes? || e.Tick? || e.Terminate?
             || (e.CancelRun? && !w.runs[e.run].Running?)
    ensures TerminationsFramed(w, Next(w, e), e)
  {
  }

  lemma CleanupsLeaveTerminations(w: World, e: Event)
    requires Enabled(w, e)
    requires e.CleanupStarts? || e.CleanupSeesExit? || e.CleanupSeesUpdate? || e.CleanupTimesOut?
    ensures TerminationsFramed(w, Next(w, e), e)
  {
    match e {
      case CleanupStarts(t) => AdvanceLeavesTerminations(w, w.terms + multiset{w.tasks[t].process}, t,
                                                         Turn(w.tasks[t], Some(w.now + GRACE), w.now));
      case CleanupSeesExit(t) =>
        AdvanceLeavesTerminations(w, w.terms, t, PhaseOver(w.tasks[t], w.tasks[t].phase.grace, w.now));
      case CleanupSeesUpdate(t) =>
        AdvanceLeavesTerminations(w, w.terms, t, Turn(w.tasks[t], w.tasks[t].phase.grace, w.now));
      case CleanupTimesOut(t) =>
        AdvanceLeavesTerminations(w, w.terms, t, PhaseOver(w.tasks[t], w.tasks[t].phase.grace, w.now));
    }
  }

  lemma AdvanceLeavesTerminations(w: World, terms: multiset<Process>, t: nat, c: Cleanup)
    requires t < |w.tasks|
    ensures Advance(w.(terms := terms), t, c).terminations == w.terminations
  {
  }

  lemma StepFramesTerminations(w: World, e: Event)
    requires Inv(w) && Enabled(w, e)
    ensures TerminationsFramed(w, Next(w, e), e)
  {
    if Turns(e).Some? {
      TerminationTurns(w, e);
    } else if e.CleanupStarts? || e.CleanupSeesExit? || e.CleanupSeesUpdate? || e.CleanupTimesOut? {
      CleanupsLeaveTerminations(w, e);
    } else if e.LaunchSucceeds? || e.RunTimesOut? || (e.CancelRun? && w.runs[e.run].Running?) {
      StartsAreFramed(w, e);
    } else {
      RunsLeaveTerminations(w, e);
    }
  }

  lemma TerminationStaysTold(w: World, n: World, prior: seq<Event>, e: Event, j: nat)
    requires j < |w.terminations| && TerminationTold(w, w.terminations[j], prior, j)
    requires |w.terminations| == Terminations(prior) && w.shutdownDeadline.Some?
    requires Framed(w, n, e) && TerminationsFramed(w, n, e)
    ensures TerminationTold(n, n.terminations[j], prior + [e], j)
  {
    assert (prior + [e])[..|prior|] == prior;
    assert CancelTermination(j) in prior + [e] <==> CancelTermination(j) in prior || e == CancelTermination(j);
  }

  lemma NewTerminationIsTold(w: World, n: World, prior: seq<Event>, e: Event)
    requires e.Terminate? && |w.terminations| == Terminations(prior) && n.shutdownTimeout == w.shutdownTimeout
    requires CancelTermination(|w.terminations|) !in prior
    requires TerminationsFramed(w, n, e) && n.shutdownDeadline == ShutdownBy(n.shutdownTimeout, prior + [e])
    ensures TerminationTold(n, n.terminations[|w.terminations|], prior + [e], |w.terminations|)
  {
    assert (prior + [e])[..|prior|] == prior;
  }

  lemma StepTellsTerminations(w: World, prior: seq<Event>, e: Event)
    requires Inv(w) && Enabled(w, e) && Chronicled(w, prior) && TerminationsTold(w, prior)
    ensures TerminationsTold(Next(w, e), prior + [e])
  {
    var n := Next(w, e);
    assert (prior + [e])[..|prior|] == prior;
    StepFramesTerminations(w, e);
    StepIsChronicled(w, prior, e);
    StepIsFramed(w, e);
    forall j | 0 <= j < |n.terminations| ensures TerminationTold(n, n.terminations[j], prior + [e], j) {
      if j < |w.terminations| {
        TerminationStaysTold(w, n, prior, e, j);
      } else {
        NewTerminationIsTold(w, n, prior, e);
      }
    }
  }

  lemma {:induction false} RunTellsTerminations(shutdownTimeout: nat, events: seq<Event>)
    requires Run(shutdownTimeout, events).Some?
    ensures TerminationsTold(Run(shutdownTimeout, events).value, events)
  {
    if events != [] {
      var prior, e := events[..|events| - 1], events[|events| - 1];
      RunTellsTerminations(shutdownTimeout, prior);
      RunKeepsInv(shutdownTimeout, prior);
      RunIsChronicled(shutdownTimeout, prior);
      assert events == prior + [e];
      StepTellsTerminations(Run(shutdownTimeout, prior).value, prior, e);
    }
  }

  /**
   A termination goes by the earliest deadline asked for when it was called; it gathers and returns only once no
   launch is pending or that deadline has passed, and it ends cancelled exactly if it was cancelled.
   */
  lemma TerminationWaitsForLaunches(shutdownTimeout: nat, events: seq<Event>, j: nat)
    requires Run(shutdownTimeout, events).Some? && j < |Run(shutdownTimeout, events).value.terminations|
    ensures var w := Run(shutdownTimeout, events).value;
            var call := w.terminations[j];
            && TerminatesBy(shutdownTimeout, events, j) == Some(call.until)
            && (call.cancelled <==> CancelTermination(j) in events)
            && (call.Gathering? || call.Returned? ==>
                  (forall k | 0 <= k < |w.runs| :: !Pending(w.runs[k])) || Clock(events) >= call.until)
            && (call.AwaitingLaunches? ==>
                  (Enabled(w, LaunchesSettle(j))
                   <==> (forall k | 0 <= k < |w.runs| :: !Pending(w.runs[k])) || Clock(events) >= call.until))
  {
    RunTellsTerminations(shutdownTimeout, events);
    RunIsChronicled(shutdownTimeout, events);
    LaunchEventIsExact(shutdownTimeout, events);
    RunKeepsInv(shutdownTimeout, events);
    var w := Run(shutdownTimeout, events).value;
    assert TerminationTold(w, w.terminations[j], events, j);
  }
}
