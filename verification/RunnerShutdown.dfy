/** A shutdown reaches every cleanup: at once the known ones, and the others when it gathers. */
module RunnerShutdown {
  import opened Common
  import opened Runner
  import opened RunnerProtocol

  /** The task's process may still run. */
  predicate Living(w: World, t: nat)
    requires t < |w.tasks|
  {
    !w.tasks[t].phase.Done? && w.tasks[t].process !in w.exited
  }

  /** A cleanup that still matters can be found, so that it can be hurried. */
  predicate Found(w: World) {
    forall t | 0 <= t < |w.tasks| && Living(w, t) :: w.tasks[t].process in w.cleanups
  }

  predicate YetToGather(call: TerminateCall, deadline: Option<int>) {
    (call.Starting? || call.AwaitingLaunches?) && Some(call.until) == deadline
  }

  /** The call that asked for the shutdown deadline has not gathered the active processes yet. */
  predicate Pressing(w: World) {
    exists j :: 0 <= j < |w.terminations| && YetToGather(w.terminations[j], w.shutdownDeadline)
  }

  predicate InTime(w: World, t: nat)
    requires t < |w.tasks|
  {
    AtMost(w.tasks[t].deadline, w.shutdownDeadline)
  }

  /** Every living cleanup keeps to the shutdown deadline, but for those a call has yet to gather. */
  predicate Pressed(w: World) {
    && (forall t | 0 <= t < |w.tasks| && Living(w, t) ::
          InTime(w, t) || (Pressing(w) && w.tasks[t].process in w.active))
    && (w.shutdownDeadline.Some? && !Pressing(w) ==> forall p <- w.active :: p in w.started)
  }

  predicate Hastened(w: World) {
    Found(w) && Pressed(w)
  }

  // -- Starting cleanups ---------------------------------------------------------------

  /** A cleanup that is created is for one of the processes, can be found, and has the deadline. */
  lemma {:induction false} NewCleanups(w: World, ps: seq<Process>, wanted: Option<int>, t: nat)
    requires TaskInv(w) && forall p <- ps :: p in w.launched && Reachable(w, p)
    requires |w.tasks| <= t < |StartEach(w, ps, wanted).0.tasks|
    ensures var n := StartEach(w, ps, wanted).0;
            && n.tasks[t].process in ps && n.tasks[t].process in n.cleanups && n.tasks[t].process !in w.started
    decreases |ps|
  {
    StartRest(w, ps, wanted);
    var first := StartCleanup(w, ps[0], wanted).0;
    StartEachOk(first, ps[1..], wanted);
    if t >= |first.tasks| {
      NewCleanups(first, ps[1..], wanted, t);
    }
  }

  /** Tasks that were there are no later than before, and no call has moved. */
  lemma HurriedStaysPressed(w: World, n: World)
    requires Hastened(w) && Hurried(w, n) && TasksOk(n)
    requires forall t | |w.tasks| <= t < |n.tasks| ::
               n.tasks[t].process in n.cleanups && (InTime(n, t) || (Pressing(n) && n.tasks[t].process in n.active))
    ensures Hastened(n)
  {
    forall t | 0 <= t < |n.tasks| && Living(n, t)
      ensures n.tasks[t].process in n.cleanups
      ensures InTime(n, t) || (Pressing(n) && n.tasks[t].process in n.active)
    {
      if t < |w.tasks| {
        assert Living(w, t);
        assert InTime(w, t) ==> InTime(n, t);
      }
    }
  }

  lemma StartStaysPressed(w: World, p: Process, wanted: Option<int>)
    requires Hastened(w) && TaskInv(w) && p in w.launched && Reachable(w, p)
    requires AtMost(wanted, w.shutdownDeadline)
    ensures Hastened(StartCleanup(w, p, wanted).0)
  {
    StartCleanupOk(w, p, wanted);
    HurriedStaysPressed(w, StartCleanup(w, p, wanted).0);
  }

  // -- One lemma for each kind of event ------------------------------------------------

  /** Nothing but the calls, the clock and the exits has moved, or a process that needs no cleanup was forgotten. */
  lemma QuietStaysPressed(w: World, n: World)
    requires Hastened(w) && n.tasks == w.tasks && n.started == w.started && n.shutdownDeadline == w.shutdownDeadline
    requires forall t | 0 <= t < |w.tasks| && Living(n, t) ::
               Living(w, t) && (w.tasks[t].process in w.cleanups ==> w.tasks[t].process in n.cleanups)
               && (w.tasks[t].process in w.active ==> w.tasks[t].process in n.active)
    requires w.shutdownDeadline.Some? ==> forall p <- n.active :: p in w.active
    requires Pressing(w) <==> Pressing(n)
    ensures Hastened(n)
  {
    forall t | 0 <= t < |n.tasks| && Living(n, t)
      ensures InTime(n, t) || (Pressing(n) && n.tasks[t].process in n.active)
    {
      assert InTime(w, t) ==> InTime(n, t);
    }
  }

  /** A process that has exited, or whose cleanup has ended, is forgotten. */
  lemma ForgettingStaysPressed(w: World, n: World, p: Process)
    requires TasksOk(w) && Hastened(w) && (p in w.exited || Cleaned(w, p))
    requires n.tasks == w.tasks && n.started == w.started && n.shutdownDeadline == w.shutdownDeadline
    requires n.exited == w.exited && n.terminations == w.terminations
    requires n.cleanups == w.cleanups - {p} && forall q :: q != p ==> (q in n.active <==> q in w.active)
    requires p in n.active ==> p in w.active
    ensures Hastened(n)
  {
    forall t | 0 <= t < |w.tasks| && Living(n, t)
      ensures w.tasks[t].process != p
    {
    }
    QuietStaysPressed(w, n);
  }

  lemma RunEndStaysPressed(w: World, e: Event)
    requires Inv(w) && Hastened(w) && Enabled(w, e) && (e.RunSeesExit? || e.RunResumes?)
    ensures Hastened(Next(w, e))
  {
    assert RunOk(w, w.runs[e.run]);
    ForgettingStaysPressed(w, Next(w, e), w.runs[e.run].process);
  }

  /** The calls, the clock and the exits do not matter, nor does a process that becomes active before a shutdown. */
  lemma OuterStaysPressed(w: World, n: World)
    requires Hastened(w) && n.tasks == w.tasks && n.started == w.started && n.cleanups == w.cleanups
    requires n.shutdownDeadline == w.shutdownDeadline && n.terminations == w.terminations
    requires forall p <- w.exited :: p in n.exited
    requires w.active <= n.active && (w.shutdownDeadline.Some? ==> n.active == w.active)
    ensures Hastened(n)
  {
    assert forall p <- w.active :: p in n.active;
    QuietStaysPressed(w, n);
  }

  lemma RunStepStaysPressed(w: World, e: Event)
    requires Hastened(w) && Enabled(w, e)
    requires e.Call? || e.LaunchFails? || e.Exit? || e.Tick? || (e.CancelRun? && !w.runs[e.run].Running?)
             || (e.LaunchSucceeds? && w.shutdownDeadline == None)
    ensures Hastened(Next(w, e))
  {
    OuterStaysPressed(w, Next(w, e));
  }

  lemma CleanStaysPressed(w: World, k: nat, timedOut: bool)
    requires Inv(w) && Hastened(w) && k < |w.runs| && w.runs[k].Running?
    ensures Hastened(CleanNext(w, k, timedOut))
  {
    var p, wanted := w.runs[k].process, RunCleanupDeadline(w.runs[k].deadline, w.shutdownDeadline);
    RunningIsReachable(w, k);
    assert Owner(w.runs[k]) == Some(p);
    StartStaysPressed(w, p, wanted);
    QuietStaysPressed(StartCleanup(w, p, wanted).0, CleanNext(w, k, timedOut));
  }

  lemma LateStaysPressed(w: World, k: nat, p: Process)
    requires Inv(w) && Hastened(w) && Enabled(w, LaunchSucceeds(k, p)) && w.shutdownDeadline.Some?
    ensures Hastened(LaunchNext(w, k, p))
  {
    var known := w.(launched := w.launched[p := k]);
    assert known.terminations == w.terminations;
    QuietStaysPressed(w, known);
    StartStaysPressed(known, p, w.shutdownDeadline);
    QuietStaysPressed(StartCleanup(known, p, w.shutdownDeadline).0, LaunchNext(w, k, p));
  }

  lemma AdvanceStaysPressed(w: World, t: nat, c: Cleanup, terms: multiset<Process>)
    requires Inv(w) && Hastened(w) && t < |w.tasks| && !w.tasks[t].phase.Done?
    requires c.process == w.tasks[t].process && c.deadline == w.tasks[t].deadline
    ensures Hastened(Advance(w.(terms := terms), t, c))
  {
    var n := Advance(w.(terms := terms), t, c);
    assert n.terminations == w.terminations;
    forall i | 0 <= i < |n.tasks| && Living(n, i)
      ensures n.tasks[i].process in n.cleanups
      ensures InTime(n, i) || (Pressing(n) && n.tasks[i].process in n.active)
    {
      assert Living(w, i);
      assert i != t ==> n.tasks[i].process != c.process;
      assert InTime(w, i) ==> InTime(n, i);
    }
  }

  lemma WakeStaysPressed(w: World, t: nat, over: bool)
    requires Inv(w) && Hastened(w) && InTask(w, t)
    ensures Hastened(WakeCleanup(w, t, over))
  {
    var c := w.tasks[t];
    TurnOk(c, c.phase.grace, w.now);
    TurnOk(c, None, w.now);
    var turned := if over then PhaseOver(c, c.phase.grace, w.now) else Turn(c, c.phase.grace, w.now);
    AdvanceStaysPressed(w, t, turned, w.terms);
  }

  lemma BeginStaysPressed(w: World, t: nat)
    requires Inv(w) && Hastened(w) && t < |w.tasks| && w.tasks[t].phase.Queued?
    ensures Hastened(BeginCleanup(w, t))
  {
    TurnOk(w.tasks[t], Some(w.now + GRACE), w.now);
    AdvanceStaysPressed(w, t, Turn(w.tasks[t], Some(w.now + GRACE), w.now), w.terms + multiset{w.tasks[t].process});
  }

  /** Asking for a shutdown hurries every living cleanup at once. */
  lemma TerminateHurries(w: World, deadline: Option<int>)
    requires Inv(w) && Found(w)
    ensures var n := TerminateNext(w, deadline);
            Found(n) && forall t | 0 <= t < |n.tasks| && Living(n, t) :: InTime(n, t)
  {
    var n := TerminateNext(w, deadline);
    forall t | 0 <= t < |n.tasks| && Living(n, t)
      ensures n.tasks[t].process in n.cleanups && InTime(n, t)
    {
      assert Living(w, t);
      AdoptIsEarlier(w.tasks[t].deadline, w.tasks[t].changed, n.shutdownDeadline);
    }
  }

  lemma TerminateStaysPressed(w: World, deadline: Option<int>)
    requires Inv(w) && Hastened(w)
    ensures Hastened(TerminateNext(w, deadline))
  {
    var n := TerminateNext(w, deadline);
    TerminateHurries(w, deadline);
    assert YetToGather(n.terminations[|w.terminations|], n.shutdownDeadline);
  }

  lemma CallStaysPressed(w: World, j: nat, call: TerminateCall)
    requires Hastened(w) && j < |w.terminations|
    requires YetToGather(w.terminations[j], w.shutdownDeadline) <==> YetToGather(call, w.shutdownDeadline)
    ensures Hastened(SetTermination(w, j, call))
  {
    var n := SetTermination(w, j, call);
    if Pressing(w) {
      var i :| 0 <= i < |w.terminations| && YetToGather(w.terminations[i], w.shutdownDeadline);
      assert YetToGather(n.terminations[i], n.shutdownDeadline);
    }
    if Pressing(n) {
      var i :| 0 <= i < |n.terminations| && YetToGather(n.terminations[i], n.shutdownDeadline);
      assert YetToGather(w.terminations[i], w.shutdownDeadline);
    }
    QuietStaysPressed(w, n);
  }

  /** The call that asked for the deadline covers every active process when it gathers; no other call matters. */
  lemma GatherStaysPressed(w: World, j: nat)
    requires Inv(w) && Hastened(w)
    requires j < |w.terminations| && (w.terminations[j].Starting? || w.terminations[j].AwaitingLaunches?)
    ensures Hastened(GatherNext(w, j))
  {
    var call := w.terminations[j];
    var (n, ts) := StartEach(w, w.active, Some(call.until));
    GatherStarts(w, Some(call.until));
    assert forall p <- w.active :: p in w.launched && Reachable(w, p);
    forall t | |w.tasks| <= t < |n.tasks|
      ensures n.tasks[t].process in n.cleanups && n.tasks[t].process in n.active
    {
      NewCleanups(w, w.active, Some(call.until), t);
    }
    if Some(call.until) == w.shutdownDeadline {
      CoveredIsPressed(w, n, ts, GatherNext(w, j).terminations);
    } else {
      if |n.tasks| > |w.tasks| {
        NewCleanups(w, w.active, Some(call.until), |w.tasks|);
        assert Pressing(w) && n.terminations == w.terminations;
      }
      HurriedStaysPressed(w, n);
      CallStaysPressed(n, j, Gathering(call.until, ts, call.cancelled));
    }
  }

  lemma CoveredIsPressed(w: World, n: World, ts: set<nat>, calls: seq<TerminateCall>)
    requires Hastened(w) && TasksOk(n) && Hurried(w, n) && Covered(n, w.active, ts, w.shutdownDeadline)
    requires forall t | |w.tasks| <= t < |n.tasks| ::
               n.tasks[t].process in n.cleanups && n.tasks[t].process in n.active
    ensures Hastened(n.(terminations := calls))
  {
    forall t | 0 <= t < |n.tasks| && Living(n, t)
      ensures n.tasks[t].process in n.cleanups && InTime(n, t)
    {
      if n.tasks[t].process in n.active {
        assert n.cleanups[n.tasks[t].process] == t;
      } else {
        assert Living(w, t) && InTime(w, t);
      }
    }
  }

  lemma StepStaysPressed(w: World, e: Event)
    requires Inv(w) && Hastened(w) && Enabled(w, e)
    ensures Hastened(Next(w, e))
  {
    match e {
      case LaunchSucceeds(k, p) =>
        if w.shutdownDeadline.Some? { LateStaysPressed(w, k, p); } else { RunStepStaysPressed(w, e); }
      case RunTimesOut(k) => CleanStaysPressed(w, k, true);
      case CancelRun(k) => if w.runs[k].Running? { CleanStaysPressed(w, k, false); } else { RunStepStaysPressed(w, e); }
      case RunSeesExit(_) => RunEndStaysPressed(w, e);
      case RunResumes(_) => RunEndStaysPressed(w, e);
      case CleanupStarts(t) => BeginStaysPressed(w, t);
      case CleanupSeesExit(t) => WakeStaysPressed(w, t, true);
      case CleanupSeesUpdate(t) => WakeStaysPressed(w, t, false);
      case CleanupTimesOut(t) => WakeStaysPressed(w, t, true);
      case Terminate(deadline) => TerminateStaysPressed(w, deadline);
      case TerminationStarts(j) =>
        var call := w.terminations[j];
        if w.launches > 0 && call.until > w.now {
          CallStaysPressed(w, j, AwaitingLaunches(call.until, call.cancelled));
        } else {
          GatherStaysPressed(w, j);
        }
      case LaunchesSettle(j) => GatherStaysPressed(w, j);
      case TerminationResumes(j) =>
        CallStaysPressed(w, j, Returned(w.terminations[j].until, w.terminations[j].cancelled));
      case CancelTermination(j) => CallStaysPressed(w, j, w.terminations[j].(cancelled := true));
      case _ => RunStepStaysPressed(w, e);
    }
  }

  lemma {:induction false} RunIsHastened(shutdownTimeout: nat, events: seq<Event>)
    requires Run(shutdownTimeout, events).Some?
    ensures Hastened(Run(shutdownTimeout, events).value)
  {
    if events != [] {
      RunIsHastened(shutdownTimeout, events[..|events| - 1]);
      RunKeepsInv(shutdownTimeout, events[..|events| - 1]);
      StepStaysPressed(Run(shutdownTimeout, events[..|events| - 1]).value, events[|events| - 1]);
    }
  }

  // -- What every run guarantees -------------------------------------------------------

  /** Whoever started it and whenever: a request for shutdown hurries every cleanup of a living process at once. */
  lemma ShutdownHurriesAtOnce(shutdownTimeout: nat, events: seq<Event>, deadline: Option<int>, t: nat)
    requires Run(shutdownTimeout, events + [Terminate(deadline)]).Some?
    requires t < |Run(shutdownTimeout, events + [Terminate(deadline)]).value.tasks|
    ensures var n := Run(shutdownTimeout, events + [Terminate(deadline)]).value;
            && n.shutdownDeadline.Some? && (deadline.Some? ==> n.shutdownDeadline.value <= deadline.value)
            && (Living(n, t) ==> AtMost(n.tasks[t].deadline, n.shutdownDeadline))
  {
    assert (events + [Terminate(deadline)])[..|events|] == events;
    RunIsHastened(shutdownTimeout, events);
    RunKeepsInv(shutdownTimeout, events);
    TerminateHurries(Run(shutdownTimeout, events).value, deadline);
  }

  /** Every call that asked for a shutdown has gathered the active processes. */
  predicate AllGathered(w: World) {
    forall j | 0 <= j < |w.terminations| :: w.terminations[j].Gathering? || w.terminations[j].Returned?
  }

  /**
   Once every shutdown has gathered: each active process has a cleanup, and no cleanup of a living process has a
   deadline later than the earliest any shutdown asked for, whatever run, late launch or shutdown started it.
   */
  lemma ShutdownReachesEveryProcess(shutdownTimeout: nat, events: seq<Event>)
    requires Run(shutdownTimeout, events).Some?
    requires var w := Run(shutdownTimeout, events).value; w.terminations != [] && AllGathered(w)
    ensures var w := Run(shutdownTimeout, events).value;
            && w.shutdownDeadline.Some?
            && (forall p <- w.active :: p in w.cleanups)
            && (forall t | 0 <= t < |w.tasks| && Living(w, t) :: AtMost(w.tasks[t].deadline, w.shutdownDeadline))
  {
    RunIsHastened(shutdownTimeout, events);
    RunKeepsInv(shutdownTimeout, events);
  }

  /** With a timely event loop no such cleanup then waits beyond that deadline. */
  lemma ShutdownEndsEveryWait(shutdownTimeout: nat, events: seq<Event>, t: nat)
    requires Run(shutdownTimeout, events).Some? && Timely(shutdownTimeout, events)
    requires var w := Run(shutdownTimeout, events).value;
             w.terminations != [] && AllGathered(w) && InTask(w, t) && Living(w, t)
    ensures var w := Run(shutdownTimeout, events).value;
            w.shutdownDeadline.Some? && (w.now <= w.shutdownDeadline.value || w.tasks[t].changed)
  {
    ShutdownReachesEveryProcess(shutdownTimeout, events);
    CleanupStopsByItsDeadline(shutdownTimeout, events, t);
  }
}
