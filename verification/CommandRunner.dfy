/**
 The command runner with the program's fields.  Each method is one await-free segment, and is proved to take
 the object from representing one world of `RunnerProtocol` to representing the next one.
 */
module CommandRunners {
  import opened Common
  import opened Runner
  import opened RunnerProtocol

  class ProcessCleanup {
    const process: Process
    ghost const number: nat      // its task, as `World` counts them
    var deadline: Option<int>
    var changed: bool

    constructor (process: Process, deadline: Option<int>, ghost number: nat)
      ensures this.process == process && this.deadline == deadline && !changed && this.number == number
    {
      this.process, this.deadline, changed, this.number := process, deadline, false, number;
    }

    /** The record, its task standing at `phase`. */
    function At(phase: CleanupPhase): Cleanup
      reads this
    {
      Cleanup(process, deadline, changed, phase)
    }

    method AdoptDeadline(wanted: Option<int>)
      modifies this
      ensures (deadline, changed) == Adopt(old(deadline), old(changed), wanted)
      ensures forall phase :: At(phase) == AdoptTask(old(At(phase)), wanted)
    {
      if wanted == None {
        return;
      }
      if deadline == None || wanted.value < deadline.value {
        deadline := wanted;
        changed := true;
      }
    }

    /**
     One turn of the waiting loop before it suspends: the phase is over, or the wait is armed with
     the deadline in force now and the changed flag is down.
     */
    method NextWait(phaseDeadline: Option<int>, now: int) returns (over: bool, armed: Option<int>)
      modifies this`changed
      ensures armed == Earlier(phaseDeadline, deadline)
      ensures over == (armed.Some? && armed.value <= now)
      ensures if over then changed == old(changed) else !changed
    {
      armed := phaseDeadline;
      if deadline.Some? {
        armed := if armed == None then deadline else Some(Min(armed.value, deadline.value));
      }
      if armed.Some? && armed.value - now <= 0 {
        return true, armed;
      }
      changed := false;
      over := false;
    }

    /** Wait in the phase with this grace deadline, or go on from it when it is over at once. */
    method Wait(grace: Option<int>, now: int, ghost c: Cleanup) returns (phase: CleanupPhase)
      requires At(c.phase) == c
      modifies this`changed
      ensures At(phase) == Turn(c, grace, now)
      decreases grace.Some?
    {
      var over, armed := NextWait(grace, now);
      if over {
        phase := EndPhase(grace, now, c);
      } else {
        phase := Waiting(grace, armed);
      }
    }

    /** The grace phase is followed by the kill signal and a phase without a deadline of its own. */
    method EndPhase(grace: Option<int>, now: int, ghost c: Cleanup) returns (phase: CleanupPhase)
      requires At(c.phase) == c
      modifies this`changed
      ensures At(phase) == PhaseOver(c, grace, now)
      decreases grace.Some?, 0
    {
      if grace.Some? {
        phase := Wait(None, now, c);
      } else {
        phase := Done;
      }
    }
  }

  /** What a wait for a shielded cleanup is woken by. */
  datatype Wake = CancellationArrives | TaskEnds

  class CommandRunner {
    const shutdownTimeout: nat
    var active: seq<Process>
    var launches: int
    var launchesFinished: bool
    var shutdownDeadline: Option<int>
    var cleanups: map<Process, ProcessCleanup>
    ghost var records: seq<ProcessCleanup>     // every cleanup ever created

    constructor (shutdownTimeout: nat)
      ensures Represents(Init(shutdownTimeout)) && records == []
    {
      this.shutdownTimeout := shutdownTimeout;
      active, launches, launchesFinished := [], 0, true;
      shutdownDeadline, cleanups, records := None, map[], [];
    }

    /** The object's fields and records are those of `w`; the calls' own variables are in `w` alone. */
    ghost predicate Represents(w: World)
      reads this, records
    {
      && (shutdownTimeout, active, launches, launchesFinished, shutdownDeadline)
         == (w.shutdownTimeout, w.active, w.launches, w.launchesFinished, w.shutdownDeadline)
      && (launchesFinished <==> launches == 0)
      && |records| == |w.tasks|
      && (forall t | 0 <= t < |records| :: records[t].At(w.tasks[t].phase) == w.tasks[t] && records[t].number == t)
      && cleanups.Keys == w.cleanups.Keys
      && (forall p <- cleanups ::
            w.cleanups[p] < |records| && cleanups[p] == records[w.cleanups[p]] && cleanups[p].process == p)
    }

    /** What the calls do among themselves is not in the object's fields. */
    lemma StillRepresents(w: World, n: World)
      requires Represents(w)
      requires (n.shutdownTimeout, n.active, n.launches, n.launchesFinished, n.shutdownDeadline)
               == (w.shutdownTimeout, w.active, w.launches, w.launchesFinished, w.shutdownDeadline)
      requires n.tasks == w.tasks && n.cleanups == w.cleanups
      ensures Represents(n)
    {
    }

    // -- Shared steps ------------------------------------------------------------------

    method EndLaunch(ghost w: World)
      requires Represents(w) && launches > 0
      modifies this`launches, this`launchesFinished
      ensures Represents(LaunchOver(w))
    {
      launches := launches - 1;
      if launches == 0 {
        launchesFinished := true;
      }
    }

    method RemoveActive(process: Process, ghost w: World)
      requires Represents(w)
      modifies this`active
      ensures Represents(w.(active := Without(w.active, process)))
    {
      active := Without(active, process);
    }

    method RemoveCleanup(process: Process, ghost w: World)
      requires Represents(w)
      modifies this`cleanups
      ensures Represents(w.(cleanups := w.cleanups - {process}))
    {
      if process in cleanups {
        cleanups := cleanups - {process};
      }
    }

    /** Cleanups are only ever added, as new objects. */
    twostate predicate Grew()
      reads this
    {
      old(records) <= records && forall r <- records :: r in old(records) || fresh(r)
    }

    /** A process's cleanup adopts a deadline. */
    method Hurry(process: Process, wanted: Option<int>, ghost w: World)
      requires Represents(w) && process in cleanups
      modifies records
      ensures var t := w.cleanups[process];
              Represents(w.(tasks := w.tasks[t := AdoptTask(w.tasks[t], wanted)]))
    {
      cleanups[process].AdoptDeadline(wanted);
    }

    /** The process's cleanup: the one it has, hurried if need be, or a new one. */
    method StartProcessCleanup(process: Process, wanted: Option<int>, ghost w: World)
      returns (cleanup: ProcessCleanup, ghost t: nat)
      requires Represents(w)
      modifies this`cleanups, this`records, records
      ensures Represents(StartCleanup(w, process, wanted).0) && Grew()
      ensures t == StartCleanup(w, process, wanted).1 < |records| && records[t] == cleanup
    {
      t := StartCleanup(w, process, wanted).1;
      if process in cleanups {
        Hurry(process, wanted, w);
        return cleanups[process], t;
      }
      cleanup := CreateCleanup(process, wanted, w);
    }

    method CreateCleanup(process: Process, wanted: Option<int>, ghost w: World) returns (cleanup: ProcessCleanup)
      requires Represents(w) && process !in cleanups
      modifies this`cleanups, this`records
      ensures Represents(StartCleanup(w, process, wanted).0) && Grew()
      ensures records == old(records) + [cleanup]
    {
      cleanup := new ProcessCleanup(process, wanted, |records|);
      cleanups := cleanups[process := cleanup];
      records := records + [cleanup];
    }

    // -- `run` -------------------------------------------------------------------------

    /** Up to the spawn: refused once shutdown has a deadline. */
    method BeginRun(timeout: int, deadline: Option<int>, ghost w: World) returns (refused: Option<RunResult>)
      requires Represents(w) && launches >= 0
      modifies this`launches, this`launchesFinished
      ensures Represents(Next(w, Call(timeout, deadline)))
      ensures match CallNext(w, timeout, deadline).runs[|w.runs|]
              case Launching(_, _) => refused == None
              case Finished(_, _, result) => refused == Some(result)
              case _ => false
    {
      if shutdownDeadline.Some? {
        return Some(RunResult.LaunchFailed);
      }
      launches := launches + 1;
      launchesFinished := false;
      refused := None;
    }

    /** The spawn failed. */
    method LaunchFailed(notFound: bool, ghost w: World, ghost k: nat) returns (result: RunResult)
      requires Represents(w) && launches > 0 && Enabled(w, LaunchFails(k, notFound))
      modifies this`launches, this`launchesFinished
      ensures Represents(Next(w, LaunchFails(k, notFound)))
      ensures LaunchFailsNext(w, k, notFound).runs[k] == Finished(None, false, result)
    {
      EndLaunch(w);
      result := if notFound then NotFound else RunResult.LaunchFailed;
    }

    /** The spawn succeeded: into a shutdown, or to be waited for until the result. */
    method Launched(process: Process, timeout: int, deadline: Option<int>, now: int, ghost w: World, ghost k: nat)
      returns (late: Option<ProcessCleanup>, until: int)
      requires Represents(w) && launches > 0 && now == w.now
      requires Enabled(w, LaunchSucceeds(k, process)) && w.runs[k] == Launching(timeout, deadline)
      modifies this`active, this`launches, this`launchesFinished, this`cleanups, this`records, records
      ensures Represents(Next(w, LaunchSucceeds(k, process))) && Grew()
      ensures match LaunchNext(w, k, process).runs[k]
              case LateCleanup(p, t, _) => p == process && t < |records| && late == Some(records[t])
              case Running(p, u, _) => p == process && u == until && late == None
              case _ => false
    {
      ghost var known := w.(launched := w.launched[process := k]);
      if shutdownDeadline.Some? {
        ghost var t;
        var cleanup;
        cleanup, t := StartProcessCleanup(process, shutdownDeadline, known);
        StillRepresents(StartCleanup(known, process, w.shutdownDeadline).0, LaunchNext(w, k, process));
        return Some(cleanup), 0;
      }
      Track(process, known);
      StillRepresents(LaunchOver(known.(active := w.active + [process])), LaunchNext(w, k, process));
      until := now + timeout;
      if deadline.Some? {
        until := Min(until, deadline.value);
      }
      late := None;
    }

    method Track(process: Process, ghost w: World)
      requires Represents(w) && launches > 0
      modifies this`active, this`launches, this`launchesFinished
      ensures Represents(LaunchOver(w.(active := w.active + [process])))
    {
      active := active + [process];
      EndLaunch(w.(active := w.active + [process]));
    }

    /** The process of the call has exited. */
    method Exited(process: Process, exitCode: int, ghost w: World, ghost k: nat) returns (result: RunResult)
      requires Represents(w) && Enabled(w, RunSeesExit(k)) && w.runs[k].process == process
      requires w.exited[process] == exitCode
      modifies this`active, this`cleanups
      ensures Represents(Next(w, RunSeesExit(k)))
      ensures SeesExitNext(w, k).runs[k] == Finished(Some(process), false, result)
    {
      RemoveActive(process, w);
      RemoveCleanup(process, w.(active := Without(w.active, process)));
      if exitCode == 0 {
        return Succeeded;
      }
      result := ExitedNonzero(exitCode);
    }

    /** A timeout or a cancellation hands the process to its cleanup. */
    method HandToCleanup(process: Process, deadline: Option<int>, timedOut: bool, ghost w: World, ghost k: nat)
      returns (cleanup: ProcessCleanup)
      requires Represents(w) && k < |w.runs| && w.runs[k].Running?
      requires w.runs[k].process == process && w.runs[k].deadline == deadline
      modifies this`cleanups, this`records, records
      ensures Represents(CleanNext(w, k, timedOut))
      ensures var call := CleanNext(w, k, timedOut).runs[k];
              call.Cleaning? && call.task < |records| && cleanup == records[call.task]
      ensures Grew()
    {
      ghost var t;
      cleanup, t := StartProcessCleanup(process, RunCleanupDeadline(deadline, shutdownDeadline), w);
    }

    /** That is the step of a timeout and of a cancellation. */
    lemma GivenUp(w: World, k: nat, timedOut: bool)
      requires k < |w.runs| && w.runs[k].Running?
      ensures var e := if timedOut then RunTimesOut(k) else CancelRun(k);
              Enabled(w, e) ==> Next(w, e) == CleanNext(w, k, timedOut)
    {
    }

    /** The awaited cleanup has ended. */
    method Resume(process: Process, late: bool, cancelled: bool, ghost w: World, ghost k: nat)
      returns (result: RunResult)
      requires Represents(w) && Enabled(w, RunResumes(k)) && (late ==> launches > 0)
      requires w.runs[k].LateCleanup? == late && w.runs[k].process == process && w.runs[k].cancelled == cancelled
      modifies this`active, this`launches, this`launchesFinished, this`cleanups
      ensures Represents(Next(w, RunResumes(k)))
      ensures ResumeNext(w, k).runs[k] == Finished(Some(process), late, result)
    {
      if late {
        RemoveCleanup(process, w);
        EndLaunch(w.(cleanups := w.cleanups - {process}));
        result := if cancelled then Cancelled else RunResult.LaunchFailed;
      } else {
        RemoveActive(process, w);
        RemoveCleanup(process, w.(active := Without(w.active, process)));
        result := if cancelled then Cancelled else TimedOut;
      }
    }

    /** The other events are the environment's, or only move a call on: no field changes. */
    lemma OtherSteps(w: World, e: Event)
      requires Represents(w) && Enabled(w, e)
      requires e.Exit? || e.Tick? || e.TerminationResumes? || e.CancelTermination?
               || (e.CancelRun? && !w.runs[e.run].Running?)
      ensures Represents(Next(w, e))
    {
    }

    /**
     Wait for a shielded cleanup through any number of cancellations.  The wait consumes arrivals
     up to the one that ends the cleanup, and the cancellation is raised again iff there was one.
     */
    static method AwaitCleanup(arrivals: seq<Wake>) returns (consumed: nat, raised: bool)
      requires TaskEnds in arrivals
      ensures 0 < consumed <= |arrivals| && arrivals[consumed - 1] == TaskEnds
      ensures forall k | 0 <= k < consumed - 1 :: arrivals[k] == CancellationArrives
      ensures raised <==> consumed > 1
    {
      var cancellation, done := false, false;
      consumed := 0;
      while !done
        invariant consumed <= |arrivals|
        invariant done ==> consumed > 0 && arrivals[consumed - 1] == TaskEnds
        invariant !done ==> TaskEnds in arrivals[consumed..]
        invariant forall k | 0 <= k < consumed - (if done then 1 else 0) :: arrivals[k] == CancellationArrives
        invariant cancellation <==> consumed > (if done then 1 else 0)
        decreases !done, |arrivals| - consumed
      {
        if arrivals[consumed] == CancellationArrives {
          cancellation := true;
        } else {
          done := true;
        }
        consumed := consumed + 1;
      }
      raised := cancellation;
    }

    // -- Cleanup tasks -----------------------------------------------------------------

    /** The terminating signal, and the first wait. */
    method BeginTerminating(cleanup: ProcessCleanup, now: int, ghost w: World, ghost t: nat)
      returns (phase: CleanupPhase)
      requires Represents(w) && Enabled(w, CleanupStarts(t)) && records[t] == cleanup && now == w.now
      modifies this`active, cleanup`changed
      ensures Represents(Next(w, CleanupStarts(t))) && phase == Next(w, CleanupStarts(t)).tasks[t].phase
    {
      phase := cleanup.Wait(Some(now + GRACE), now, w.tasks[t]);
      EndIfDone(cleanup, phase, w.(terms := w.terms + multiset{w.tasks[t].process}), t);
    }

    /** The wait has ended, with the phase or by a new deadline. */
    method WakeUp(cleanup: ProcessCleanup, grace: Option<int>, over: bool, now: int, ghost w: World, ghost t: nat)
      returns (phase: CleanupPhase)
      requires Represents(w) && InTask(w, t) && records[t] == cleanup && now == w.now
      requires w.tasks[t].phase.grace == grace
      modifies this`active, cleanup`changed
      ensures Represents(WakeCleanup(w, t, over)) && phase == WakeCleanup(w, t, over).tasks[t].phase
    {
      if over {
        phase := cleanup.EndPhase(grace, now, w.tasks[t]);
      } else {
        phase := cleanup.Wait(grace, now, w.tasks[t]);
      }
      EndIfDone(cleanup, phase, w, t);
    }

    /** A cleanup that is done has removed its process. */
    method EndIfDone(cleanup: ProcessCleanup, phase: CleanupPhase, ghost w: World, ghost t: nat)
      requires t < |w.tasks| && t < |records| && records[t] == cleanup && cleanup.process == w.tasks[t].process
      requires Represents(w.(tasks := w.tasks[t := cleanup.At(phase)]))
      modifies this`active
      ensures Represents(Advance(w, t, cleanup.At(phase)))
    {
      if phase.Done? {
        RemoveActive(cleanup.process, w.(tasks := w.tasks[t := cleanup.At(phase)]));
      }
    }

    // -- `terminate_active` ------------------------------------------------------------

    /** Its synchronous start: the shutdown deadline comes forward and every cleanup adopts it. */
    method InstallShutdownDeadline(deadline: Option<int>, now: int, ghost w: World) returns (installed: int)
      requires Represents(w) && now == w.now
      modifies this`shutdownDeadline, records
      ensures Represents(Next(w, Terminate(deadline)))
      ensures TerminateNext(w, deadline).terminations[|w.terminations|] == Starting(installed, false)
    {
      var wanted := if deadline.Some? then deadline.value else now + shutdownTimeout;
      installed := if shutdownDeadline == None then wanted else Min(shutdownDeadline.value, wanted);
      shutdownDeadline := Some(installed);
      HurryAll(Some(installed), w.(shutdownDeadline := Some(installed)));
      Installs(w, deadline, installed);
    }

    lemma Installs(w: World, deadline: Option<int>, installed: int)
      requires Earlier(w.shutdownDeadline, Some(if deadline.Some? then deadline.value else w.now + w.shutdownTimeout))
               == Some(installed)
      requires Represents(AdoptAll(w.(shutdownDeadline := Some(installed)), w.cleanups.Keys, Some(installed)))
      ensures Represents(TerminateNext(w, deadline))
      ensures TerminateNext(w, deadline).terminations[|w.terminations|] == Starting(installed, false)
    {
      StillRepresents(AdoptAll(w.(shutdownDeadline := Some(installed)), w.cleanups.Keys, Some(installed)),
                      TerminateNext(w, deadline));
    }

    method HurryAll(wanted: Option<int>, ghost w: World)
      requires Represents(w)
      modifies records
      ensures Represents(AdoptAll(w, w.cleanups.Keys, wanted))
    {
      ghost var keys := w.cleanups.Keys;
      var left := cleanups.Keys;
      AdoptsNone(w, keys - left, wanted);
      EachHasItsRecord(w);
      while left != {}
        invariant left <= keys == cleanups.Keys
        invariant Represents(AdoptAll(w, keys - left, wanted))
      {
        var p :| p in left;
        HurryNext(p, wanted, w, keys - left);
        OneLess(keys, left, p);
        left := left - {p};
      }
      assert keys - left == keys;
    }

    lemma AdoptsNone(w: World, none: set<Process>, wanted: Option<int>)
      requires none == {}
      ensures AdoptAll(w, none, wanted) == w
    {
      assert AdoptAll(w, none, wanted).tasks == w.tasks;
    }

    method HurryNext(p: Process, wanted: Option<int>, ghost w: World, ghost done: set<Process>)
      requires Represents(AdoptAll(w, done, wanted)) && p in cleanups && p !in done
      requires w.cleanups[p] < |w.tasks| && w.tasks[w.cleanups[p]].process == p
      modifies records
      ensures Represents(AdoptAll(w, done + {p}, wanted))
    {
      AdoptsOneMore(w, done, p, wanted);
      Hurry(p, wanted, AdoptAll(w, done, wanted));
    }

    lemma EachHasItsRecord(w: World)
      requires Represents(w)
      ensures forall p <- w.cleanups :: w.cleanups[p] < |w.tasks| && w.tasks[w.cleanups[p]].process == p
    {
      assert forall p <- w.cleanups :: records[w.cleanups[p]].At(w.tasks[w.cleanups[p]].phase).process == p;
    }

    lemma AdoptsOneMore(w: World, done: set<Process>, p: Process, wanted: Option<int>)
      requires p in w.cleanups && w.cleanups[p] < |w.tasks| && w.tasks[w.cleanups[p]].process == p && p !in done
      ensures var v, t := AdoptAll(w, done, wanted), w.cleanups[p];
              AdoptAll(w, done + {p}, wanted) == v.(tasks := v.tasks[t := AdoptTask(v.tasks[t], wanted)])
    {
      var v, t := AdoptAll(w, done, wanted), w.cleanups[p];
      assert AdoptAll(w, done + {p}, wanted).tasks == v.tasks[t := AdoptTask(v.tasks[t], wanted)];
    }

    /** The start of its task: wait for pending launches while there is time, or gather. */
    method BeginTermination(until: int, now: int, ghost w: World, ghost j: nat)
      returns (wait: bool, gathered: set<ProcessCleanup>)
      requires Represents(w) && now == w.now && launches >= 0
      requires Enabled(w, TerminationStarts(j)) && w.terminations[j].until == until
      modifies this`cleanups, this`records, records
      ensures Represents(Next(w, TerminationStarts(j))) && Grew()
      ensures var call := Next(w, TerminationStarts(j)).terminations[j];
              if wait then call.AwaitingLaunches? else call.Gathering? && gathered == RecordsOf(records, call.tasks)
    {
      if launches != 0 && until - now > 0 {
        return true, {};
      }
      wait := false;
      gathered := Gather(until, w, j);
    }

    /** Start a cleanup for each active process and collect the tasks. */
    method Gather(until: int, ghost w: World, ghost j: nat) returns (gathered: set<ProcessCleanup>)
      requires Represents(w) && j < |w.terminations|
      requires (w.terminations[j].Starting? || w.terminations[j].AwaitingLaunches?) && w.terminations[j].until == until
      modifies this`cleanups, this`records, records
      ensures Represents(GatherNext(w, j)) && Grew()
      ensures var call := GatherNext(w, j).terminations[j];
              call.Gathering? && gathered == RecordsOf(records, call.tasks)
    {
      gathered := StartAll(Some(until), w);
    }

    method StartAll(wanted: Option<int>, ghost w: World) returns (gathered: set<ProcessCleanup>)
      requires Represents(w)
      modifies this`cleanups, this`records, records
      ensures Represents(StartEach(w, w.active, wanted).0) && Grew()
      ensures gathered == RecordsOf(records, StartEach(w, w.active, wanted).1)
    {
      gathered := {};
      ghost var here := w;
      ghost var tasks: set<nat> := {};
      assert w.active[0..] == w.active && {} + StartEach(w, w.active, wanted).1 == StartEach(w, w.active, wanted).1;
      for i := 0 to |active|
        invariant Represents(here) && here.active == w.active == active && Grew()
        invariant (forall t <- tasks :: t < |records|) && gathered == RecordsOf(records, tasks)
        invariant StartEach(w, w.active, wanted).0 == StartEach(here, w.active[i..], wanted).0
        invariant StartEach(w, w.active, wanted).1 == tasks + StartEach(here, w.active[i..], wanted).1
      {
        ghost var t;
        assert forall u | 0 <= u < |records| :: records[u] in old(records) || fresh(records[u]);
        gathered, t := GatherOne(active[i], wanted, gathered, here, tasks);
        StartsOneMore(here, w.active, i, wanted, tasks);
        here, tasks := StartCleanup(here, active[i], wanted).0, tasks + {t};
      }
    }

    method GatherOne(process: Process, wanted: Option<int>, gathered: set<ProcessCleanup>,
                     ghost w: World, ghost tasks: set<nat>)
      returns (more: set<ProcessCleanup>, ghost t: nat)
      requires Represents(w) && (forall u <- tasks :: u < |records|) && gathered == RecordsOf(records, tasks)
      modifies this`cleanups, this`records, records
      ensures Represents(StartCleanup(w, process, wanted).0) && Grew()
      ensures t == StartCleanup(w, process, wanted).1 < |records| && more == RecordsOf(records, tasks + {t})
    {
      var cleanup;
      cleanup, t := StartProcessCleanup(process, wanted, w);
      OneMoreRecord(old(records), records, tasks, t);
      more := gathered + {cleanup};
    }
  }

  /** A call that is launching is counted. */
  lemma PendingIsCounted(w: World, k: nat)
    requires LaunchesOk(w) && k < |w.runs| && Pending(w.runs[k])
    ensures w.launches > 0
  {
    assert k in PendingRuns(w.runs);
  }

  lemma OneLess(keys: set<Process>, left: set<Process>, p: Process)
    requires p in left && left <= keys
    ensures (keys - left) + {p} == keys - (left - {p})
  {
  }

  /** The cleanups with these numbers. */
  function RecordsOf(records: seq<ProcessCleanup>, tasks: set<nat>): set<ProcessCleanup> {
    set t | t in tasks && t < |records| :: records[t]
  }

  lemma OneMoreRecord(was: seq<ProcessCleanup>, records: seq<ProcessCleanup>, tasks: set<nat>, t: nat)
    requires was <= records && t < |records| && forall u <- tasks :: u < |was|
    ensures RecordsOf(records, tasks + {t}) == RecordsOf(was, tasks) + {records[t]}
  {
    assert forall u <- tasks :: was[u] == records[u];
  }

  lemma StartsOneMore(w: World, ps: seq<Process>, i: nat, wanted: Option<int>, tasks: set<nat>)
    requires i < |ps|
    ensures var (next, t) := StartCleanup(w, ps[i], wanted);
            && next.active == w.active
            && StartEach(w, ps[i..], wanted).0 == StartEach(next, ps[i + 1..], wanted).0
            && tasks + StartEach(w, ps[i..], wanted).1 == tasks + {t} + StartEach(next, ps[i + 1..], wanted).1
  {
    assert ps[i..][1..] == ps[i + 1..];
  }
}
