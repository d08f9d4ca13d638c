/**
 Every interleaving of the runner: calls of `run`, launch completions, process exits, cancellations,
 cleanup tasks and calls of `terminate_active`.  One event is one await-free segment.
 */
module RunnerProtocol {
  import opened Common
  import opened Runner

  /** Where a cleanup task stands; a waiting task is armed with a wake-up instant, if any. */
  datatype CleanupPhase =
    | Queued
    | Waiting(grace: Option<int>, armed: Option<int>)   // grace None: after the kill signal
    | Done

  /** A cleanup record and its task. */
  datatype Cleanup = Cleanup(process: Process, deadline: Option<int>, changed: bool, phase: CleanupPhase)

  datatype RunResult = Succeeded | ExitedNonzero(code: int) | TimedOut | LaunchFailed | NotFound | Cancelled

  /** Where a call of `run` stands; `task` indexes the cleanup it awaits. */
  datatype RunCall =
    | Launching(timeout: int, deadline: Option<int>)
    | LateCleanup(process: Process, task: nat, cancelled: bool)
    | Running(process: Process, until: int, deadline: Option<int>)
    | Cleaning(process: Process, task: nat, timedOut: bool, cancelled: bool)
    | Finished(owner: Option<Process>, late: bool, result: RunResult)

  /** Where a call of `terminate_active` stands. */
  datatype TerminateCall =
    | Starting(until: int, cancelled: bool)
    | AwaitingLaunches(until: int, cancelled: bool)
    | Gathering(until: int, tasks: set<nat>, cancelled: bool)
    | Returned(until: int, cancelled: bool)

  datatype World = World(
    shutdownTimeout: nat,
    now: int,
    active: seq<Process>,                // the dictionary, in insertion order
    launches: int,
    launchesFinished: bool,
    shutdownDeadline: Option<int>,
    cleanups: map<Process, nat>,         // the dictionary, as indices into `tasks`
    tasks: seq<Cleanup>,                 // every cleanup task ever created
    runs: seq<RunCall>,
    terminations: seq<TerminateCall>,
    launched: map<Process, nat>,         // each process's call of `run`
    started: map<Process, nat>,          // each process's newest cleanup task
    exited: map<Process, int>,           // with the exit code
    terms: multiset<Process>)            // SIGTERM phases begun

  datatype Event =
    | Call(timeout: int, deadline: Option<int>)
    | LaunchFails(run: nat, notFound: bool)
    | LaunchSucceeds(run: nat, process: Process)
    | Exit(process: Process, code: int)
    | RunSeesExit(run: nat)
    | RunTimesOut(run: nat)
    | CancelRun(run: nat)
    | RunResumes(run: nat)
    | CleanupStarts(task: nat)
    | CleanupSeesExit(task: nat)
    | CleanupSeesUpdate(task: nat)
    | CleanupTimesOut(task: nat)
    | Terminate(deadline: Option<int>)
    | TerminationStarts(call: nat)
    | LaunchesSettle(call: nat)
    | TerminationResumes(call: nat)
    | CancelTermination(call: nat)
    | Tick(elapsed: nat)

  function Init(shutdownTimeout: nat): World {
    World(shutdownTimeout, 0, [], 0, true, None, map[], [], [], [], map[], map[], map[], multiset{})
  }

  predicate InTask(w: World, t: nat) {
    t < |w.tasks| && w.tasks[t].phase.Waiting?
  }

  predicate Enabled(w: World, e: Event) {
    match e
    case Call(_, _) => true
    case LaunchFails(k, _) => k < |w.runs| && w.runs[k].Launching?
    case LaunchSucceeds(k, p) => k < |w.runs| && w.runs[k].Launching? && p !in w.launched
    case Exit(p, _) => p in w.launched && p !in w.exited
    case RunSeesExit(k) => k < |w.runs| && w.runs[k].Running? && w.runs[k].process in w.exited
    case RunTimesOut(k) => k < |w.runs| && w.runs[k].Running? && w.now >= w.runs[k].until
    case CancelRun(k) =>
      k < |w.runs| && (w.runs[k].Running? || w.runs[k].Cleaning? || w.runs[k].LateCleanup?)
    case RunResumes(k) =>
      && k < |w.runs| && (w.runs[k].Cleaning? || w.runs[k].LateCleanup?)
      && w.runs[k].task < |w.tasks| && w.tasks[w.runs[k].task].phase.Done?
    case CleanupStarts(t) => t < |w.tasks| && w.tasks[t].phase.Queued?
    case CleanupSeesExit(t) => InTask(w, t) && w.tasks[t].process in w.exited
    case CleanupSeesUpdate(t) => InTask(w, t) && w.tasks[t].changed
    case CleanupTimesOut(t) => InTask(w, t) && w.tasks[t].phase.armed.Some? && w.now >= w.tasks[t].phase.armed.value
    case Terminate(_) => true
    case TerminationStarts(j) => j < |w.terminations| && w.terminations[j].Starting?
    case LaunchesSettle(j) =>
      && j < |w.terminations| && w.terminations[j].AwaitingLaunches?
      && (w.launchesFinished || w.now >= w.terminations[j].until)
    case TerminationResumes(j) =>
      && j < |w.terminations| && w.terminations[j].Gathering?
      && forall t <- w.terminations[j].tasks :: t < |w.tasks| && w.tasks[t].phase.Done?
    case CancelTermination(j) => j < |w.terminations| && !w.terminations[j].Returned?
    case Tick(_) => true
  }

  function Without(ps: seq<Process>, p: Process): (r: seq<Process>)
    ensures forall q :: q in r <==> q in ps && q != p
  {
    if ps == [] then []
    else if ps[0] == p then Without(ps[1..], p)
    else [ps[0]] + Without(ps[1..], p)
  }

  // -- Cleanups ------------------------------------------------------------------

  function AdoptTask(c: Cleanup, wanted: Option<int>): Cleanup {
    var (deadline, changed) := Adopt(c.deadline, c.changed, wanted);
    c.(deadline := deadline, changed := changed)
  }

  /** `_start_process_cleanup`: hurry the process's cleanup, or create one. */
  function StartCleanup(w: World, p: Process, wanted: Option<int>): (World, nat) {
    if p in w.cleanups && w.cleanups[p] < |w.tasks| then
      var t := w.cleanups[p];
      (w.(tasks := w.tasks[t := AdoptTask(w.tasks[t], wanted)]), t)
    else
      (w.(tasks := w.tasks + [Cleanup(p, wanted, false, Queued)], cleanups := w.cleanups[p := |w.tasks|],
          started := w.started[p := |w.tasks|]), |w.tasks|)
  }

  /** One turn of the waiting loop; a grace phase that is over begins the kill phase, which may be over too. */
  function Turn(c: Cleanup, grace: Option<int>, now: int): Cleanup
    decreases grace.Some?
  {
    var armed := Earlier(grace, c.deadline);
    if armed == None || armed.value > now then c.(changed := false, phase := Waiting(grace, armed))
    else PhaseOver(c, grace, now)
  }

  function PhaseOver(c: Cleanup, grace: Option<int>, now: int): Cleanup
    decreases grace.Some?, 0
  {
    if grace.Some? then Turn(c, None, now) else c.(phase := Done)
  }

  /** Cleanup task `t` has moved on; one that is done has removed its process. */
  function Advance(w: World, t: nat, c: Cleanup): World
    requires t < |w.tasks|
  {
    var after := w.(tasks := w.tasks[t := c]);
    if c.phase.Done? then after.(active := Without(w.active, c.process)) else after
  }

  /** The terminating signal, and the first turn of the grace phase. */
  function BeginCleanup(w: World, t: nat): World
    requires t < |w.tasks|
  {
    Advance(w.(terms := w.terms + multiset{w.tasks[t].process}), t, Turn(w.tasks[t], Some(w.now + GRACE), w.now))
  }

  /** A waiting cleanup wakes: its phase is over, or it takes another turn with the deadline now in force. */
  function WakeCleanup(w: World, t: nat, over: bool): World
    requires InTask(w, t)
  {
    var c := w.tasks[t];
    Advance(w, t, if over then PhaseOver(c, c.phase.grace, w.now) else Turn(c, c.phase.grace, w.now))
  }

  // -- Runs ----------------------------------------------------------------------

  function LaunchOver(w: World): World {
    w.(launches := w.launches - 1, launchesFinished := w.launches == 1)
  }

  function Forgotten(w: World, p: Process): World {
    w.(active := Without(w.active, p), cleanups := w.cleanups - {p})
  }

  function SetRun(w: World, k: nat, call: RunCall): World
    requires k < |w.runs|
  {
    w.(runs := w.runs[k := call])
  }

  function SetTermination(w: World, j: nat, call: TerminateCall): World
    requires j < |w.terminations|
  {
    w.(terminations := w.terminations[j := call])
  }

  /** A call of `run` is refused once shutdown has a deadline. */
  function CallNext(w: World, timeout: int, deadline: Option<int>): World {
    if w.shutdownDeadline.Some? then w.(runs := w.runs + [Finished(None, false, LaunchFailed)])
    else w.(launches := w.launches + 1, launchesFinished := false, runs := w.runs + [Launching(timeout, deadline)])
  }

  function LaunchFailsNext(w: World, k: nat, notFound: bool): World
    requires k < |w.runs|
  {
    SetRun(LaunchOver(w), k, Finished(None, false, if notFound then NotFound else LaunchFailed))
  }

  /** What `run` makes of an exit code. */
  function ExitResult(code: int): RunResult {
    if code == 0 then Succeeded else ExitedNonzero(code)
  }

  function SeesExitNext(w: World, k: nat): World
    requires k < |w.runs| && w.runs[k].Running? && w.runs[k].process in w.exited
  {
    var p := w.runs[k].process;
    SetRun(Forgotten(w, p), k, Finished(Some(p), false, ExitResult(w.exited[p])))
  }

  function LaunchNext(w: World, k: nat, p: Process): World
    requires Enabled(w, LaunchSucceeds(k, p))
  {
    var call := w.runs[k];
    var known := w.(launched := w.launched[p := k]);
    if w.shutdownDeadline.Some? then
      var (started, t) := StartCleanup(known, p, w.shutdownDeadline);
      SetRun(started, k, LateCleanup(p, t, false))
    else
      var until := w.now + call.timeout;
      SetRun(LaunchOver(known.(active := w.active + [p])), k,
             Running(p, if call.deadline.Some? then Min(until, call.deadline.value) else until, call.deadline))
  }

  /** A timeout or a cancellation hands a running process to its cleanup. */
  function CleanNext(w: World, k: nat, timedOut: bool): World
    requires k < |w.runs| && w.runs[k].Running?
  {
    var call := w.runs[k];
    var (started, t) := StartCleanup(w, call.process, RunCleanupDeadline(call.deadline, w.shutdownDeadline));
    SetRun(started, k, Cleaning(call.process, t, timedOut, !timedOut))
  }

  function CancelNext(w: World, k: nat): World
    requires Enabled(w, CancelRun(k))
  {
    match w.runs[k]
    case Running(_, _, _) => CleanNext(w, k, false)
    case Cleaning(p, t, timedOut, _) => SetRun(w, k, Cleaning(p, t, timedOut, true))
    case LateCleanup(p, t, _) => SetRun(w, k, LateCleanup(p, t, true))
    case _ => w
  }

  function ResumeNext(w: World, k: nat): World
    requires Enabled(w, RunResumes(k))
  {
    match w.runs[k]
    case LateCleanup(p, _, cancelled) =>
      SetRun(LaunchOver(w.(cleanups := w.cleanups - {p})), k,
             Finished(Some(p), true, if cancelled then Cancelled else LaunchFailed))
    case Cleaning(p, _, _, cancelled) =>
      SetRun(Forgotten(w, p), k, Finished(Some(p), false, if cancelled then Cancelled else TimedOut))
    case _ => w
  }

  // -- Termination ---------------------------------------------------------------

  function AdoptAll(w: World, ps: set<Process>, wanted: Option<int>): World {
    w.(tasks := seq(|w.tasks|, t requires 0 <= t < |w.tasks| =>
          if w.tasks[t].process in ps && w.tasks[t].process in w.cleanups && w.cleanups[w.tasks[t].process] == t
          then AdoptTask(w.tasks[t], wanted) else w.tasks[t]))
  }

  function TerminateNext(w: World, deadline: Option<int>): World {
    var wanted := if deadline.Some? then deadline.value else w.now + w.shutdownTimeout;
    var installed := Earlier(w.shutdownDeadline, Some(wanted));
    AdoptAll(w.(shutdownDeadline := installed), w.cleanups.Keys, installed)
    .(terminations := w.terminations + [Starting(installed.value, false)])
  }

  /** Start a cleanup for each process and collect the tasks. */
  function StartEach(w: World, ps: seq<Process>, wanted: Option<int>): (World, set<nat>)
    decreases |ps|
  {
    if ps == [] then (w, {})
    else
      var (first, t) := StartCleanup(w, ps[0], wanted);
      var (rest, ts) := StartEach(first, ps[1..], wanted);
      (rest, {t} + ts)
  }

  /** Gather the cleanups of every active process. */
  function GatherNext(w: World, j: nat): World
    requires j < |w.terminations| && (w.terminations[j].Starting? || w.terminations[j].AwaitingLaunches?)
  {
    var call := w.terminations[j];
    var (started, ts) := StartEach(w, w.active, Some(call.until));
    started.(terminations := w.terminations[j := Gathering(call.until, ts, call.cancelled)])
  }

  function Next(w: World, e: Event): World
    requires Enabled(w, e)
  {
    match e
    case Call(timeout, deadline) => CallNext(w, timeout, deadline)
    case LaunchFails(k, notFound) => LaunchFailsNext(w, k, notFound)
    case LaunchSucceeds(k, p) => LaunchNext(w, k, p)
    case Exit(p, code) => w.(exited := w.exited[p := code])
    case RunSeesExit(k) => SeesExitNext(w, k)
    case RunTimesOut(k) => CleanNext(w, k, true)
    case CancelRun(k) => CancelNext(w, k)
    case RunResumes(k) => ResumeNext(w, k)
    case CleanupStarts(t) => BeginCleanup(w, t)
    case CleanupSeesExit(t) => WakeCleanup(w, t, true)
    case CleanupSeesUpdate(t) => WakeCleanup(w, t, false)
    case CleanupTimesOut(t) => WakeCleanup(w, t, true)
    case Terminate(deadline) => TerminateNext(w, deadline)
    case TerminationStarts(j) =>
      if w.launches > 0 && w.terminations[j].until > w.now
      then SetTermination(w, j, AwaitingLaunches(w.terminations[j].until, w.terminations[j].cancelled))
      else GatherNext(w, j)
    case LaunchesSettle(j) => GatherNext(w, j)
    case TerminationResumes(j) => SetTermination(w, j, Returned(w.terminations[j].until, w.terminations[j].cancelled))
    case CancelTermination(j) => SetTermination(w, j, w.terminations[j].(cancelled := true))
    case Tick(elapsed) => w.(now := w.now + elapsed)
  }

  function Run(shutdownTimeout: nat, events: seq<Event>): Option<World> {
    if events == [] then Some(Init(shutdownTimeout))
    else
      var before := Run(shutdownTimeout, events[..|events| - 1]);
      if before.Some? && Enabled(before.value, events[|events| - 1])
      then Some(Next(before.value, events[|events| - 1]))
      else None
  }

  // ---------------------------------------------------------------------------
  // The invariant.
  // ---------------------------------------------------------------------------

  /** The process a call of `run` has launched. */
  function Owner(call: RunCall): Option<Process> {
    match call
    case Launching(_, _) => None
    case LateCleanup(p, _, _) => Some(p)
    case Running(p, _, _) => Some(p)
    case Cleaning(p, _, _, _) => Some(p)
    case Finished(owner, _, _) => owner
  }

  predicate Pending(call: RunCall) {
    call.Launching? || call.LateCleanup?
  }

  function PendingRuns(runs: seq<RunCall>): set<nat> {
    set k | 0 <= k < |runs| && Pending(runs[k])
  }

  predicate LaunchesOk(w: World) {
    w.launches == |PendingRuns(w.runs)| && (w.launchesFinished <==> w.launches == 0)
  }

  /** A process belongs to the call that launched it. */
  predicate OwnersOk(w: World) {
    && (forall p <- w.active :: p in w.launched)
    && (forall k | 0 <= k < |w.runs| :: var owner := Owner(w.runs[k]);
          owner.Some? ==> owner.value in w.launched && w.launched[owner.value] == k)
  }

  predicate NoRunning(runs: seq<RunCall>, p: Process) {
    forall k | 0 <= k < |runs| :: !(runs[k].Running? && runs[k].process == p)
  }

  /** One task for each process, found through the dictionary as long as anyone may ask for it. */
  predicate TasksOk(w: World) {
    && (forall p <- w.cleanups :: p in w.started && w.cleanups[p] == w.started[p])
    && (forall p <- w.started :: p in w.launched && w.started[p] < |w.tasks| && w.tasks[w.started[p]].process == p)
    && (forall t | 0 <= t < |w.tasks| :: w.tasks[t].process in w.started && w.started[w.tasks[t].process] == t)
    && (forall p <- w.started ::
          && (p in w.cleanups || (p !in w.active && NoRunning(w.runs, p)))
          && (w.tasks[w.started[p]].phase.Done? ==> p !in w.active))
  }

  /** A waiting task is armed with the deadline in force unless its flag is up. */
  predicate WaitOk(c: Cleanup) {
    c.phase.Waiting? && !c.changed ==> c.phase.armed == Earlier(c.phase.grace, c.deadline)
  }

  predicate WaitsOk(tasks: seq<Cleanup>) {
    forall t | 0 <= t < |tasks| :: WaitOk(tasks[t])
  }

  predicate TermsOk(w: World) {
    && (forall t | 0 <= t < |w.tasks| :: w.terms[w.tasks[t].process] == if w.tasks[t].phase.Queued? then 0 else 1)
    && (forall p <- w.terms :: p in w.started)
  }

  /** The process's cleanup has ended. */
  predicate Cleaned(w: World, p: Process) {
    p in w.started && w.started[p] < |w.tasks| && w.tasks[w.started[p]].phase.Done?
  }

  predicate RunOk(w: World, call: RunCall) {
    match call
    case Launching(_, _) => true
    case Running(_, _, _) => true
    case LateCleanup(p, t, _) =>
      t < |w.tasks| && w.tasks[t].process == p && p !in w.active && w.shutdownDeadline.Some?
    case Cleaning(p, t, _, _) => t < |w.tasks| && w.tasks[t].process == p
    case Finished(owner, late, result) =>
      && (owner.Some? ==> owner.value !in w.active)
      && (late ==> owner.Some? && result in {LaunchFailed, Cancelled})
      && (owner.Some? && result in {LaunchFailed, Cancelled, TimedOut} ==> Cleaned(w, owner.value))
  }

  predicate TerminationOk(w: World, call: TerminateCall) {
    && (call.Gathering? ==>
          && (forall p <- w.active :: p in w.started && w.started[p] in call.tasks)
          && (forall t <- call.tasks :: t < |w.tasks| && AtMost(w.tasks[t].deadline, Some(call.until))))
    && (call.Returned? ==> w.active == [])
  }

  predicate CallsOk(w: World) {
    && (forall k | 0 <= k < |w.runs| :: RunOk(w, w.runs[k]))
    && (forall j | 0 <= j < |w.terminations| :: TerminationOk(w, w.terminations[j]))
    && (w.terminations != [] ==> w.shutdownDeadline.Some?)
  }

  predicate Inv(w: World) {
    LaunchesOk(w) && OwnersOk(w) && TasksOk(w) && WaitsOk(w.tasks) && TermsOk(w) && CallsOk(w)
  }

  // -- Starting and hurrying cleanups ----------------------------------------------

  /** `w'` is `w` with some cleanups created or hurried, and nothing else changed. */
  predicate Hurried(w: World, w': World) {
    && w' == w.(tasks := w'.tasks, cleanups := w'.cleanups, started := w'.started)
    && |w.tasks| <= |w'.tasks|
    && (forall t | 0 <= t < |w.tasks| ::
          && w'.tasks[t].process == w.tasks[t].process && w'.tasks[t].phase == w.tasks[t].phase
          && AtMost(w'.tasks[t].deadline, w.tasks[t].deadline)
          && (w.tasks[t].changed ==> w'.tasks[t].changed))
    && (forall t | |w.tasks| <= t < |w'.tasks| :: w'.tasks[t].phase == Queued)
    && (forall p <- w.cleanups :: p in w'.cleanups && w'.cleanups[p] == w.cleanups[p])
    && (forall p <- w.started :: p in w'.started && w'.started[p] == w.started[p])
  }

  /** The parts of the invariant a cleanup may be started in. */
  predicate TaskInv(w: World) {
    TasksOk(w) && WaitsOk(w.tasks) && TermsOk(w)
  }

  /** The process's cleanup is in the dictionary, or it never had one. */
  predicate Reachable(w: World, p: Process) {
    p in w.cleanups || p !in w.started
  }

  /** Hurrying one cleanup: a waiting task whose deadline moves has its flag raised. */
  lemma AdoptTaskOk(c: Cleanup, wanted: Option<int>)
    requires WaitOk(c)
    ensures var c' := AdoptTask(c, wanted);
            && WaitOk(c') && c'.process == c.process && c'.phase == c.phase
            && AtMost(c'.deadline, c.deadline) && AtMost(c'.deadline, wanted) && (c.changed ==> c'.changed)
  {
  }

  lemma HurryOk(w: World, p: Process, wanted: Option<int>)
    requires TaskInv(w) && p in w.cleanups
    ensures var (w', t) := StartCleanup(w, p, wanted);
            TaskInv(w') && Hurried(w, w') && t == w.cleanups[p] && AtMost(w'.tasks[t].deadline, wanted)
  {
    AdoptTaskOk(w.tasks[w.cleanups[p]], wanted);
    HurriedKeepsTasks(w, StartCleanup(w, p, wanted).0);
  }

  lemma CreateOk(w: World, p: Process, wanted: Option<int>)
    requires TaskInv(w) && p in w.launched && p !in w.started
    ensures var (w', t) := StartCleanup(w, p, wanted);
            TaskInv(w') && Hurried(w, w') && t == |w.tasks|
  {
    var w' := StartCleanup(w, p, wanted).0;
    CreateHurries(w, p, wanted);
    HurriedKeepsTasks(w, w');
    assert forall t | 0 <= t < |w.tasks| :: w'.tasks[t] == w.tasks[t];
  }

  lemma CreateHurries(w: World, p: Process, wanted: Option<int>)
    requires TasksOk(w) && p !in w.started
    ensures Hurried(w, StartCleanup(w, p, wanted).0)
  {
  }

  /** Hurrying tasks, or creating one for a process that had none. */
  lemma HurriedKeepsTasks(w: World, w': World)
    requires TasksOk(w) && Hurried(w, w')
    requires if |w'.tasks| == |w.tasks| then w'.started == w.started && w'.cleanups == w.cleanups
             else
               && |w'.tasks| == |w.tasks| + 1
               && var p := w'.tasks[|w.tasks|].process;
                  && p in w.launched && p !in w.started
                  && w'.started == w.started[p := |w.tasks|] && w'.cleanups == w.cleanups[p := |w.tasks|]
    ensures TasksOk(w')
  {
  }

  lemma StartCleanupOk(w: World, p: Process, wanted: Option<int>)
    requires TaskInv(w) && p in w.launched && Reachable(w, p)
    ensures var (w', t) := StartCleanup(w, p, wanted);
            && TaskInv(w') && Hurried(w, w')
            && p in w'.cleanups && w'.cleanups[p] == t
            && t < |w'.tasks| && w'.tasks[t].process == p && AtMost(w'.tasks[t].deadline, wanted)
  {
    if p in w.cleanups {
      HurryOk(w, p, wanted);
    } else {
      CreateOk(w, p, wanted);
    }
  }

  lemma StaysReachable(w: World, p: Process, wanted: Option<int>, q: Process)
    requires TasksOk(w) && Reachable(w, q)
    ensures Reachable(StartCleanup(w, p, wanted).0, q)
  {
  }

  lemma HurriedTrans(a: World, b: World, c: World)
    requires Hurried(a, b) && Hurried(b, c)
    ensures Hurried(a, c)
  {
  }

  lemma {:induction false} StartEachOk(w: World, ps: seq<Process>, wanted: Option<int>)
    requires TaskInv(w) && forall p <- ps :: p in w.launched && Reachable(w, p)
    ensures var (w', ts) := StartEach(w, ps, wanted);
            TaskInv(w') && Hurried(w, w')
    decreases |ps|
  {
    if ps != [] {
      StartRest(w, ps, wanted);
      var first := StartCleanup(w, ps[0], wanted).0;
      StartEachOk(first, ps[1..], wanted);
      HurriedTrans(w, first, StartEach(w, ps, wanted).0);
    }
  }

  /** After the first process's cleanup the rest can be started. */
  lemma StartRest(w: World, ps: seq<Process>, wanted: Option<int>)
    requires ps != [] && TaskInv(w) && forall p <- ps :: p in w.launched && Reachable(w, p)
    ensures var (first, t) := StartCleanup(w, ps[0], wanted);
            && TaskInv(first) && Hurried(w, first)
            && ps[0] in first.cleanups && first.cleanups[ps[0]] == t
            && t < |first.tasks| && AtMost(first.tasks[t].deadline, wanted)
            && forall p <- ps[1..] :: p in first.launched && Reachable(first, p)
  {
    StartCleanupOk(w, ps[0], wanted);
    forall q <- ps[1..]
      ensures q in w.launched && Reachable(StartCleanup(w, ps[0], wanted).0, q)
    {
      assert q in ps;
      StaysReachable(w, ps[0], wanted, q);
    }
  }

  lemma StartedStays(first: World, last: World, p: Process, t: nat, wanted: Option<int>)
    requires Hurried(first, last) && p in first.cleanups && first.cleanups[p] == t
    requires t < |first.tasks| && AtMost(first.tasks[t].deadline, wanted)
    ensures p in last.cleanups && last.cleanups[p] == t && t < |last.tasks| && AtMost(last.tasks[t].deadline, wanted)
  {
  }

  /** Every process's cleanup is among the tasks collected, and each of them adopted the deadline. */
  predicate Covered(w: World, ps: seq<Process>, ts: set<nat>, wanted: Option<int>) {
    && (forall p <- ps :: p in w.cleanups && w.cleanups[p] in ts)
    && (forall t <- ts :: t < |w.tasks| && AtMost(w.tasks[t].deadline, wanted))
  }

  lemma CoversMore(w: World, ps: seq<Process>, t: nat, ts: set<nat>, wanted: Option<int>)
    requires ps != [] && Covered(w, ps[1..], ts, wanted)
    requires ps[0] in w.cleanups && w.cleanups[ps[0]] == t && t < |w.tasks| && AtMost(w.tasks[t].deadline, wanted)
    ensures Covered(w, ps, {t} + ts, wanted)
  {
    assert forall p <- ps :: p == ps[0] || p in ps[1..];
  }

  lemma {:induction false} StartEachCovers(w: World, ps: seq<Process>, wanted: Option<int>)
    requires TaskInv(w) && forall p <- ps :: p in w.launched && Reachable(w, p)
    ensures var (w', ts) := StartEach(w, ps, wanted);
            Covered(w', ps, ts, wanted)
    decreases |ps|
  {
    if ps != [] {
      StartRest(w, ps, wanted);
      var (first, t) := StartCleanup(w, ps[0], wanted);
      var (last, ts) := StartEach(first, ps[1..], wanted);
      StartEachOk(first, ps[1..], wanted);
      StartEachCovers(first, ps[1..], wanted);
      StartedStays(first, last, ps[0], t, wanted);
      CoversMore(last, ps, t, ts, wanted);
    }
  }

  lemma AdoptAllOk(w: World, ps: set<Process>, wanted: Option<int>)
    requires TaskInv(w)
    ensures TaskInv(AdoptAll(w, ps, wanted)) && Hurried(w, AdoptAll(w, ps, wanted))
  {
    var w' := AdoptAll(w, ps, wanted);
    forall t | 0 <= t < |w.tasks|
      ensures WaitOk(w'.tasks[t]) && w'.tasks[t].process == w.tasks[t].process
              && w'.tasks[t].phase == w.tasks[t].phase && AtMost(w'.tasks[t].deadline, w.tasks[t].deadline)
              && (w.tasks[t].changed ==> w'.tasks[t].changed)
    {
      AdoptTaskOk(w.tasks[t], wanted);
    }
  }

  // -- One lemma for each kind of event --------------------------------------------

  /** Time and tasks have moved on: processes left `active`, tasks advanced or were hurried or created. */
  predicate Progressed(w: World, w': World) {
    && w'.runs == w.runs && w'.terminations == w.terminations
    && (w.shutdownDeadline.Some? ==> w'.shutdownDeadline.Some?)
    && (forall p <- w'.active :: p in w.active) && (w.active == [] ==> w'.active == [])
    && |w.tasks| <= |w'.tasks|
    && (forall p <- w.started :: p in w'.started && w'.started[p] == w.started[p])
    && (forall t | 0 <= t < |w.tasks| ::
          && w'.tasks[t].process == w.tasks[t].process
          && (w.tasks[t].phase.Done? ==> w'.tasks[t].phase.Done?)
          && AtMost(w'.tasks[t].deadline, w.tasks[t].deadline))
  }

  /** Progress keeps what the calls rely on. */
  lemma ProgressKeepsCalls(w: World, w': World)
    requires Progressed(w, w') && CallsOk(w)
    ensures CallsOk(w')
  {
    forall k | 0 <= k < |w.runs|
      ensures RunOk(w', w.runs[k])
    {
      assert RunOk(w, w.runs[k]);
    }
    forall j | 0 <= j < |w.terminations|
      ensures TerminationOk(w', w.terminations[j])
    {
      assert TerminationOk(w, w.terminations[j]);
    }
  }

  /** The claim about a call of `run` mentions no other call, and tasks and processes only forward. */
  lemma CallMoves(w: World, n: World, k: nat, call: RunCall)
    requires CallsOk(w) && Progressed(w, n.(runs := w.runs))
    requires |n.runs| >= |w.runs| && k < |n.runs| && n.runs[k] == call && RunOk(n, call)
    requires forall i | 0 <= i < |n.runs| && i != k :: i < |w.runs| && n.runs[i] == w.runs[i]
    ensures CallsOk(n)
  {
    var between := n.(runs := w.runs);
    ProgressKeepsCalls(w, between);
    forall i | 0 <= i < |n.runs|
      ensures RunOk(n, n.runs[i])
    {
      var c := n.runs[i];
      assert i != k ==> RunOk(between, c);
    }
    forall j | 0 <= j < |n.terminations|
      ensures TerminationOk(n, n.terminations[j])
    {
      assert TerminationOk(between, between.terminations[j]);
    }
  }

  /** Starting a cleanup for every active process. */
  lemma GatherStarts(w: World, wanted: Option<int>)
    requires Inv(w)
    ensures var (w', ts) := StartEach(w, w.active, wanted);
            TaskInv(w') && Hurried(w, w') && Covered(w', w.active, ts, wanted)
  {
    assert forall p <- w.active :: p in w.launched && Reachable(w, p);
    StartEachOk(w, w.active, wanted);
    StartEachCovers(w, w.active, wanted);
  }

  lemma GatherOk(w: World, j: nat)
    requires Inv(w) && j < |w.terminations| && (w.terminations[j].Starting? || w.terminations[j].AwaitingLaunches?)
    ensures Inv(GatherNext(w, j))
  {
    var call := w.terminations[j];
    var (w', ts) := StartEach(w, w.active, Some(call.until));
    GatherStarts(w, Some(call.until));
    ProgressKeepsCalls(w, w');
    CoveredGathering(w', Gathering(call.until, ts, call.cancelled));
    TerminationMoves(w', j, Gathering(call.until, ts, call.cancelled));
  }

  lemma CoveredGathering(w: World, call: TerminateCall)
    requires call.Gathering? && TasksOk(w) && Covered(w, w.active, call.tasks, Some(call.until))
    ensures TerminationOk(w, call)
  {
  }

  lemma TerminationMoves(w: World, j: nat, call: TerminateCall)
    requires CallsOk(w) && j < |w.terminations| && TerminationOk(w, call)
    ensures CallsOk(SetTermination(w, j, call))
  {
    var n := SetTermination(w, j, call);
    forall k | 0 <= k < |n.runs|
      ensures RunOk(n, n.runs[k])
    {
      assert RunOk(w, w.runs[k]);
    }
    forall i | 0 <= i < |n.terminations|
      ensures TerminationOk(n, n.terminations[i])
    {
      assert i != j ==> TerminationOk(w, w.terminations[i]);
    }
  }

  lemma TurnOk(c: Cleanup, grace: Option<int>, now: int)
    ensures var c' := Turn(c, grace, now);
            && c'.process == c.process && c'.deadline == c.deadline && WaitOk(c') && !c'.phase.Queued?
            && (c'.phase.Waiting? ==> !c'.changed && (c'.phase.armed == None || c'.phase.armed.value > now))
    decreases grace.Some?
  {
    if grace.Some? {
      TurnOk(c, None, now);
    }
  }

  /** Moving a waiting task on keeps the invariant. */
  lemma AdvanceOk(w: World, t: nat, c: Cleanup)
    requires Inv(w) && InTask(w, t)
    requires c.process == w.tasks[t].process && c.deadline == w.tasks[t].deadline && WaitOk(c) && !c.phase.Queued?
    ensures Inv(Advance(w, t, c))
  {
    var n := Advance(w, t, c);
    AdvanceKeepsCalls(w, n, t, c);
    AdvanceKeepsTerms(w, n, t, c, false);
    AdvanceKeepsTasks(w, n, t, c);
  }

  /** A task's first move is its process's only SIGTERM phase. */
  lemma FirstAdvanceOk(w: World, t: nat, c: Cleanup)
    requires Inv(w) && t < |w.tasks| && w.tasks[t].phase.Queued?
    requires c.process == w.tasks[t].process && c.deadline == w.tasks[t].deadline && WaitOk(c) && !c.phase.Queued?
    ensures Inv(Advance(w.(terms := w.terms + multiset{c.process}), t, c))
  {
    var n := Advance(w.(terms := w.terms + multiset{c.process}), t, c);
    AdvanceKeepsCalls(w, n, t, c);
    AdvanceKeepsTerms(w, n, t, c, true);
    AdvanceKeepsTasks(w, n, t, c);
  }

  lemma AdvanceKeepsCalls(w: World, n: World, t: nat, c: Cleanup)
    requires CallsOk(w) && t < |w.tasks| && !w.tasks[t].phase.Done?
    requires c.process == w.tasks[t].process && c.deadline == w.tasks[t].deadline
    requires n == w.(tasks := w.tasks[t := c], terms := n.terms, active := n.active)
    requires n.active == w.active || n.active == Without(w.active, c.process)
    ensures CallsOk(n)
  {
    ProgressKeepsCalls(w, n);
  }

  lemma AdvanceKeepsTerms(w: World, n: World, t: nat, c: Cleanup, begins: bool)
    requires TasksOk(w) && TermsOk(w) && t < |w.tasks| && begins == w.tasks[t].phase.Queued?
    requires c.process == w.tasks[t].process && !c.phase.Queued?
    requires n.tasks == w.tasks[t := c] && n.started == w.started
    requires n.terms == if begins then w.terms + multiset{c.process} else w.terms
    ensures TermsOk(n)
  {
  }

  lemma AdvanceKeepsTasks(w: World, n: World, t: nat, c: Cleanup)
    requires TasksOk(w) && t < |w.tasks| && c.process == w.tasks[t].process
    requires n == w.(tasks := w.tasks[t := c], terms := n.terms, active := n.active)
    requires forall p <- n.active :: p in w.active
    requires c.phase.Done? ==> c.process !in n.active
    ensures TasksOk(n)
  {
  }

  /** How one call of `run` moving on changes the number of pending launches. */
  lemma PendingChange(runs: seq<RunCall>, k: nat, call: RunCall)
    requires k < |runs|
    ensures |PendingRuns(runs[k := call])|
            == |PendingRuns(runs)| - (if Pending(runs[k]) then 1 else 0) + (if Pending(call) then 1 else 0)
  {
    var others := PendingRuns(runs) - {k};
    assert PendingRuns(runs) == others + (if Pending(runs[k]) then {k} else {});
    assert PendingRuns(runs[k := call]) == others + (if Pending(call) then {k} else {});
  }

  lemma PendingAppend(runs: seq<RunCall>, call: RunCall)
    ensures |PendingRuns(runs + [call])| == |PendingRuns(runs)| + (if Pending(call) then 1 else 0)
  {
    assert PendingRuns(runs + [call]) == PendingRuns(runs) + (if Pending(call) then {|runs|} else {});
  }

  lemma CallOk(w: World, timeout: int, deadline: Option<int>)
    requires Inv(w)
    ensures Inv(CallNext(w, timeout, deadline))
  {
    var n := CallNext(w, timeout, deadline);
    assert n == w.(runs := n.runs, launches := n.launches, launchesFinished := n.launchesFinished);
    CallKeepsCounts(w, n);
    CallKeepsCalls(w, n);
    RunStatesKeepTasks(w, n);
  }

  lemma CallKeepsCalls(w: World, n: World)
    requires CallsOk(w)
    requires n == w.(runs := n.runs, launches := n.launches, launchesFinished := n.launchesFinished)
    requires n.runs != [] && n.runs[..|n.runs| - 1] == w.runs
    requires n.runs[|w.runs|].Launching? || n.runs[|w.runs|] == Finished(None, false, LaunchFailed)
    ensures CallsOk(n)
  {
    assert forall i | 0 <= i < |w.runs| :: n.runs[i] == w.runs[i];
    CallMoves(w, n, |w.runs|, n.runs[|w.runs|]);
  }

  lemma CallKeepsCounts(w: World, n: World)
    requires LaunchesOk(w) && OwnersOk(w)
    requires n == w.(runs := n.runs, launches := n.launches, launchesFinished := n.launchesFinished)
    requires n.runs != [] && n.runs[..|n.runs| - 1] == w.runs && Owner(n.runs[|w.runs|]) == None
    requires if Pending(n.runs[|w.runs|]) then n.launches == w.launches + 1 && !n.launchesFinished
             else n.launches == w.launches && n.launchesFinished == w.launchesFinished
    ensures LaunchesOk(n) && OwnersOk(n)
  {
    assert n.runs == w.runs + [n.runs[|w.runs|]];
    PendingAppend(w.runs, n.runs[|w.runs|]);
  }

  /** The tasks' claims survive when no call of `run` starts to run a process. */
  lemma RunStatesKeepTasks(w: World, n: World)
    requires TasksOk(w)
    requires n == w.(runs := n.runs, launches := n.launches, launchesFinished := n.launchesFinished)
    requires forall k | 0 <= k < |n.runs| && n.runs[k].Running? :: k < |w.runs| && w.runs[k] == n.runs[k]
    ensures TasksOk(n)
  {
    forall p <- n.started | p !in n.cleanups
      ensures NoRunning(n.runs, p)
    {
      assert NoRunning(w.runs, p);
    }
  }

  lemma LaunchFailsOk(w: World, k: nat, notFound: bool)
    requires Inv(w) && k < |w.runs| && w.runs[k].Launching?
    ensures Inv(LaunchFailsNext(w, k, notFound))
  {
    var n := LaunchFailsNext(w, k, notFound);
    PendingChange(w.runs, k, n.runs[k]);
    CallMoves(w, n, k, n.runs[k]);
    RunStatesKeepTasks(w, n);
  }

  lemma LaunchTrackedOk(w: World, k: nat, p: Process)
    requires Inv(w) && Enabled(w, LaunchSucceeds(k, p)) && w.shutdownDeadline == None
    ensures Inv(LaunchNext(w, k, p))
  {
    var n := LaunchNext(w, k, p);
    PendingChange(w.runs, k, n.runs[k]);
    forall i | 0 <= i < |n.runs|
      ensures RunOk(n, n.runs[i])
    {
      assert RunOk(w, w.runs[i]);
    }
    forall q <- n.started | q !in n.cleanups
      ensures NoRunning(n.runs, q)
    {
      assert NoRunning(w.runs, q);
    }
  }

  lemma LaunchLateOk(w: World, k: nat, p: Process)
    requires Inv(w) && Enabled(w, LaunchSucceeds(k, p)) && w.shutdownDeadline.Some?
    ensures Inv(LaunchNext(w, k, p)) && LaunchNext(w, k, p).active == w.active
    ensures LaunchNext(w, k, p).runs[k].LateCleanup?
  {
    var known := w.(launched := w.launched[p := k]);
    assert TaskInv(known);
    StartCleanupOk(known, p, w.shutdownDeadline);
    var (started, t) := StartCleanup(known, p, w.shutdownDeadline);
    var call := LateCleanup(p, t, false);
    LateKeepsCounts(w, known, started, k, call);
    LateKeepsCalls(w, known, started, k, call);
    RunStatesKeepTasks(started, SetRun(started, k, call));
  }

  lemma LateKeepsCounts(w: World, known: World, started: World, k: nat, call: RunCall)
    requires LaunchesOk(w) && OwnersOk(w) && k < |w.runs| && w.runs[k].Launching? && call.LateCleanup?
    requires call.process !in w.launched && known == w.(launched := w.launched[call.process := k])
    requires Hurried(known, started)
    ensures LaunchesOk(SetRun(started, k, call)) && OwnersOk(SetRun(started, k, call))
  {
    PendingChange(w.runs, k, call);
  }

  lemma LateKeepsCalls(w: World, known: World, started: World, k: nat, call: RunCall)
    requires CallsOk(w) && known == w.(launched := known.launched) && Hurried(known, started)
    requires k < |w.runs| && w.shutdownDeadline.Some?
    requires call.LateCleanup? && call.task < |started.tasks| && started.tasks[call.task].process == call.process
    requires call.process !in w.active
    ensures CallsOk(SetRun(started, k, call))
  {
    CallMoves(w, SetRun(started, k, call), k, call);
  }

  /** A process that is still run has its cleanup, if any, in the dictionary. */
  lemma RunningIsReachable(w: World, k: nat)
    requires TasksOk(w) && k < |w.runs| && w.runs[k].Running?
    ensures Reachable(w, w.runs[k].process)
  {
  }

  /** A run hands its process to a cleanup. */
  lemma CleanOk(w: World, k: nat, timedOut: bool)
    requires Inv(w) && k < |w.runs| && w.runs[k].Running?
    ensures Inv(CleanNext(w, k, timedOut))
  {
    var p := w.runs[k].process;
    assert Owner(w.runs[k]) == Some(p);
    RunningIsReachable(w, k);
    StartCleanupOk(w, p, RunCleanupDeadline(w.runs[k].deadline, w.shutdownDeadline));
    var (started, t) := StartCleanup(w, p, RunCleanupDeadline(w.runs[k].deadline, w.shutdownDeadline));
    var n := CleanNext(w, k, timedOut);
    PendingChange(w.runs, k, n.runs[k]);
    CallMoves(w, n, k, n.runs[k]);
    RunStatesKeepTasks(started, n);
  }

  /** A call of `run` that is over forgets its process; nobody else runs it. */
  lemma ForgettingKeepsTasks(w: World, n: World, k: nat, p: Process)
    requires TasksOk(w) && OwnersOk(w) && k < |w.runs| && Owner(w.runs[k]) == Some(p)
    requires |n.runs| == |w.runs| && n.runs[k].Finished?
    requires forall i | 0 <= i < |w.runs| && i != k :: n.runs[i] == w.runs[i]
    requires n.cleanups == w.cleanups - {p}
    requires p !in n.active && forall q <- n.active :: q in w.active
    requires n.tasks == w.tasks && n.started == w.started && n.launched == w.launched
    ensures TasksOk(n)
  {
    forall q <- n.started | q !in n.cleanups
      ensures q !in n.active && NoRunning(n.runs, q)
    {
      if q == p {
        forall i | 0 <= i < |n.runs| && n.runs[i].Running?
          ensures n.runs[i].process != p
        {
          assert Owner(w.runs[i]) == Some(n.runs[i].process);
        }
      } else {
        assert NoRunning(w.runs, q);
      }
    }
  }

  /** A call that is over is no longer counted, if it was, and still owns its process. */
  lemma EndKeepsCounts(w: World, n: World, k: nat)
    requires LaunchesOk(w) && OwnersOk(w) && k < |w.runs| == |n.runs| && n.runs == w.runs[k := n.runs[k]]
    requires n.runs[k].Finished? && Owner(n.runs[k]) == Owner(w.runs[k])
    requires n.launched == w.launched && forall q <- n.active :: q in w.active
    requires (n.launches, n.launchesFinished)
             == if Pending(w.runs[k]) then (w.launches - 1, w.launches == 1) else (w.launches, w.launchesFinished)
    ensures LaunchesOk(n) && OwnersOk(n)
  {
    PendingChange(w.runs, k, n.runs[k]);
  }

  lemma RunSeesExitOk(w: World, k: nat)
    requires Inv(w) && Enabled(w, RunSeesExit(k))
    ensures Inv(SeesExitNext(w, k))
  {
    var n := SeesExitNext(w, k);
    assert Owner(w.runs[k]) == Some(w.runs[k].process);
    EndKeepsCounts(w, n, k);
    ForgettingKeepsTasks(w, n, k, w.runs[k].process);
    CallMoves(w, n, k, n.runs[k]);
  }

  /** The cleanup a call awaits is its process's, and it has ended. */
  lemma AwaitedIsCleaned(w: World, k: nat)
    requires Inv(w) && Enabled(w, RunResumes(k))
    ensures Cleaned(w, w.runs[k].process)
  {
    assert RunOk(w, w.runs[k]);
  }

  lemma RunResumesOk(w: World, k: nat)
    requires Inv(w) && Enabled(w, RunResumes(k))
    ensures Inv(ResumeNext(w, k))
  {
    if w.runs[k].LateCleanup? {
      LateResumesOk(w, k);
    } else {
      CleaningResumesOk(w, k);
    }
  }

  lemma LateResumesOk(w: World, k: nat)
    requires Inv(w) && Enabled(w, RunResumes(k)) && w.runs[k].LateCleanup?
    ensures Inv(ResumeNext(w, k))
  {
    var n := ResumeNext(w, k);
    AwaitedIsCleaned(w, k);
    assert RunOk(w, w.runs[k]);
    EndKeepsCounts(w, n, k);
    ForgettingKeepsTasks(w, n, k, w.runs[k].process);
    CallMoves(w, n, k, n.runs[k]);
  }

  lemma CleaningResumesOk(w: World, k: nat)
    requires Inv(w) && Enabled(w, RunResumes(k)) && w.runs[k].Cleaning?
    ensures Inv(ResumeNext(w, k))
  {
    var n := ResumeNext(w, k);
    AwaitedIsCleaned(w, k);
    EndKeepsCounts(w, n, k);
    ForgettingKeepsTasks(w, n, k, w.runs[k].process);
    CallMoves(w, n, k, n.runs[k]);
  }

  lemma CancelAgainOk(w: World, k: nat)
    requires Inv(w) && Enabled(w, CancelRun(k)) && !w.runs[k].Running?
    ensures Inv(CancelNext(w, k))
  {
    assert RunOk(w, w.runs[k]);
    CallTurnsOk(w, k, CancelNext(w, k).runs[k]);
  }

  /** A call that keeps its process and its place among the pending launches. */
  lemma CallTurnsOk(w: World, k: nat, call: RunCall)
    requires Inv(w) && k < |w.runs| && RunOk(w, call) && !call.Running?
    requires Owner(call) == Owner(w.runs[k]) && Pending(call) == Pending(w.runs[k])
    ensures Inv(SetRun(w, k, call))
  {
    var n := SetRun(w, k, call);
    PendingChange(w.runs, k, call);
    CallMoves(w, n, k, call);
    RunStatesKeepTasks(w, n);
  }

  lemma TerminateOk(w: World, deadline: Option<int>)
    requires Inv(w)
    ensures Inv(TerminateNext(w, deadline))
  {
    var n := TerminateNext(w, deadline);
    var asked := w.(shutdownDeadline := n.shutdownDeadline);
    assert TaskInv(asked);
    AdoptAllOk(asked, w.cleanups.Keys, n.shutdownDeadline);
    var adopted := AdoptAll(asked, w.cleanups.Keys, n.shutdownDeadline);
    ProgressKeepsCalls(w, adopted);
    forall k | 0 <= k < |n.runs|
      ensures RunOk(n, n.runs[k])
    {
      assert RunOk(adopted, adopted.runs[k]);
    }
    forall j | 0 <= j < |n.terminations|
      ensures TerminationOk(n, n.terminations[j])
    {
      assert j < |w.terminations| ==> TerminationOk(adopted, n.terminations[j]);
    }
  }

  lemma TerminationStepOk(w: World, e: Event)
    requires Inv(w) && Enabled(w, e)
    requires e.TerminationStarts? || e.TerminationResumes? || e.CancelTermination?
    ensures Inv(Next(w, e))
  {
    var j := e.call;
    var call := w.terminations[j];
    assert TerminationOk(w, call);
    match e {
      case TerminationStarts(_) =>
        if w.launches > 0 && call.until > w.now {
          CallTurns(w, j, AwaitingLaunches(call.until, call.cancelled));
        } else {
          GatherOk(w, j);
        }
      case TerminationResumes(_) =>
        GatheredIsDrained(w, j);
        CallTurns(w, j, Returned(call.until, call.cancelled));
      case CancelTermination(_) => CallTurns(w, j, call.(cancelled := true));
    }
  }

  lemma CallTurns(w: World, j: nat, call: TerminateCall)
    requires Inv(w) && j < |w.terminations| && TerminationOk(w, call)
    ensures Inv(SetTermination(w, j, call))
  {
    TerminationMoves(w, j, call);
  }

  /** When every gathered cleanup has ended, no process is active. */
  lemma GatheredIsDrained(w: World, j: nat)
    requires Inv(w) && Enabled(w, TerminationResumes(j))
    ensures w.active == []
  {
    assert TerminationOk(w, w.terminations[j]);
    if w.active != [] {
      HasFirst(w.active);
    }
  }

  lemma HasFirst(ps: seq<Process>)
    requires ps != []
    ensures exists p :: p in ps
  {
    assert ps[0] in ps;
  }

  lemma ClockOk(w: World, e: Event)
    requires Inv(w) && Enabled(w, e) && (e.Exit? || e.Tick?)
    ensures Inv(Next(w, e))
  {
    ClockMoves(w, Next(w, e));
  }

  lemma ClockMoves(w: World, n: World)
    requires Inv(w) && n == w.(exited := n.exited, now := n.now)
    ensures Inv(n)
  {
    ProgressKeepsCalls(w, n);
  }

  lemma CleanupStartsOk(w: World, t: nat)
    requires Inv(w) && t < |w.tasks| && w.tasks[t].phase.Queued?
    ensures Inv(BeginCleanup(w, t))
  {
    var c := Turn(w.tasks[t], Some(w.now + GRACE), w.now);
    TurnOk(w.tasks[t], Some(w.now + GRACE), w.now);
    FirstAdvanceOk(w, t, c);
    assert BeginCleanup(w, t) == Advance(w.(terms := w.terms + multiset{c.process}), t, c);
  }

  lemma CleanupWakesOk(w: World, t: nat, over: bool)
    requires Inv(w) && InTask(w, t)
    ensures Inv(WakeCleanup(w, t, over))
  {
    var c := w.tasks[t];
    TurnOk(c, c.phase.grace, w.now);
    TurnOk(c, None, w.now);
    AdvanceOk(w, t, if over then PhaseOver(c, c.phase.grace, w.now) else Turn(c, c.phase.grace, w.now));
  }

  lemma NextKeepsInv(w: World, e: Event)
    requires Inv(w) && Enabled(w, e)
    ensures Inv(Next(w, e))
  {
    match e
    case Call(timeout, deadline) => CallOk(w, timeout, deadline);
    case LaunchFails(k, notFound) => LaunchFailsOk(w, k, notFound);
    case LaunchSucceeds(k, p) =>
      if w.shutdownDeadline == None { LaunchTrackedOk(w, k, p); } else { LaunchLateOk(w, k, p); }
    case RunTimesOut(k) => CleanOk(w, k, true);
    case CancelRun(k) => if w.runs[k].Running? { CleanOk(w, k, false); } else { CancelAgainOk(w, k); }
    case RunSeesExit(k) => RunSeesExitOk(w, k);
    case RunResumes(k) => RunResumesOk(w, k);
    case Terminate(deadline) => TerminateOk(w, deadline);
    case Exit(_, _) => ClockOk(w, e);
    case Tick(_) => ClockOk(w, e);
    case TerminationStarts(_) => TerminationStepOk(w, e);
    case LaunchesSettle(j) => GatherOk(w, j);
    case TerminationResumes(_) => TerminationStepOk(w, e);
    case CancelTermination(_) => TerminationStepOk(w, e);
    case CleanupStarts(t) => CleanupStartsOk(w, t);
    case CleanupSeesExit(t) => CleanupWakesOk(w, t, true);
    case CleanupSeesUpdate(t) => CleanupWakesOk(w, t, false);
    case CleanupTimesOut(t) => CleanupWakesOk(w, t, true);
  }

  /** Every reachable world keeps the invariant. */
  lemma {:induction false} RunKeepsInv(shutdownTimeout: nat, events: seq<Event>)
    requires Run(shutdownTimeout, events).Some?
    ensures Inv(Run(shutdownTimeout, events).value)
  {
    if events == [] {
      assert PendingRuns([]) == {};
    } else {
      RunKeepsInv(shutdownTimeout, events[..|events| - 1]);
      NextKeepsInv(Run(shutdownTimeout, events[..|events| - 1]).value, events[|events| - 1]);
    }
  }

  // ---------------------------------------------------------------------------
  // What every run guarantees.
  // ---------------------------------------------------------------------------

  /** Deadlines only shrink, ended cleanups stay ended, returns and arrived cancellations are not taken back. */
  predicate Carried(w: World, n: World) {
    && |w.tasks| <= |n.tasks| && |w.terminations| <= |n.terminations| && |w.runs| <= |n.runs|
    && (forall t | 0 <= t < |w.tasks| ::
          && n.tasks[t].process == w.tasks[t].process && AtMost(n.tasks[t].deadline, w.tasks[t].deadline)
          && (w.tasks[t].phase.Done? ==> n.tasks[t].phase.Done?))
    && (forall j | 0 <= j < |w.terminations| && w.terminations[j].Returned? :: n.terminations[j] == w.terminations[j])
    && (forall k | 0 <= k < |w.runs| && CancellationArrived(w.runs[k]) :: CancellationArrived(n.runs[k]))
  }

  lemma CleanCarries(w: World, k: nat, timedOut: bool)
    requires Inv(w) && k < |w.runs| && w.runs[k].Running?
    ensures Carried(w, CleanNext(w, k, timedOut))
  {
    CleanHurries(w, k, timedOut);
  }

  lemma RunEventCarries(w: World, e: Event)
    requires Enabled(w, e)
    requires e.Call? || e.LaunchFails? || (e.CancelRun? && !w.runs[e.run].Running?)
    ensures Carried(w, Next(w, e))
  {
  }

  lemma RunEndCarries(w: World, e: Event)
    requires Enabled(w, e) && (e.RunSeesExit? || e.RunResumes?)
    ensures Carried(w, Next(w, e))
  {
  }

  lemma LaunchCarries(w: World, k: nat, p: Process)
    requires Inv(w) && Enabled(w, LaunchSucceeds(k, p))
    ensures Carried(w, LaunchNext(w, k, p))
  {
    if w.shutdownDeadline.Some? {
      LateHurries(w, k, p);
    }
  }

  lemma AdvanceCarries(w: World, n: World, t: nat, c: Cleanup)
    requires t < |w.tasks| && !w.tasks[t].phase.Done?
    requires c.process == w.tasks[t].process && c.deadline == w.tasks[t].deadline
    requires n == w.(tasks := w.tasks[t := c], terms := n.terms, active := n.active)
    ensures Carried(w, n)
  {
  }

  lemma BeginCarries(w: World, t: nat)
    requires t < |w.tasks| && w.tasks[t].phase.Queued?
    ensures Carried(w, BeginCleanup(w, t))
  {
    TurnOk(w.tasks[t], Some(w.now + GRACE), w.now);
    AdvanceCarries(w, BeginCleanup(w, t), t, Turn(w.tasks[t], Some(w.now + GRACE), w.now));
  }

  lemma WakeCarries(w: World, t: nat, over: bool)
    requires InTask(w, t)
    ensures Carried(w, WakeCleanup(w, t, over))
  {
    var c := w.tasks[t];
    TurnOk(c, c.phase.grace, w.now);
    TurnOk(c, None, w.now);
    AdvanceCarries(w, WakeCleanup(w, t, over), t, WakeCleanup(w, t, over).tasks[t]);
  }

  lemma TerminateCarries(w: World, deadline: Option<int>)
    requires Inv(w)
    ensures Carried(w, TerminateNext(w, deadline))
  {
    var n := TerminateNext(w, deadline);
    AdoptAllOk(w.(shutdownDeadline := n.shutdownDeadline), w.cleanups.Keys, n.shutdownDeadline);
  }

  lemma TerminationEventCarries(w: World, e: Event)
    requires Inv(w) && Enabled(w, e)
    requires e.TerminationStarts? || e.LaunchesSettle? || e.TerminationResumes? || e.CancelTermination?
    ensures Carried(w, Next(w, e))
  {
    match e
    case TerminationStarts(j) =>
      if w.launches > 0 && w.terminations[j].until > w.now {
        TerminationMoveCarries(w, j, AwaitingLaunches(w.terminations[j].until, w.terminations[j].cancelled));
      } else {
        GatherCarries(w, j);
      }
    case LaunchesSettle(j) => GatherCarries(w, j);
    case TerminationResumes(j) =>
      TerminationMoveCarries(w, j, Returned(w.terminations[j].until, w.terminations[j].cancelled));
    case CancelTermination(j) => TerminationMoveCarries(w, j, w.terminations[j].(cancelled := true));
  }

  lemma GatherCarries(w: World, j: nat)
    requires Inv(w) && j < |w.terminations| && (w.terminations[j].Starting? || w.terminations[j].AwaitingLaunches?)
    ensures Carried(w, GatherNext(w, j))
  {
    GatherHurries(w, j);
  }

  lemma TerminationMoveCarries(w: World, j: nat, call: TerminateCall)
    requires j < |w.terminations| && !w.terminations[j].Returned?
    ensures Carried(w, SetTermination(w, j, call))
  {
  }

  lemma StepCarries(w: World, e: Event)
    requires Inv(w) && Enabled(w, e)
    ensures Carried(w, Next(w, e))
  {
    match e
    case LaunchSucceeds(k, p) => LaunchCarries(w, k, p);
    case Terminate(deadline) => TerminateCarries(w, deadline);
    case Exit(_, _) =>
    case Tick(_) =>
    case CleanupStarts(t) => BeginCarries(w, t);
    case CleanupSeesUpdate(t) => WakeCarries(w, t, false);
    case CleanupSeesExit(t) => WakeCarries(w, t, true);
    case CleanupTimesOut(t) => WakeCarries(w, t, true);
    case TerminationStarts(_) => TerminationEventCarries(w, e);
    case LaunchesSettle(_) => TerminationEventCarries(w, e);
    case TerminationResumes(_) => TerminationEventCarries(w, e);
    case CancelTermination(_) => TerminationEventCarries(w, e);
    case RunTimesOut(k) => CleanCarries(w, k, true);
    case CancelRun(k) => if w.runs[k].Running? { CleanCarries(w, k, false); } else { RunEventCarries(w, e); }
    case RunSeesExit(_) => RunEndCarries(w, e);
    case RunResumes(_) => RunEndCarries(w, e);
    case _ => RunEventCarries(w, e);
  }

  /** The call was cancelled while its process was being cleaned up, or has raised a cancellation. */
  predicate CancellationArrived(call: RunCall) {
    || (call.LateCleanup? && call.cancelled)
    || (call.Cleaning? && call.cancelled)
    || (call.Finished? && call.result == Cancelled)
  }

  lemma CleanHurries(w: World, k: nat, timedOut: bool)
    requires Inv(w) && k < |w.runs| && w.runs[k].Running?
    ensures var n := CleanNext(w, k, timedOut);
            Hurried(w, n.(runs := w.runs)) && n.runs == w.runs[k := n.runs[k]]
  {
    RunningIsReachable(w, k);
    assert Owner(w.runs[k]) == Some(w.runs[k].process);
    StartCleanupOk(w, w.runs[k].process, RunCleanupDeadline(w.runs[k].deadline, w.shutdownDeadline));
  }

  lemma LateHurries(w: World, k: nat, p: Process)
    requires Inv(w) && Enabled(w, LaunchSucceeds(k, p)) && w.shutdownDeadline.Some?
    ensures var n := LaunchNext(w, k, p);
            Hurried(w, n.(runs := w.runs, launched := w.launched)) && n.runs == w.runs[k := n.runs[k]]
  {
    var known := w.(launched := w.launched[p := k]);
    assert TaskInv(known);
    StartCleanupOk(known, p, w.shutdownDeadline);
  }

  lemma GatherHurries(w: World, j: nat)
    requires Inv(w) && j < |w.terminations| && (w.terminations[j].Starting? || w.terminations[j].AwaitingLaunches?)
    ensures var n := GatherNext(w, j);
            Hurried(w, n.(terminations := w.terminations)) && n.terminations == w.terminations[j := n.terminations[j]]
  {
    assert forall p <- w.active :: p in w.launched && Reachable(w, p);
    StartEachOk(w, w.active, Some(w.terminations[j].until));
  }

  /** Once a call of `terminate_active` has returned, no process is active, then and ever after. */
  lemma {:induction false} DrainedForever(shutdownTimeout: nat, before: seq<Event>, after: seq<Event>, j: nat)
    requires Run(shutdownTimeout, before).Some? && Run(shutdownTimeout, before + after).Some?
    requires var w := Run(shutdownTimeout, before).value; j < |w.terminations| && w.terminations[j].Returned?
    ensures var n := Run(shutdownTimeout, before + after).value;
            n.active == [] && j < |n.terminations| && n.terminations[j].Returned?
  {
    if after == [] {
      assert before + after == before;
    } else {
      var shorter := after[..|after| - 1];
      assert (before + after)[..|before + after| - 1] == before + shorter;
      DrainedForever(shutdownTimeout, before, shorter, j);
      RunKeepsInv(shutdownTimeout, before + shorter);
      StepCarries(Run(shutdownTimeout, before + shorter).value, after[|after| - 1]);
    }
    ReturnedMeansDrained(shutdownTimeout, before + after, j);
  }

  lemma ReturnedMeansDrained(shutdownTimeout: nat, events: seq<Event>, j: nat)
    requires Run(shutdownTimeout, events).Some?
    requires var w := Run(shutdownTimeout, events).value; j < |w.terminations| && w.terminations[j].Returned?
    ensures Run(shutdownTimeout, events).value.active == []
  {
    RunKeepsInv(shutdownTimeout, events);
    var w := Run(shutdownTimeout, events).value;
    assert TerminationOk(w, w.terminations[j]);
  }

  /** A cancellation that reached a call during its cleanup is what the call ends with, whatever follows. */
  lemma {:induction false} CancellationIsRaisedAgain(
      shutdownTimeout: nat, before: seq<Event>, after: seq<Event>, k: nat)
    requires Run(shutdownTimeout, before).Some? && Run(shutdownTimeout, before + after).Some?
    requires var w := Run(shutdownTimeout, before).value; k < |w.runs| && CancellationArrived(w.runs[k])
    ensures var n := Run(shutdownTimeout, before + after).value;
            k < |n.runs| && CancellationArrived(n.runs[k])
  {
    if after == [] {
      assert before + after == before;
    } else {
      var shorter := after[..|after| - 1];
      assert (before + after)[..|before + after| - 1] == before + shorter;
      CancellationIsRaisedAgain(shutdownTimeout, before, shorter, k);
      RunKeepsInv(shutdownTimeout, before + shorter);
      StepCarries(Run(shutdownTimeout, before + shorter).value, after[|after| - 1]);
    }
  }

  /** A process launched after shutdown has a deadline is cleaned up, reported as failed and never tracked. */
  lemma LateLaunchIsCleanedUp(shutdownTimeout: nat, events: seq<Event>, k: nat)
    requires Run(shutdownTimeout, events).Some? && k < |Run(shutdownTimeout, events).value.runs|
    ensures var w := Run(shutdownTimeout, events).value;
            && (w.runs[k].LateCleanup? ==> w.runs[k].process !in w.active)
            && (w.runs[k].Finished? && w.runs[k].late ==>
                  && w.runs[k].result in {LaunchFailed, Cancelled}
                  && w.runs[k].owner.Some? && w.runs[k].owner.value !in w.active
                  && Cleaned(w, w.runs[k].owner.value))
    ensures var w := Run(shutdownTimeout, events).value;
            forall p | Enabled(w, LaunchSucceeds(k, p)) && w.shutdownDeadline.Some? ::
              var n := Next(w, LaunchSucceeds(k, p));
              n.active == w.active && n.runs[k].LateCleanup? && n.runs[k].process == p
  {
    RunKeepsInv(shutdownTimeout, events);
    var w := Run(shutdownTimeout, events).value;
    assert RunOk(w, w.runs[k]);
    forall p | Enabled(w, LaunchSucceeds(k, p)) && w.shutdownDeadline.Some?
      ensures LaunchNext(w, k, p).active == w.active
              && LaunchNext(w, k, p).runs[k].LateCleanup? && LaunchNext(w, k, p).runs[k].process == p
    {
      LaunchLateOk(w, k, p);
    }
  }

  /** The launch event is set exactly when no launch is pending. */
  lemma LaunchEventIsExact(shutdownTimeout: nat, events: seq<Event>)
    requires Run(shutdownTimeout, events).Some?
    ensures var w := Run(shutdownTimeout, events).value;
            && (w.launchesFinished <==> w.launches == 0)
            && (w.launchesFinished <==> forall k | 0 <= k < |w.runs| :: !Pending(w.runs[k]))
  {
    RunKeepsInv(shutdownTimeout, events);
    var w := Run(shutdownTimeout, events).value;
    if exists k :: 0 <= k < |w.runs| && Pending(w.runs[k]) {
      var k :| 0 <= k < |w.runs| && Pending(w.runs[k]);
      assert k in PendingRuns(w.runs);
    } else {
      assert PendingRuns(w.runs) == {};
    }
  }

  /** Each process has at most one cleanup task and one SIGTERM phase, however many parties ask. */
  lemma OneCleanupForEachProcess(shutdownTimeout: nat, events: seq<Event>)
    requires Run(shutdownTimeout, events).Some?
    ensures var w := Run(shutdownTimeout, events).value;
            && (forall p :: w.terms[p] <= 1)
            && (forall s, t | 0 <= s < |w.tasks| && 0 <= t < |w.tasks| && w.tasks[s].process == w.tasks[t].process ::
                  s == t)
  {
    RunKeepsInv(shutdownTimeout, events);
    var w := Run(shutdownTimeout, events).value;
    forall p
      ensures w.terms[p] <= 1
    {
      if p in w.terms {
        assert w.tasks[w.started[p]].process == p;
      }
    }
  }

  /** A call of `run` that ends by timeout, cancellation or a late launch ends after its cleanup. */
  lemma RunOutlivesItsCleanup(shutdownTimeout: nat, events: seq<Event>, k: nat)
    requires Run(shutdownTimeout, events).Some? && k < |Run(shutdownTimeout, events).value.runs|
    ensures var w := Run(shutdownTimeout, events).value;
            w.runs[k].Finished? && w.runs[k].owner.Some? && w.runs[k].result in {LaunchFailed, Cancelled, TimedOut}
            ==> Cleaned(w, w.runs[k].owner.value)
  {
    RunKeepsInv(shutdownTimeout, events);
    assert RunOk(Run(shutdownTimeout, events).value, Run(shutdownTimeout, events).value.runs[k]);
  }

  /** A cleanup's deadline only shrinks, it stays its process's cleanup, and it ends once. */
  lemma {:induction false} DeadlinesOnlyShrink(shutdownTimeout: nat, before: seq<Event>, after: seq<Event>, t: nat)
    requires Run(shutdownTimeout, before).Some? && Run(shutdownTimeout, before + after).Some?
    requires t < |Run(shutdownTimeout, before).value.tasks|
    ensures var w := Run(shutdownTimeout, before).value;
            var n := Run(shutdownTimeout, before + after).value;
            && t < |n.tasks| && n.tasks[t].process == w.tasks[t].process
            && AtMost(n.tasks[t].deadline, w.tasks[t].deadline)
            && (w.tasks[t].phase.Done? ==> n.tasks[t].phase.Done?)
  {
    if after == [] {
      assert before + after == before;
    } else {
      var shorter := after[..|after| - 1];
      assert (before + after)[..|before + after| - 1] == before + shorter;
      DeadlinesOnlyShrink(shutdownTimeout, before, shorter, t);
      RunKeepsInv(shutdownTimeout, before + shorter);
      StepCarries(Run(shutdownTimeout, before + shorter).value, after[|after| - 1]);
    }
  }

  /** No deadline update is lost: a cleanup waits no longer than its deadline or has been told. */
  lemma NoUpdateIsLost(shutdownTimeout: nat, events: seq<Event>, t: nat)
    requires Run(shutdownTimeout, events).Some? && InTask(Run(shutdownTimeout, events).value, t)
    ensures var c := Run(shutdownTimeout, events).value.tasks[t];
            c.changed || AtMost(c.phase.armed, c.deadline)
  {
    RunKeepsInv(shutdownTimeout, events);
    assert WaitOk(Run(shutdownTimeout, events).value.tasks[t]);
  }

  // -- Under a timely event loop -------------------------------------------------

  /** Time may pass: no task is ready to run and no wait is due earlier. */
  predicate Idle(w: World, elapsed: nat) {
    forall t | 0 <= t < |w.tasks| ::
      && !w.tasks[t].phase.Queued?
      && (w.tasks[t].phase.Waiting? ==>
            && !w.tasks[t].changed
            && (w.tasks[t].phase.armed.Some? ==> w.now + elapsed <= w.tasks[t].phase.armed.value))
  }

  /** Along the run time passed only while the cleanups were idle. */
  predicate Timely(shutdownTimeout: nat, events: seq<Event>)
    requires Run(shutdownTimeout, events).Some?
  {
    events == [] ||
    (var prior := events[..|events| - 1];
     var e := events[|events| - 1];
     Timely(shutdownTimeout, prior) && (e.Tick? ==> Idle(Run(shutdownTimeout, prior).value, e.elapsed)))
  }

  /** No wait has slept past the instant it was armed with. */
  predicate Awake(w: World) {
    forall t | 0 <= t < |w.tasks| && w.tasks[t].phase.Waiting? && !w.tasks[t].changed ::
      w.tasks[t].phase.armed.Some? ==> w.now <= w.tasks[t].phase.armed.value
  }

  /** Hurrying: a wait whose flag stayed down was not touched. */
  lemma HurriedStaysAwake(w: World, tasks: seq<Cleanup>)
    requires Awake(w) && |w.tasks| <= |tasks|
    requires forall t | 0 <= t < |w.tasks| ::
               tasks[t].phase == w.tasks[t].phase && (w.tasks[t].changed ==> tasks[t].changed)
    requires forall t | |w.tasks| <= t < |tasks| :: tasks[t].phase == Queued
    ensures Awake(w.(tasks := tasks))
  {
  }

  lemma AdvancedStaysAwake(w: World, t: nat, c: Cleanup)
    requires Awake(w) && t < |w.tasks|
    requires c.phase.Waiting? && c.phase.armed.Some? ==> w.now <= c.phase.armed.value
    ensures Awake(w.(tasks := w.tasks[t := c]))
  {
  }

  lemma BeginStaysAwake(w: World, t: nat)
    requires Awake(w) && t < |w.tasks|
    ensures Awake(BeginCleanup(w, t))
  {
    TurnOk(w.tasks[t], Some(w.now + GRACE), w.now);
    AdvancedStaysAwake(w, t, Turn(w.tasks[t], Some(w.now + GRACE), w.now));
  }

  lemma WakeStaysAwake(w: World, t: nat, over: bool)
    requires Awake(w) && InTask(w, t)
    ensures Awake(WakeCleanup(w, t, over))
  {
    var c := w.tasks[t];
    TurnOk(c, c.phase.grace, w.now);
    TurnOk(c, None, w.now);
    AdvancedStaysAwake(w, t, if over then PhaseOver(c, c.phase.grace, w.now) else Turn(c, c.phase.grace, w.now));
  }

  lemma CleanStaysAwake(w: World, k: nat, timedOut: bool)
    requires Inv(w) && Awake(w) && k < |w.runs| && w.runs[k].Running?
    ensures Awake(CleanNext(w, k, timedOut))
  {
    CleanHurries(w, k, timedOut);
    HurriedStaysAwake(w, CleanNext(w, k, timedOut).tasks);
  }

  lemma LaunchStaysAwake(w: World, k: nat, p: Process)
    requires Inv(w) && Awake(w) && Enabled(w, LaunchSucceeds(k, p))
    ensures Awake(LaunchNext(w, k, p))
  {
    if w.shutdownDeadline.Some? {
      LateHurries(w, k, p);
      HurriedStaysAwake(w, LaunchNext(w, k, p).tasks);
    }
  }

  lemma GatherStaysAwake(w: World, j: nat)
    requires Inv(w) && Awake(w)
    requires j < |w.terminations| && (w.terminations[j].Starting? || w.terminations[j].AwaitingLaunches?)
    ensures Awake(GatherNext(w, j))
  {
    GatherHurries(w, j);
    HurriedStaysAwake(w, GatherNext(w, j).tasks);
  }

  lemma TerminateStaysAwake(w: World, deadline: Option<int>)
    requires Inv(w) && Awake(w)
    ensures Awake(TerminateNext(w, deadline))
  {
    var n := TerminateNext(w, deadline);
    AdoptAllOk(w.(shutdownDeadline := n.shutdownDeadline), w.cleanups.Keys, n.shutdownDeadline);
    HurriedStaysAwake(w, n.tasks);
  }

  /** The events that leave every task alone. */
  lemma TasksUntouchedStayAwake(w: World, e: Event)
    requires Awake(w) && Enabled(w, e) && (e.Tick? ==> Idle(w, e.elapsed))
    requires e.Call? || e.LaunchFails? || e.Exit? || e.RunSeesExit? || e.RunResumes? || e.TerminationResumes?
             || e.CancelTermination? || e.Tick? || (e.CancelRun? && !w.runs[e.run].Running?)
    ensures Awake(Next(w, e))
  {
  }

  lemma StepStaysAwake(w: World, e: Event)
    requires Inv(w) && Awake(w) && Enabled(w, e) && (e.Tick? ==> Idle(w, e.elapsed))
    ensures Awake(Next(w, e))
  {
    match e
    case CleanupStarts(t) => BeginStaysAwake(w, t);
    case CleanupSeesUpdate(t) => WakeStaysAwake(w, t, false);
    case CleanupSeesExit(t) => WakeStaysAwake(w, t, true);
    case CleanupTimesOut(t) => WakeStaysAwake(w, t, true);
    case RunTimesOut(k) => CleanStaysAwake(w, k, true);
    case CancelRun(k) => if w.runs[k].Running? { CleanStaysAwake(w, k, false); } else { TasksUntouchedStayAwake(w, e); }
    case LaunchSucceeds(k, p) => LaunchStaysAwake(w, k, p);
    case LaunchesSettle(j) => GatherStaysAwake(w, j);
    case TerminationStarts(j) => if !Next(w, e).terminations[j].AwaitingLaunches? { GatherStaysAwake(w, j); }
    case Terminate(deadline) => TerminateStaysAwake(w, deadline);
    case _ => TasksUntouchedStayAwake(w, e);
  }

  lemma {:induction false} TimelyIsAwake(shutdownTimeout: nat, events: seq<Event>)
    requires Run(shutdownTimeout, events).Some? && Timely(shutdownTimeout, events)
    ensures Awake(Run(shutdownTimeout, events).value)
  {
    if events != [] {
      var prior, e := events[..|events| - 1], events[|events| - 1];
      TimelyIsAwake(shutdownTimeout, prior);
      RunKeepsInv(shutdownTimeout, prior);
      StepStaysAwake(Run(shutdownTimeout, prior).value, e);
    }
  }

  /** A cleanup with a deadline stops waiting by that deadline, or it is about to be woken. */
  lemma CleanupStopsByItsDeadline(shutdownTimeout: nat, events: seq<Event>, t: nat)
    requires Run(shutdownTimeout, events).Some? && Timely(shutdownTimeout, events)
    requires InTask(Run(shutdownTimeout, events).value, t)
    ensures var w := Run(shutdownTimeout, events).value;
            w.tasks[t].deadline.Some? ==> w.now <= w.tasks[t].deadline.value || w.tasks[t].changed
  {
    TimelyIsAwake(shutdownTimeout, events);
    NoUpdateIsLost(shutdownTimeout, events, t);
  }

  /** So every cleanup a shutdown gathers stops waiting by the deadline the shutdown passed on. */
  lemma GatheredCleanupsStopInTime(shutdownTimeout: nat, events: seq<Event>, j: nat, t: nat)
    requires Run(shutdownTimeout, events).Some? && Timely(shutdownTimeout, events)
    requires var w := Run(shutdownTimeout, events).value;
             j < |w.terminations| && w.terminations[j].Gathering? && t in w.terminations[j].tasks && InTask(w, t)
    ensures var w := Run(shutdownTimeout, events).value;
            w.now <= w.terminations[j].until || w.tasks[t].changed
  {
    CleanupStopsByItsDeadline(shutdownTimeout, events, t);
    RunKeepsInv(shutdownTimeout, events);
    assert TerminationOk(Run(shutdownTimeout, events).value, Run(shutdownTimeout, events).value.terminations[j]);
  }
}
