/**
 Every interleaving of the manager's loop with hotplug callbacks, reader ends and queued inputs.
 A reconcile that has to wait for obsolete readers is two events, and anything may run in between.
 */
module ManagerProtocol {
  import opened Common
  import opened Discovery
  import opened Manager

  /** Where `run` stands; `held` is the quarantine the reconcile in flight began with. */
  datatype Phase = Idle | Awaiting(desired: seq<Resolution>, held: set<Pair>) | Closing | Ended

  datatype World = World(
    m: Readers,
    phase: Phase,
    seen: set<string>,              // every node ever enumerated
    snapshot: seq<Resolution>,      // what the last reconcile resolved
    healthy: bool,                  // it could enumerate, and make every source it needed
    over: set<nat>,                 // readers whose end has been handled
    submissions: seq<Handle>,
    ends: multiset<Pair>,           // unexpected reader ends since the last hotplug
    reconciles: nat)                // reconciles begun since the last hotplug

  datatype Event =
    | Begin
    | Hotplug
    | ReaderEnds(id: nat)
    | Input(id: nat)
    | Wake(candidates: Option<seq<Candidate>>, failing: set<nat>)
    | Resume(failing: set<nat>)
    | Stop
    | CloseReaders

  function Init(config: Config): World {
    World(Fresh(config), Ended, {}, [], false, {}, [], multiset{}, 0)
  }

  predicate Enabled(w: World, e: Event) {
    match e
    case Begin => w.phase.Ended?
    case Hotplug => true
    case ReaderEnds(id) => id < |w.m.started| && id !in w.over
    case Input(id) => id < |w.m.started|
    case Wake(_, _) => w.phase.Idle? && w.m.requested
    case Resume(_) => w.phase.Awaiting?
    case Stop => w.phase.Idle? || w.phase.Awaiting?
    case CloseReaders => w.phase.Closing?
  }

  function Nodes(candidates: seq<Candidate>): set<string> {
    set i | 0 <= i < |candidates| :: candidates[i].node
  }

  function StartNext(w: World, desired: seq<Resolution>, failing: set<nat>): World {
    w.(m := StartMissing(w.m, desired, failing),
       phase := Idle,
       healthy := Healthy(w.m, desired, |desired|, failing))
  }

  /** The reconcile up to its wait: the snapshot, the desired readers and the obsolete ones gone. */
  function SweepNext(w: World, candidates: seq<Candidate>): World {
    var resolutions := ResolveProfiles(w.m.config.codes, w.m.config.profiles, candidates);
    var desired := Desired(w.m.config.strategy, resolutions, w.m.quarantined);
    w.(m := Swept(w.m.(requested := false), desired),
       phase := Awaiting(desired, w.m.quarantined),
       snapshot := resolutions,
       seen := w.seen + Nodes(candidates),
       reconciles := w.reconciles + 1)
  }

  function WakeNext(w: World, candidates: Option<seq<Candidate>>, failing: set<nat>): World {
    if candidates == None then
      w.(m := w.m.(requested := false), healthy := false, reconciles := w.reconciles + 1)
    else
      var swept := SweepNext(w, candidates.value);
      if swept.m.active.Keys == w.m.active.Keys then StartNext(swept, swept.phase.desired, failing) else swept
  }

  function EndNext(w: World, id: nat): World
    requires id < |w.m.started|
  {
    var h := w.m.started[id];
    w.(m := Finished(w.m, h),
       over := w.over + {id},
       ends := if w.m.running && h.id !in w.m.stopped then w.ends + multiset{h.Key()} else w.ends)
  }

  function Next(w: World, e: Event): World
    requires Enabled(w, e)
  {
    match e
    case Begin => w.(m := Manager.Begin(w.m), phase := Idle, healthy := false, ends := multiset{}, reconciles := 0)
    case Hotplug => w.(m := Hotplugged(w.m), ends := multiset{}, reconciles := 0)
    case ReaderEnds(id) => EndNext(w, id)
    case Input(id) =>
      if Submits(w.m, w.m.started[id]) then w.(submissions := w.submissions + [w.m.started[id]]) else w
    case Wake(candidates, failing) => WakeNext(w, candidates, failing)
    case Resume(failing) => StartNext(w, w.phase.desired, failing)
    case Stop => w.(m := w.m.(running := false), phase := Closing)
    case CloseReaders => w.(m := StoppedAll(w.m), phase := Ended)
  }

  function Run(config: Config, events: seq<Event>): Option<World> {
    if events == [] then Some(Init(config))
    else
      var before := Run(config, events[..|events| - 1]);
      if before.Some? && Enabled(before.value, events[|events| - 1])
      then Some(Next(before.value, events[|events| - 1]))
      else None
  }

  // ---------------------------------------------------------------------------
  // The invariant.
  // ---------------------------------------------------------------------------

  predicate Registered(m: Readers, h: Handle) {
    h.node in m.active && m.active[h.node] == h
  }

  /** Each key is its handle's node; a handle is in the table until it ends or is told to stop. */
  ghost predicate TableOk(m: Readers, over: set<nat>) {
    && (forall i | 0 <= i < |m.started| :: m.started[i].id == i)
    && (forall n <- m.active ::
          && m.active[n].node == n && m.active[n].id < |m.started| && m.started[m.active[n].id] == m.active[n]
          && m.active[n].id !in m.stopped && m.active[n].id !in over)
    && (forall i | 0 <= i < |m.started| :: i in m.stopped || i in over || Registered(m, m.started[i]))
    && (forall i <- m.stopped :: i < |m.started|)
    && (forall i <- over :: i < |m.started|)
  }

  ghost predicate NamesOk(m: Readers) {
    forall n, o | n in m.active && o in m.active && m.active[n].profile.name == m.active[o].profile.name :: n == o
  }

  ghost predicate OneOk(m: Readers) {
    m.config.strategy == Priority ==> forall n, o | n in m.active && o in m.active :: n == o
  }

  ghost predicate PhaseOk(w: World) {
    && (w.m.running <==> w.phase.Idle? || w.phase.Awaiting?)
    && (w.phase.Ended? ==> w.m.active == map[])
  }

  ghost predicate AllKept(m: Readers, desired: seq<Resolution>) {
    forall n <- m.active :: Keeps(desired, m.active[n].profile.name, n)
  }

  /** What a desired list is: available, held back from nothing, and one at most under priority. */
  ghost predicate DesiredOk(config: Config, desired: seq<Resolution>, held: set<Pair>, seen: set<string>) {
    && (forall i | 0 <= i < |desired| ::
          && desired[i].IsAvailable() && Pair(desired[i].profile, desired[i].node.value) !in held
          && desired[i].profile in config.profiles && desired[i].node.value in seen)
    && (config.strategy == Priority ==> |desired| <= 1)
  }

  ghost predicate AwaitOk(w: World) {
    w.phase.Awaiting? ==>
      AllKept(w.m, w.phase.desired) && DesiredOk(w.m.config, w.phase.desired, w.phase.held, w.seen)
  }

  /** Every reader was configured, on a node that was enumerated. */
  ghost predicate OriginOk(w: World) {
    forall i | 0 <= i < |w.m.started| :: w.m.started[i].profile in w.m.config.profiles && w.m.started[i].node in w.seen
  }

  ghost predicate Inv(w: World) {
    && TableOk(w.m, w.over) && NamesOk(w.m) && OneOk(w.m)
    && PhaseOk(w) && AwaitOk(w) && OriginOk(w)
  }

  // -- Sweeping --------------------------------------------------------------------

  lemma SweptOk(m: Readers, desired: seq<Resolution>, over: set<nat>)
    requires TableOk(m, over) && NamesOk(m) && OneOk(m)
    ensures TableOk(Swept(m, desired), over) && NamesOk(Swept(m, desired)) && OneOk(Swept(m, desired))
    ensures AllKept(Swept(m, desired), desired)
  {
    var s := Swept(m, desired);
    forall i | 0 <= i < |m.started| ensures i in s.stopped || i in over || Registered(s, m.started[i]) {
      var h := m.started[i];
      if i !in m.stopped && i !in over && !Keeps(desired, h.profile.name, h.node) {
        assert m.active[h.node].id == i;
      }
    }
  }

  /** A name found among the desired is one of them. */
  lemma {:induction false} ByNameIsListed(desired: seq<Resolution>, name: string)
    ensures var r := ByName(desired, name);
            r.Some? ==> r.value in desired && r.value.profile.name == name
    ensures ByName(desired, name) == None ==> forall i | 0 <= i < |desired| :: desired[i].profile.name != name
  {
    if desired != [] {
      ByNameIsListed(desired[..|desired| - 1], name);
    }
  }

  // -- The desired list --------------------------------------------------------------

  lemma {:induction false} AllWantedAreListed(rs: seq<Resolution>, quarantined: set<Pair>)
    ensures forall r :: r in AllWanted(rs, quarantined) <==> r in rs && Wanted(r, quarantined)
  {
    if rs != [] {
      AllWantedAreListed(rs[1..], quarantined);
      forall r | r in rs ensures r == rs[0] || r in rs[1..] {
      }
    }
  }

  lemma PotentialMatchesAreCandidates(codes: EventCodes, p: Profile, candidates: seq<Candidate>)
    ensures forall c <- PotentialMatches(codes, p, candidates) :: c.node in Nodes(candidates)
  {
    if candidates != [] {
      PotentialMatchesAreCandidates(codes, p, candidates[1..]);
      forall c | c in PotentialMatches(codes, p, candidates[1..]) ensures c.node in Nodes(candidates) {
        var i :| 0 <= i < |candidates[1..]| && candidates[1..][i].node == c.node;
        assert candidates[i + 1].node == c.node;
      }
      assert candidates[0].node in Nodes(candidates);
    }
  }

  lemma ResolvedNodesAreCandidates(config: Config, candidates: seq<Candidate>, i: nat)
    requires i < |config.profiles|
    ensures var r := ResolveProfiles(config.codes, config.profiles, candidates)[i];
            r.node.Some? ==> r.node.value in Nodes(candidates)
  {
    PotentialMatchesAreCandidates(config.codes, config.profiles[i], candidates);
  }

  lemma DesiredIsOk(config: Config, candidates: seq<Candidate>, held: set<Pair>, seen: set<string>)
    ensures var rs := ResolveProfiles(config.codes, config.profiles, candidates);
            DesiredOk(config, Desired(config.strategy, rs, held), held, seen + Nodes(candidates))
  {
    var rs := ResolveProfiles(config.codes, config.profiles, candidates);
    var desired := Desired(config.strategy, rs, held);
    AllWantedAreListed(rs, held);
    forall i | 0 <= i < |desired|
      ensures && desired[i].IsAvailable() && Pair(desired[i].profile, desired[i].node.value) !in held
              && desired[i].profile in config.profiles && desired[i].node.value in seen + Nodes(candidates)
    {
      assert desired[i] in AllWanted(rs, held);
      var k :| 0 <= k < |rs| && rs[k] == desired[i];
      ResolvedNodesAreCandidates(config, candidates, k);
    }
  }

  // -- Starting ----------------------------------------------------------------------

  lemma StartOneOk(m: Readers, r: Resolution, fails: bool, over: set<nat>)
    requires TableOk(m, over) && NamesOk(m)
    ensures TableOk(StartOne(m, r, fails), over) && NamesOk(StartOne(m, r, fails))
  {
    if Startable(m, r) && !fails {
      var s := StartOne(m, r, fails);
      var node := r.node.value;
      forall n | n in m.active ensures m.active[n].profile.name != r.profile.name {
        assert m.active[n].profile.name in Names(m.active);
      }
      forall i | 0 <= i < |s.started| ensures i in s.stopped || i in over || Registered(s, s.started[i]) {
        if i < |m.started| {
          assert s.started[i] == m.started[i];
        }
      }
    }
  }

  lemma {:induction false} StartFirstOk(m: Readers, desired: seq<Resolution>, n: nat, failing: set<nat>, over: set<nat>)
    requires n <= |desired| && TableOk(m, over) && NamesOk(m)
    ensures TableOk(StartFirst(m, desired, n, failing), over) && NamesOk(StartFirst(m, desired, n, failing))
  {
    if n > 0 {
      StartFirstOk(m, desired, n - 1, failing, over);
      StartOneOk(StartFirst(m, desired, n - 1, failing), desired[n - 1], n - 1 in failing, over);
    }
  }

  /** What a list of resolutions asks for. */
  function DesiredPairs(desired: seq<Resolution>): set<Pair> {
    set r | r in desired && r.node.Some? :: Pair(r.profile, r.node.value)
  }

  /** Starting adds handles for desired resolutions and touches nothing else. */
  ghost predicate Grown(m: Readers, s: Readers, desired: seq<Resolution>) {
    && s == m.(active := s.active, started := s.started)
    && m.started <= s.started
    && (forall i | |m.started| <= i < |s.started| :: s.started[i].Key() in DesiredPairs(desired))
    && (forall o <- m.active :: o in s.active && s.active[o] == m.active[o])
    && (forall o <- s.active :: o in m.active || s.active[o].id >= |m.started|)
  }

  lemma {:induction false} StartFirstGrows(m: Readers, desired: seq<Resolution>, n: nat, failing: set<nat>)
    requires n <= |desired|
    ensures Grown(m, StartFirst(m, desired, n, failing), desired)
  {
    if n > 0 {
      StartFirstGrows(m, desired, n - 1, failing);
      assert desired[n - 1] in desired;
    }
  }

  lemma StartMissingKeepsOne(m: Readers, desired: seq<Resolution>, failing: set<nat>)
    requires OneOk(m) && (m.config.strategy == Priority ==> |desired| <= 1)
    requires AllKept(m, desired)
    ensures OneOk(StartMissing(m, desired, failing))
  {
    StartFirstGrows(m, desired, |desired|, failing);
    assert StartFirst(m, desired, 0, failing) == m;
    if m.config.strategy == Priority && |desired| == 1 {
      assert StartMissing(m, desired, failing) == StartOne(m, desired[0], 0 in failing);
      forall n | n in m.active ensures desired[0].node == Some(n) {
        ByNameIsListed(desired, m.active[n].profile.name);
      }
    }
  }

  lemma StartNextOk(w: World, desired: seq<Resolution>, failing: set<nat>, held: set<Pair>)
    requires Inv(w) && w.m.running && DesiredOk(w.m.config, desired, held, w.seen)
    requires AllKept(w.m, desired)
    ensures Inv(StartNext(w, desired, failing))
  {
    StartFirstOk(w.m, desired, |desired|, failing, w.over);
    StartFirstGrows(w.m, desired, |desired|, failing);
    StartMissingKeepsOne(w.m, desired, failing);
  }

  // -- Steps -------------------------------------------------------------------------

  lemma SweepNextOk(w: World, candidates: seq<Candidate>)
    requires Inv(w) && w.phase.Idle?
    ensures Inv(SweepNext(w, candidates))
  {
    SweptOk(w.m.(requested := false), SweepNext(w, candidates).phase.desired, w.over);
    DesiredIsOk(w.m.config, candidates, w.m.quarantined, w.seen);
  }

  lemma WakeNextOk(w: World, candidates: Option<seq<Candidate>>, failing: set<nat>)
    requires Inv(w) && w.phase.Idle?
    ensures Inv(WakeNext(w, candidates, failing))
  {
    if candidates.Some? {
      var s := SweepNext(w, candidates.value);
      SweepNextOk(w, candidates.value);
      StartNextOk(s, s.phase.desired, failing, s.phase.held);
    }
  }

  lemma FinishedOk(m: Readers, over: set<nat>, id: nat)
    requires TableOk(m, over) && id < |m.started|
    ensures TableOk(Finished(m, m.started[id]), over + {id})
  {
    var h := m.started[id];
    var v := Finished(m, h);
    forall i | 0 <= i < |v.started| ensures i in v.stopped || i in over + {id} || Registered(v, v.started[i]) {
      assert m.started[i].id == i;
    }
  }

  lemma FinishedShrinks(m: Readers, h: Handle)
    requires NamesOk(m) && OneOk(m)
    ensures var v := Finished(m, h);
            && NamesOk(v) && OneOk(v)
            && v == m.(active := v.active, quarantined := v.quarantined, requested := v.requested)
            && forall n <- v.active :: n in m.active && v.active[n] == m.active[n]
  {
  }

  lemma EndNextOk(w: World, id: nat)
    requires Inv(w) && Enabled(w, ReaderEnds(id))
    ensures Inv(EndNext(w, id))
  {
    FinishedOk(w.m, w.over, id);
    FinishedShrinks(w.m, w.m.started[id]);
  }

  lemma CloseOk(w: World)
    requires Inv(w) && w.phase.Closing?
    ensures Inv(Next(w, CloseReaders))
  {
    var v := Next(w, CloseReaders);
    forall i | 0 <= i < |v.m.started| ensures i in v.m.stopped || i in v.over || Registered(v.m, v.m.started[i]) {
      var h := w.m.started[i];
      assert Registered(w.m, h) ==> w.m.active[h.node].id in v.m.stopped;
    }
  }

  lemma StepKeepsInv(w: World, e: Event)
    requires Inv(w) && Enabled(w, e)
    ensures Inv(Next(w, e))
  {
    match e
    case Wake(candidates, failing) => WakeNextOk(w, candidates, failing);
    case Resume(failing) => StartNextOk(w, w.phase.desired, failing, w.phase.held);
    case ReaderEnds(id) => EndNextOk(w, id);
    case CloseReaders => CloseOk(w);
    case _ =>
  }

  lemma {:induction false} RunKeepsInv(config: Config, events: seq<Event>)
    ensures var r := Run(config, events);
            r.Some? ==> Inv(r.value) && r.value.m.config == config
  {
    if events != [] {
      RunKeepsInv(config, events[..|events| - 1]);
      var before := Run(config, events[..|events| - 1]);
      if before.Some? && Enabled(before.value, events[|events| - 1]) {
        StepKeepsInv(before.value, events[|events| - 1]);
        ConfigStays(before.value, events[|events| - 1]);
      }
    }
  }

  lemma ConfigStays(w: World, e: Event)
    requires Inv(w) && Enabled(w, e)
    ensures Next(w, e).m.config == w.m.config
  {
    if e.Wake? && e.candidates.Some? {
      var s := SweepNext(w, e.candidates.value);
      StartFirstGrows(s.m, s.phase.desired, |s.phase.desired|, e.failing);
    } else if e.Resume? {
      StartFirstGrows(w.m, w.phase.desired, |w.phase.desired|, e.failing);
    }
  }

  // -- Generations ---------------------------------------------------------------------

  /** What the table of readers looks like at every point of every run. */
  lemma ActiveReadersAtEveryPoint(config: Config, events: seq<Event>)
    requires Run(config, events).Some?
    ensures var m := Run(config, events).value.m;
            && (forall n <- m.active :: m.active[n].node == n && m.active[n].id !in m.stopped)
            && (forall n, o | n in m.active && o in m.active && n != o ::
                  m.active[n].profile.name != m.active[o].profile.name)
            && (config.strategy == Priority ==> forall n, o | n in m.active && o in m.active :: n == o)
  {
    RunKeepsInv(config, events);
  }

  /** An input is submitted exactly when its reader is the one registered at that moment. */
  lemma SubmissionsAreRegistered(w: World, e: Event)
    requires Inv(w) && Enabled(w, e)
    ensures Next(w, e).submissions
            == if e.Input? && Registered(w.m, w.m.started[e.id]) then w.submissions + [w.m.started[e.id]]
               else w.submissions
  {
  }

  predicate Left(w: World, h: Handle) {
    h.id < |w.m.started| && w.m.started[h.id] == h && !Registered(w.m, h)
  }

  lemma StepStaysLeft(w: World, e: Event, h: Handle)
    requires Inv(w) && Enabled(w, e) && Left(w, h)
    ensures Left(Next(w, e), h)
    ensures multiset(Next(w, e).submissions)[h] == multiset(w.submissions)[h]
  {
    SubmissionsAreRegistered(w, e);
    if e.Wake? || e.Resume? {
      StartsStayLeft(w, e, h);
    }
  }

  lemma StartsStayLeft(w: World, e: Event, h: Handle)
    requires Inv(w) && Enabled(w, e) && Left(w, h) && (e.Wake? || e.Resume?)
    ensures Left(Next(w, e), h)
  {
    if e.Resume? {
      StartFirstGrows(w.m, w.phase.desired, |w.phase.desired|, e.failing);
    } else if e.candidates.Some? {
      var s := SweepNext(w, e.candidates.value);
      StartFirstGrows(s.m, s.phase.desired, |s.phase.desired|, e.failing);
    }
  }

  /** A reader that has left the table never submits again, whatever was still queued. */
  lemma {:induction false} LeftNeverSubmits(config: Config, events: seq<Event>, later: seq<Event>, h: Handle)
    requires Run(config, events).Some? && Left(Run(config, events).value, h)
    requires Run(config, events + later).Some?
    ensures Left(Run(config, events + later).value, h)
    ensures multiset(Run(config, events + later).value.submissions)[h]
            == multiset(Run(config, events).value.submissions)[h]
  {
    if later == [] {
      assert events + later == events;
    } else {
      var shorter := later[..|later| - 1];
      assert (events + later)[..|events + later| - 1] == events + shorter;
      LeftNeverSubmits(config, events, shorter, h);
      RunKeepsInv(config, events + shorter);
      StepStaysLeft(Run(config, events + shorter).value, later[|later| - 1], h);
    }
  }
}
