/** Where the manager's loop comes to rest, and that it does. Profile names are distinct: they are table keys. */
module ManagerConvergence {
  import opened Common
  import opened Discovery
  import opened Manager
  import opened ManagerProtocol

  predicate DistinctNames(profiles: seq<Profile>) {
    forall i, j | 0 <= i < j < |profiles| :: profiles[i].name != profiles[j].name
  }

  /** No two resolutions share a profile name or a node. */
  predicate Distinct(rs: seq<Resolution>) {
    forall i, j | 0 <= i < j < |rs| ::
      rs[i].profile.name != rs[j].profile.name && (rs[i].node.Some? ==> rs[i].node != rs[j].node)
  }

  function ActivePairs(m: Readers): set<Pair> {
    set n | n in m.active :: m.active[n].Key()
  }

  /** The readers are exactly those the last snapshot asks for. */
  predicate Converged(w: World) {
    ActivePairs(w.m) == DesiredPairs(Desired(w.m.config.strategy, w.snapshot, w.m.quarantined))
  }

  /** The reconcile in flight: its readers are desired and sound, and its list is current unless another is due. */
  ghost predicate FlightOk(w: World) {
    w.phase.Awaiting? ==>
      && Distinct(w.phase.desired)
      && (forall n <- w.m.active :: w.m.active[n].Key() in DesiredPairs(w.phase.desired))
      && (forall n <- w.m.active :: w.m.active[n].Key() !in w.m.quarantined)
      && (!w.m.requested ==> w.phase.desired == Desired(w.m.config.strategy, w.snapshot, w.m.quarantined))
  }

  ghost predicate RestOk(w: World) {
    w.phase.Idle? && !w.m.requested && w.healthy ==> Converged(w)
  }

  // -- Distinctness ------------------------------------------------------------------

  lemma {:induction false} AllWantedStaysDistinct(rs: seq<Resolution>, quarantined: set<Pair>)
    requires Distinct(rs)
    ensures Distinct(AllWanted(rs, quarantined))
  {
    if rs != [] {
      AllWantedStaysDistinct(rs[1..], quarantined);
      AllWantedAreListed(rs[1..], quarantined);
      var rest := AllWanted(rs[1..], quarantined);
      forall k | 0 <= k < |rest|
        ensures rs[0].profile.name != rest[k].profile.name && (rs[0].node.Some? ==> rs[0].node != rest[k].node)
      {
        assert rest[k] in rest;
        var j :| 0 <= j < |rs[1..]| && rs[1..][j] == rest[k];
        assert rs[j + 1] == rest[k];
      }
    }
  }

  lemma DesiredIsDistinct(config: Config, candidates: seq<Candidate>, held: set<Pair>)
    requires DistinctNames(config.profiles)
    ensures Distinct(Desired(config.strategy, ResolveProfiles(config.codes, config.profiles, candidates), held))
  {
    var rs := ResolveProfiles(config.codes, config.profiles, candidates);
    forall i, j | 0 <= i < j < |rs|
      ensures rs[i].profile.name != rs[j].profile.name && (rs[i].node.Some? ==> rs[i].node != rs[j].node)
    {
      NodesAreDistinct(config.codes, config.profiles, candidates, i, j);
    }
    AllWantedStaysDistinct(rs, held);
  }

  lemma KeptIsDesired(config: Config, desired: seq<Resolution>, held: set<Pair>, seen: set<string>, h: Handle)
    requires DistinctNames(config.profiles) && DesiredOk(config, desired, held, seen)
    requires h.profile in config.profiles && Keeps(desired, h.profile.name, h.node)
    ensures h.Key() in DesiredPairs(desired) && h.Key() !in held
  {
    ByNameIsListed(desired, h.profile.name);
    var r := ByName(desired, h.profile.name).value;
    var k :| 0 <= k < |desired| && desired[k] == r;
    assert r.profile in config.profiles;
    assert r.profile == h.profile;
  }

  // -- Convergence -------------------------------------------------------------------

  /** Once the first `n` desired have been looked at without a failure, each of them has its reader. */
  lemma {:induction false} StartFirstCovers(m: Readers, desired: seq<Resolution>, n: nat, failing: set<nat>)
    requires n <= |desired| && Distinct(desired) && Healthy(m, desired, n, failing)
    requires forall i | 0 <= i < |desired| :: desired[i].node.Some?
    requires OnlyDesired(m, desired)
    ensures OnlyDesired(StartFirst(m, desired, n, failing), desired)
    ensures Covers(StartFirst(m, desired, n, failing), desired, n)
  {
    if n > 0 {
      StartFirstCovers(m, desired, n - 1, failing);
      StartOneCovers(StartFirst(m, desired, n - 1, failing), desired, n - 1, n - 1 in failing);
    }
  }

  predicate OnlyDesired(m: Readers, desired: seq<Resolution>) {
    forall o <- m.active :: m.active[o].node == o && m.active[o].Key() in DesiredPairs(desired)
  }

  predicate Covers(m: Readers, desired: seq<Resolution>, n: nat)
    requires n <= |desired| && forall i | 0 <= i < |desired| :: desired[i].node.Some?
  {
    forall k | 0 <= k < n ::
      && desired[k].node.value in m.active
      && m.active[desired[k].node.value].Key() == Pair(desired[k].profile, desired[k].node.value)
  }

  lemma StartOneCovers(m: Readers, desired: seq<Resolution>, n: nat, fails: bool)
    requires n < |desired| && Distinct(desired) && (fails ==> !Startable(m, desired[n]))
    requires forall i | 0 <= i < |desired| :: desired[i].node.Some?
    requires OnlyDesired(m, desired) && Covers(m, desired, n)
    ensures OnlyDesired(StartOne(m, desired[n], fails), desired)
    ensures Covers(StartOne(m, desired[n], fails), desired, n + 1)
  {
    var r := desired[n];
    assert r in desired;
    if !Startable(m, r) {
      var o :| o in m.active && (o == r.node.value || m.active[o].profile.name == r.profile.name);
      var q :| q in desired && q.node.Some? && m.active[o].Key() == Pair(q.profile, q.node.value);
      var k :| 0 <= k < |desired| && desired[k] == q;
      assert k == n;
    }
  }

  lemma StartedIsConverged(m: Readers, desired: seq<Resolution>, failing: set<nat>)
    requires Distinct(desired) && Healthy(m, desired, |desired|, failing)
    requires forall i | 0 <= i < |desired| :: desired[i].node.Some?
    requires OnlyDesired(m, desired)
    ensures ActivePairs(StartMissing(m, desired, failing)) == DesiredPairs(desired)
  {
    StartFirstCovers(m, desired, |desired|, failing);
    var s := StartMissing(m, desired, failing);
    forall p | p in DesiredPairs(desired) ensures p in ActivePairs(s) {
      var r :| r in desired && r.node.Some? && p == Pair(r.profile, r.node.value);
      var k :| 0 <= k < |desired| && desired[k] == r;
      assert s.active[desired[k].node.value].Key() == p;
    }
  }

  // -- Steps -------------------------------------------------------------------------

  /** The loop's invariant beside the table's. */
  ghost predicate Flow(w: World) {
    FlightOk(w) && RestOk(w)
  }

  lemma StartNextFlows(w: World, desired: seq<Resolution>, failing: set<nat>, held: set<Pair>)
    requires Inv(w) && w.m.running && DesiredOk(w.m.config, desired, held, w.seen) && Distinct(desired)
    requires forall n <- w.m.active :: w.m.active[n].Key() in DesiredPairs(desired)
    requires !w.m.requested ==> desired == Desired(w.m.config.strategy, w.snapshot, w.m.quarantined)
    ensures Flow(StartNext(w, desired, failing))
  {
    StartFirstGrows(w.m, desired, |desired|, failing);
    if Healthy(w.m, desired, |desired|, failing) {
      StartedIsConverged(w.m, desired, failing);
    }
  }

  lemma SweepNextFlows(w: World, candidates: seq<Candidate>)
    requires Inv(w) && w.phase.Idle? && DistinctNames(w.m.config.profiles)
    ensures Inv(SweepNext(w, candidates)) && FlightOk(SweepNext(w, candidates))
  {
    var s := SweepNext(w, candidates);
    SweepNextOk(w, candidates);
    DesiredIsDistinct(w.m.config, candidates, w.m.quarantined);
    forall n | n in s.m.active
      ensures s.m.active[n].Key() in DesiredPairs(s.phase.desired) && s.m.active[n].Key() !in s.m.quarantined
    {
      assert s.m.started[s.m.active[n].id] == s.m.active[n];
      KeptIsDesired(w.m.config, s.phase.desired, s.phase.held, s.seen, s.m.active[n]);
    }
  }

  lemma WakeNextFlows(w: World, candidates: Option<seq<Candidate>>, failing: set<nat>)
    requires Inv(w) && w.phase.Idle? && DistinctNames(w.m.config.profiles)
    ensures Flow(WakeNext(w, candidates, failing))
  {
    if candidates.Some? {
      var s := SweepNext(w, candidates.value);
      SweepNextFlows(w, candidates.value);
      StartNextFlows(s, s.phase.desired, failing, s.phase.held);
    }
  }

  lemma EndNextFlows(w: World, id: nat)
    requires Inv(w) && Flow(w) && Enabled(w, ReaderEnds(id))
    ensures Flow(EndNext(w, id))
  {
    FinishedShrinks(w.m, w.m.started[id]);
  }

  lemma StepFlows(w: World, e: Event)
    requires Inv(w) && Flow(w) && Enabled(w, e) && DistinctNames(w.m.config.profiles)
    ensures Flow(Next(w, e))
  {
    match e
    case Wake(candidates, failing) => WakeNextFlows(w, candidates, failing);
    case Resume(failing) => StartNextFlows(w, w.phase.desired, failing, w.phase.held);
    case ReaderEnds(id) => EndNextFlows(w, id);
    case _ =>
  }

  lemma {:induction false} RunFlows(config: Config, events: seq<Event>)
    requires DistinctNames(config.profiles)
    ensures var r := Run(config, events);
            r.Some? ==> Flow(r.value)
  {
    if events != [] {
      var earlier := events[..|events| - 1];
      RunFlows(config, earlier);
      RunKeepsInv(config, earlier);
      if Run(config, earlier).Some? && Enabled(Run(config, earlier).value, events[|events| - 1]) {
        StepFlows(Run(config, earlier).value, events[|events| - 1]);
      }
    }
  }

  /**
   At rest with nothing due, after a reconcile that nothing failed, the readers are exactly the
   available, unquarantined resolutions of the last snapshot, or the first of them under priority.
   */
  lemma RestIsConverged(config: Config, events: seq<Event>)
    requires DistinctNames(config.profiles) && Run(config, events).Some?
    ensures var w := Run(config, events).value;
            w.phase.Idle? && !w.m.requested && w.healthy ==>
              ActivePairs(w.m) == DesiredPairs(Desired(config.strategy, w.snapshot, w.m.quarantined))
  {
    RunFlows(config, events);
    RunKeepsInv(config, events);
  }

  // -- The same, told from the events ------------------------------------------------

  /** The reader that ends next is still registered with a manager that runs. */
  predicate EndsUnexpectedly(config: Config, events: seq<Event>, id: nat) {
    var w := Run(config, events);
    && w.Some? && (w.value.phase.Idle? || w.value.phase.Awaiting?)
    && id < |w.value.m.started| && Registered(w.value.m, w.value.m.started[id])
  }

  /** The pairs whose readers ended while registered with a running manager, since the last hotplug or start. */
  function HeldBack(config: Config, events: seq<Event>): set<Pair> {
    if events == [] then {}
    else
      var prior, e := events[..|events| - 1], events[|events| - 1];
      match e
      case Begin => {}
      case Hotplug => {}
      case ReaderEnds(id) =>
        if EndsUnexpectedly(config, prior, id)
        then HeldBack(config, prior) + {Run(config, prior).value.m.started[id].Key()}
        else HeldBack(config, prior)
      case _ => HeldBack(config, prior)
  }

  /** What the last reconcile was given to resolve. */
  function Enumerated(events: seq<Event>): Option<seq<Candidate>> {
    if events == [] then None
    else if events[|events| - 1].Wake? then events[|events| - 1].candidates
    else Enumerated(events[..|events| - 1])
  }

  /** The last reconcile of this run of the manager could enumerate, and no source failed it. */
  predicate Sound(events: seq<Event>) {
    events != [] &&
    (var e := events[|events| - 1];
     match e
     case Begin => false
     case Wake(candidates, failing) => candidates.Some? && failing == {}
     case Resume(failing) => failing == {} && Sound(events[..|events| - 1])
     case _ => Sound(events[..|events| - 1]))
  }

  /** What the events say of a world. */
  ghost predicate Told(config: Config, events: seq<Event>, w: World) {
    && w.m.quarantined == HeldBack(config, events)
    && (Enumerated(events).Some? ==>
          w.snapshot == ResolveProfiles(config.codes, config.profiles, Enumerated(events).value))
    && (Sound(events) ==> Enumerated(events).Some? && (w.phase.Idle? ==> w.healthy))
  }

  lemma {:induction false} NothingFails(m: Readers, desired: seq<Resolution>, n: nat)
    requires n <= |desired|
    ensures Healthy(m, desired, n, {})
  {
    if n > 0 {
      NothingFails(m, desired, n - 1);
    }
  }

  lemma ReconcileTells(w: World, e: Event)
    requires Inv(w) && Enabled(w, e) && (e.Wake? || e.Resume?)
    ensures var n := Next(w, e);
            && n.m.quarantined == w.m.quarantined
            && n.snapshot == (if e.Wake? && e.candidates.Some?
                              then ResolveProfiles(w.m.config.codes, w.m.config.profiles, e.candidates.value)
                              else w.snapshot)
            && (n.phase.Idle? && e.failing == {} && (e.Wake? ==> e.candidates.Some?) ==> n.healthy)
  {
    match e {
      case Wake(Some(candidates), failing) =>
        var s := SweepNext(w, candidates);
        StartFirstGrows(s.m, s.phase.desired, |s.phase.desired|, failing);
        NothingFails(s.m, s.phase.desired, |s.phase.desired|);
      case Resume(failing) =>
        StartFirstGrows(w.m, w.phase.desired, |w.phase.desired|, failing);
        NothingFails(w.m, w.phase.desired, |w.phase.desired|);
      case _ =>
    }
  }

  lemma StepTells(config: Config, prior: seq<Event>, w: World, e: Event)
    requires Run(config, prior) == Some(w) && Inv(w) && w.m.config == config && Enabled(w, e) && Told(config, prior, w)
    ensures Told(config, prior + [e], Next(w, e))
  {
    assert (prior + [e])[..|prior|] == prior;
    if e.Wake? || e.Resume? {
      ReconcileTells(w, e);
    } else if e.ReaderEnds? {
      EndTells(w, e.id);
    }
  }

  lemma EndTells(w: World, id: nat)
    requires Inv(w) && Enabled(w, ReaderEnds(id))
    ensures var n, h := EndNext(w, id), w.m.started[id];
            && n.m.quarantined
               == w.m.quarantined
                + (if (w.phase.Idle? || w.phase.Awaiting?) && Registered(w.m, h) then {h.Key()} else {})
            && n.snapshot == w.snapshot && n.healthy == w.healthy && n.phase == w.phase
  {
    assert w.m.started[id].id == id;
  }

  lemma {:induction false} RunTells(config: Config, events: seq<Event>)
    requires Run(config, events).Some?
    ensures Told(config, events, Run(config, events).value)
  {
    if events != [] {
      var prior, e := events[..|events| - 1], events[|events| - 1];
      RunTells(config, prior);
      RunKeepsInv(config, prior);
      assert events == prior + [e];
      StepTells(config, prior, Run(config, prior).value, e);
    }
  }

  /**
   At rest after a sound reconcile, the readers are those of the devices it enumerated, without the pairs whose
   readers ended unexpectedly since the last hotplug.
   */
  lemma RestMatchesTheDevices(config: Config, events: seq<Event>)
    requires DistinctNames(config.profiles) && Run(config, events).Some? && Sound(events)
    requires Run(config, events).value.phase.Idle? && !Run(config, events).value.m.requested
    ensures Enumerated(events).Some?
    ensures ActivePairs(Run(config, events).value.m)
            == DesiredPairs(Desired(config.strategy,
                                    ResolveProfiles(config.codes, config.profiles, Enumerated(events).value),
                                    HeldBack(config, events)))
  {
    RunTells(config, events);
    RestIsConverged(config, events);
  }

  lemma {:induction false} NothingHeldSinceHotplug(config: Config, before: seq<Event>, later: seq<Event>)
    requires NoneEndUnexpectedly(config, before + [Hotplug], later)
    ensures HeldBack(config, before + [Hotplug] + later) == {}
  {
    var events := before + [Hotplug] + later;
    if later == [] {
      assert events == before + [Hotplug];
    } else {
      assert events[..|events| - 1] == before + [Hotplug] + later[..|later| - 1];
      NothingHeldSinceHotplug(config, before, later[..|later| - 1]);
    }
  }

  /** Along `later` no reader ends that is still registered. */
  predicate NoneEndUnexpectedly(config: Config, before: seq<Event>, later: seq<Event>) {
    later == [] ||
    (var prior, e := later[..|later| - 1], later[|later| - 1];
     NoneEndUnexpectedly(config, before, prior)
     && (e.ReaderEnds? ==> !EndsUnexpectedly(config, before + prior, e.id)))
  }

  /** A hotplug forgives: whatever had ended before, the next reconcile wants every available device. */
  lemma HotplugForgives(config: Config, events: seq<Event>, candidates: seq<Candidate>)
    requires Run(config, events + [Hotplug]).Some? && Run(config, events).value.phase.Idle?
    ensures var w := Run(config, events + [Hotplug]).value;
            && w.phase.Idle? && w.m.requested
            && SweepNext(w, candidates).phase.desired
               == Desired(config.strategy, ResolveProfiles(config.codes, config.profiles, candidates), {})
  {
    RunKeepsInv(config, events);
    RunKeepsInv(config, events + [Hotplug]);
    RunTells(config, events + [Hotplug]);
    NothingHeldSinceHotplug(config, events, []);
    assert (events + [Hotplug])[..|events|] == events && events + [Hotplug] + [] == events + [Hotplug];
  }

  /**
   So at rest after a hotplug, a sound reconcile and no unexpected end since, the readers are those of every
   available resolution, or of the first one under priority, whatever had ended before.
   */
  lemma HotplugRevives(config: Config, before: seq<Event>, later: seq<Event>)
    requires DistinctNames(config.profiles) && NoneEndUnexpectedly(config, before + [Hotplug], later)
    requires Run(config, before + [Hotplug] + later).Some? && Sound(before + [Hotplug] + later)
    requires Run(config, before + [Hotplug] + later).value.phase.Idle?
    requires !Run(config, before + [Hotplug] + later).value.m.requested
    ensures var events := before + [Hotplug] + later;
            && Enumerated(events).Some?
            && ActivePairs(Run(config, events).value.m)
               == DesiredPairs(Desired(config.strategy,
                                       ResolveProfiles(config.codes, config.profiles, Enumerated(events).value), {}))
  {
    RestMatchesTheDevices(config, before + [Hotplug] + later);
    NothingHeldSinceHotplug(config, before, later);
  }

  /** A reconcile is due from a request until the loop next wakes, also when the request comes during an await. */
  lemma RequestsAreKept(w: World, e: Event)
    requires Inv(w) && Enabled(w, e)
    ensures Next(w, e).m.requested
            == match e
               case Begin => true
               case Hotplug => w.m.requested || w.m.running
               case ReaderEnds(id) => w.m.requested || (w.m.running && Registered(w.m, w.m.started[id]))
               case Wake(_, _) => false
               case _ => w.m.requested
  {
    match e {
      case Wake(Some(candidates), failing) =>
        var s := SweepNext(w, candidates);
        StartFirstGrows(s.m, s.phase.desired, |s.phase.desired|, failing);
      case Resume(failing) => StartFirstGrows(w.m, w.phase.desired, |w.phase.desired|, failing);
      case _ =>
    }
  }

  /** The desired list, without the filter: every available and unquarantined resolution, or just the first. */
  lemma DesiredExactly(strategy: Strategy, rs: seq<Resolution>, quarantined: set<Pair>, i: nat)
    requires i < |rs| && Distinct(rs)
    ensures rs[i] in Desired(strategy, rs, quarantined)
            <==> && Wanted(rs[i], quarantined)
                 && (strategy == Priority ==> forall k | 0 <= k < i :: !Wanted(rs[k], quarantined))
  {
    AllWantedAreListed(rs, quarantined);
    FirstWanted(rs, quarantined);
    var available := AllWanted(rs, quarantined);
    if strategy == Priority && available != [] {
      var f :| 0 <= f < |rs| && rs[f] == available[0] && Wanted(rs[f], quarantined)
               && forall k | 0 <= k < f :: !Wanted(rs[k], quarantined);
      assert Desired(strategy, rs, quarantined) == [rs[f]];
    }
  }

  lemma {:induction false} FirstWanted(rs: seq<Resolution>, quarantined: set<Pair>)
    ensures var available := AllWanted(rs, quarantined);
            available != [] ==>
              exists f :: 0 <= f < |rs| && rs[f] == available[0] && Wanted(rs[f], quarantined)
                          && forall k | 0 <= k < f :: !Wanted(rs[k], quarantined)
  {
    if rs != [] && !Wanted(rs[0], quarantined) {
      FirstWanted(rs[1..], quarantined);
      if AllWanted(rs[1..], quarantined) != [] {
        var f :| 0 <= f < |rs[1..]| && rs[1..][f] == AllWanted(rs[1..], quarantined)[0]
                 && Wanted(rs[1..][f], quarantined) && forall k | 0 <= k < f :: !Wanted(rs[1..][k], quarantined);
        forall k | 0 <= k < f + 1 ensures !Wanted(rs[k], quarantined) {
          if k > 0 {
            assert rs[k] == rs[1..][k - 1];
          }
        }
        assert rs[f + 1] == rs[1..][f];
      }
    }
  }

  /** Starting readers neither drops nor replaces a handle. */
  lemma StartingKeeps(m: Readers, desired: seq<Resolution>, failing: set<nat>, h: Handle)
    requires h.id < |m.started|
    ensures Registered(StartMissing(m, desired, failing), h) <==> Registered(m, h)
  {
    StartFirstGrows(m, desired, |desired|, failing);
  }

  lemma WakeKeeps(w: World, candidates: seq<Candidate>, failing: set<nat>, n: string)
    requires Inv(w) && DistinctNames(w.m.config.profiles) && w.phase.Idle? && n in w.m.active
    ensures Registered(WakeNext(w, Some(candidates), failing).m, w.m.active[n])
            <==> w.m.active[n].Key() in DesiredPairs(SweepNext(w, candidates).phase.desired)
  {
    var s := SweepNext(w, candidates);
    SweptExactly(w, candidates, n);
    StartingKeeps(s.m, s.phase.desired, failing, w.m.active[n]);
  }

  /** A reader keeps its handle through every step, unless it ends, a reconcile drops it, or the manager stops. */
  lemma SurvivorsStay(w: World, e: Event, n: string)
    requires Inv(w) && DistinctNames(w.m.config.profiles) && Enabled(w, e) && n in w.m.active
    ensures Registered(Next(w, e).m, w.m.active[n])
            <==> match e
                 case ReaderEnds(id) => id != w.m.active[n].id
                 case Wake(Some(candidates), _) =>
                   w.m.active[n].Key() in DesiredPairs(SweepNext(w, candidates).phase.desired)
                 case CloseReaders => false
                 case _ => true
  {
    match e {
      case Wake(Some(candidates), failing) => WakeKeeps(w, candidates, failing, n);
      case Resume(failing) => StartingKeeps(w.m, w.phase.desired, failing, w.m.active[n]);
      case _ =>
    }
  }

  lemma SweptExactly(w: World, candidates: seq<Candidate>, n: string)
    requires Inv(w) && DistinctNames(w.m.config.profiles) && w.phase.Idle? && n in w.m.active
    ensures var s := SweepNext(w, candidates);
            n in s.m.active <==> w.m.active[n].Key() in DesiredPairs(s.phase.desired)
  {
    var s := SweepNext(w, candidates);
    SweepNextFlows(w, candidates);
    if w.m.active[n].Key() in DesiredPairs(s.phase.desired) {
      DesiredIsKept(s.phase.desired, w.m.active[n]);
    }
  }

  lemma DesiredIsKept(desired: seq<Resolution>, h: Handle)
    requires Distinct(desired) && h.Key() in DesiredPairs(desired)
    ensures Keeps(desired, h.profile.name, h.node)
  {
    var r :| r in desired && r.node.Some? && h.Key() == Pair(r.profile, r.node.value);
    ByNameIsListed(desired, h.profile.name);
    var k :| 0 <= k < |desired| && desired[k] == r;
    assert ByName(desired, h.profile.name) == Some(r);
  }
}
