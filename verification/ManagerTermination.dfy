/** Without hotplug the manager's loop comes to rest: every pair has two unexpected ends at most. */
module ManagerTermination {
  import opened Common
  import opened Discovery
  import opened Manager
  import opened ManagerProtocol
  import opened ManagerConvergence

  /** A reader for the pair is registered, or the reconcile in flight will start one. */
  predicate Live(w: World, p: Pair) {
    || (p.node in w.m.active && w.m.active[p.node].Key() == p)
    || (w.phase.Awaiting? && p in DesiredPairs(w.phase.desired))
  }

  /** How many more unexpected ends the pair can have before the next hotplug. */
  function EndsLeft(w: World, p: Pair): nat {
    if p !in w.m.quarantined then 2 else if Live(w, p) then 1 else 0
  }

  function Due(w: World): nat {
    if w.m.requested then 1 else 0
  }

  /** Every pair a reader could have been started for. */
  function Pairs(profiles: seq<Profile>, nodes: set<string>): set<Pair> {
    set p, n | p in profiles && n in nodes :: Pair(p, n)
  }

  ghost predicate CountsOk(w: World) {
    && (forall p :: w.ends[p] + EndsLeft(w, p) <= 2)
    && w.reconciles + Due(w) <= 1 + |w.ends|
    && (forall p <- w.ends :: p in Pairs(w.m.config.profiles, w.seen))
  }

  // -- Steps -------------------------------------------------------------------------

  /** A reconcile that begins starts no quarantined pair. */
  lemma SweepHoldsBack(w: World, candidates: seq<Candidate>, p: Pair)
    requires Inv(w) && w.phase.Idle? && DistinctNames(w.m.config.profiles) && p in w.m.quarantined
    ensures !Live(SweepNext(w, candidates), p)
  {
    var s := SweepNext(w, candidates);
    SweepNextFlows(w, candidates);
    DesiredIsNotHeld(s);
  }

  lemma StartingAddsNoEnd(w: World, failing: set<nat>, p: Pair)
    requires Inv(w) && w.phase.Awaiting?
    ensures EndsLeft(StartNext(w, w.phase.desired, failing), p) <= EndsLeft(w, p)
  {
    var v := StartNext(w, w.phase.desired, failing);
    StartNextOk(w, w.phase.desired, failing, w.phase.held);
    StartFirstGrows(w.m, w.phase.desired, |w.phase.desired|, failing);
    if Live(v, p) && p.node !in w.m.active {
      assert v.m.started[v.m.active[p.node].id] == v.m.active[p.node];
    }
  }

  lemma WakingAddsNoEnd(w: World, candidates: Option<seq<Candidate>>, failing: set<nat>, p: Pair)
    requires Inv(w) && w.phase.Idle? && DistinctNames(w.m.config.profiles)
    ensures EndsLeft(WakeNext(w, candidates, failing), p) <= EndsLeft(w, p)
  {
    if candidates.Some? {
      var s := SweepNext(w, candidates.value);
      if p in w.m.quarantined {
        SweepHoldsBack(w, candidates.value, p);
      }
      SweepNextOk(w, candidates.value);
      StartingAddsNoEnd(s, failing, p);
    }
  }

  lemma EndingUsesOne(w: World, id: nat, p: Pair)
    requires Inv(w) && Flow(w) && Enabled(w, ReaderEnds(id))
    ensures EndNext(w, id).ends[p] + EndsLeft(EndNext(w, id), p) <= w.ends[p] + EndsLeft(w, p)
  {
    FinishedShrinks(w.m, w.m.started[id]);
  }

  lemma StepKeepsEach(w: World, e: Event, p: Pair)
    requires Inv(w) && Flow(w) && Enabled(w, e) && DistinctNames(w.m.config.profiles)
    requires w.ends[p] + EndsLeft(w, p) <= 2
    ensures Next(w, e).ends[p] + EndsLeft(Next(w, e), p) <= 2
  {
    match e
    case Wake(candidates, failing) => WakingAddsNoEnd(w, candidates, failing, p);
    case Resume(failing) => StartingAddsNoEnd(w, failing, p);
    case ReaderEnds(id) => EndingUsesOne(w, id, p);
    case _ =>
  }

  /** Each reconcile after the first answers an unexpected end. */
  lemma StepKeepsReconciles(w: World, e: Event)
    requires Inv(w) && Enabled(w, e) && w.reconciles + Due(w) <= 1 + |w.ends|
    ensures Next(w, e).reconciles + Due(Next(w, e)) <= 1 + |Next(w, e).ends|
  {
    RequestsAreKept(w, e);
  }

  lemma StepKeepsOrigins(w: World, e: Event)
    requires Inv(w) && Enabled(w, e)
    requires forall p <- w.ends :: p in Pairs(w.m.config.profiles, w.seen)
    ensures forall p <- Next(w, e).ends :: p in Pairs(w.m.config.profiles, Next(w, e).seen)
  {
    if e.ReaderEnds? {
      var h := w.m.started[e.id];
      assert h.Key() in Pairs(w.m.config.profiles, w.seen);
    } else {
      assert w.seen <= Next(w, e).seen;
      forall p | p in Next(w, e).ends ensures p in Pairs(w.m.config.profiles, Next(w, e).seen) {
        assert p in Pairs(w.m.config.profiles, w.seen);
        assert p.profile in w.m.config.profiles && p.node in w.seen;
      }
    }
  }

  lemma StepKeepsCounts(w: World, e: Event)
    requires Inv(w) && Flow(w) && Enabled(w, e) && DistinctNames(w.m.config.profiles) && CountsOk(w)
    ensures CountsOk(Next(w, e))
  {
    forall p ensures Next(w, e).ends[p] + EndsLeft(Next(w, e), p) <= 2 {
      StepKeepsEach(w, e, p);
    }
    StepKeepsReconciles(w, e);
    StepKeepsOrigins(w, e);
    ConfigStays(w, e);
  }

  lemma {:induction false} RunCounts(config: Config, events: seq<Event>)
    requires DistinctNames(config.profiles)
    ensures var r := Run(config, events);
            r.Some? ==> CountsOk(r.value)
  {
    if events != [] {
      var earlier := events[..|events| - 1];
      RunCounts(config, earlier);
      RunFlows(config, earlier);
      RunKeepsInv(config, earlier);
      if Run(config, earlier).Some? && Enabled(Run(config, earlier).value, events[|events| - 1]) {
        StepKeepsCounts(Run(config, earlier).value, events[|events| - 1]);
      }
    }
  }

  // -- The bound ---------------------------------------------------------------------

  /** A multiset that holds each member of a set twice at most, and nothing else. */
  lemma {:induction false} TwiceAtMost<T>(ends: multiset<T>, members: set<T>)
    requires forall p :: ends[p] <= 2
    requires forall p <- ends :: p in members
    ensures |ends| <= 2 * |members|
  {
    if members == {} {
      assert ends == multiset{};
    } else {
      var p :| p in members;
      var rest := ends[p := 0];
      TwiceAtMost(rest, members - {p});
      assert ends == rest + multiset{}[p := ends[p]];
      assert |multiset{}[p := ends[p]]| == ends[p];
    }
  }

  lemma {:induction false} PairsAreFew(profiles: seq<Profile>, nodes: set<string>)
    ensures |Pairs(profiles, nodes)| <= |profiles| * |nodes|
  {
    if profiles == [] {
      assert Pairs(profiles, nodes) == {};
    } else {
      PairsAreFew(profiles[1..], nodes);
      PairsGrow(profiles, nodes);
      OneMoreTimes(|profiles[1..]|, |nodes|);
    }
  }

  lemma PairsGrow(profiles: seq<Profile>, nodes: set<string>)
    requires profiles != []
    ensures |Pairs(profiles, nodes)| <= |nodes| + |Pairs(profiles[1..], nodes)|
  {
    var first := set n | n in nodes :: Pair(profiles[0], n);
    OnePairEach(profiles[0], nodes);
    PairsSplit(profiles, nodes);
    SubsetIsSmaller(Pairs(profiles, nodes), first + Pairs(profiles[1..], nodes));
  }

  lemma OneMoreTimes(n: nat, k: nat)
    ensures (n + 1) * k == n * k + k
  {
  }

  lemma PairsSplit(profiles: seq<Profile>, nodes: set<string>)
    requires profiles != []
    ensures Pairs(profiles, nodes) <= (set n | n in nodes :: Pair(profiles[0], n)) + Pairs(profiles[1..], nodes)
  {
    forall p | p in Pairs(profiles, nodes) && p.profile != profiles[0] ensures p in Pairs(profiles[1..], nodes) {
      assert p.profile in profiles[1..];
    }
  }

  lemma {:induction false} OnePairEach(p: Profile, nodes: set<string>)
    ensures |set n | n in nodes :: Pair(p, n)| <= |nodes|
  {
    if nodes != {} {
      var n :| n in nodes;
      OnePairEach(p, nodes - {n});
      assert (set o | o in nodes :: Pair(p, o)) == (set o | o in nodes - {n} :: Pair(p, o)) + {Pair(p, n)};
    }
  }

  lemma {:induction false} SubsetIsSmaller<T>(a: set<T>, b: set<T>)
    requires a <= b
    ensures |a| <= |b|
  {
    if a != {} {
      var x :| x in a;
      SubsetIsSmaller(a - {x}, b - {x});
    }
  }

  /**
   Since the last hotplug: a pair has ended unexpectedly twice at most, and the reconciles are at most
   one more than twice the number of profiles times nodes ever seen.
   */
  lemma LoopComesToRest(config: Config, events: seq<Event>)
    requires DistinctNames(config.profiles) && Run(config, events).Some?
    ensures var w := Run(config, events).value;
            && (forall p :: w.ends[p] <= 2)
            && w.reconciles <= 1 + 2 * (|config.profiles| * |w.seen|)
  {
    RunCounts(config, events);
    RunKeepsInv(config, events);
    var w := Run(config, events).value;
    forall p ensures w.ends[p] <= 2 {
      assert w.ends[p] + EndsLeft(w, p) <= 2;
    }
    TwiceAtMost(w.ends, Pairs(config.profiles, w.seen));
    PairsAreFew(config.profiles, w.seen);
  }

  // -- A quarantined pair can be started, once -----------------------------------------

  /**
   Only a reconcile starts readers, and only for pairs that were not quarantined when it began: a started
   reader is quarantined exactly when its pair was quarantined during the await.
   */
  lemma StartsNothingHeldBack(w: World, e: Event, i: nat)
    requires Inv(w) && Enabled(w, e) && |w.m.started| <= i < |Next(w, e).m.started|
    ensures var p := Next(w, e).m.started[i].Key();
            (e.Wake? && p !in w.m.quarantined) || (e.Resume? && p !in w.phase.held)
  {
    if e.Wake? && e.candidates.Some? {
      var s := SweepNext(w, e.candidates.value);
      SweepNextOk(w, e.candidates.value);
      StartFirstGrows(s.m, s.phase.desired, |s.phase.desired|, e.failing);
      DesiredIsNotHeld(s);
    } else if e.Resume? {
      StartFirstGrows(w.m, w.phase.desired, |w.phase.desired|, e.failing);
      DesiredIsNotHeld(w);
    }
  }

  lemma DesiredIsNotHeld(w: World)
    requires Inv(w) && w.phase.Awaiting?
    ensures DesiredPairs(w.phase.desired) !! w.phase.held
  {
    forall p | p in DesiredPairs(w.phase.desired) ensures p !in w.phase.held {
      var r :| r in w.phase.desired && r.node.Some? && p == Pair(r.profile, r.node.value);
      var k :| 0 <= k < |w.phase.desired| && w.phase.desired[k] == r;
    }
  }

  /** Two profiles, and a device for each. */
  datatype Desk = Desk(left: Profile, right: Profile, l: Candidate, r: Candidate) {
    predicate Apart() {
      && left.name != right.name && l.node != r.node && l.eventCodes.Some? && r.eventCodes.Some?
      && CouldBe(map[], left, l) && CouldBe(map[], right, r) && !CouldBe(map[], left, r) && !CouldBe(map[], right, l)
    }

    function Settings(): Config {
      Config([left, right], All, map[])
    }

    function OnLeft(): Resolution {
      Resolution(left, Available, Some(l.node))
    }

    function OnRight(): Resolution {
      Resolution(right, Available, Some(r.node))
    }

    function NoRight(): Resolution {
      Resolution(right, Unavailable, None)
    }

    function Reader(id: nat): Handle {
      if id == 1 then Handle(id, right, r.node) else Handle(id, left, l.node)
    }

    function Both(): Event {
      Wake(Some([l, r]), {})
    }

    function One(): Event {
      Wake(Some([l]), {})
    }

    function Waiting(): World {
      World(Readers(Settings(), true, true, {}, map[], {}, []), Idle, {}, [], false, {}, [], multiset{}, 0)
    }

    /** Both devices are being read; a hotplug may be waiting. */
    function BothRead(reconciles: nat, requested: bool): World {
      World(Readers(Settings(), true, requested, {}, map[l.node := Reader(0), r.node := Reader(1)], {},
                    [Reader(0), Reader(1)]),
            Idle, {l.node, r.node}, [OnLeft(), OnRight()], true, {}, [], multiset{}, reconciles)
    }

    /** The right reader is stopping; the left one is wanted. */
    function RightStopping(): World {
      World(Readers(Settings(), true, false, {}, map[l.node := Reader(0)], {1}, [Reader(0), Reader(1)]),
            Awaiting([OnLeft()], {}), {l.node, r.node}, [OnLeft(), NoRight()], true, {}, [], multiset{}, 1)
    }
  }

  lemma BothResolve(d: Desk)
    requires d.Apart()
    ensures ResolveProfiles(map[], [d.left, d.right], [d.l, d.r]) == [d.OnLeft(), d.OnRight()]
  {
    OnePotentialMatch(map[], d.left, [d.l, d.r], 0);
    OnePotentialMatch(map[], d.right, [d.l, d.r], 1);
    AvailableExactly(map[], [d.left, d.right], [d.l, d.r], 0, d.l.node);
    AvailableExactly(map[], [d.left, d.right], [d.l, d.r], 1, d.r.node);
  }

  lemma LeftResolves(d: Desk)
    requires d.Apart()
    ensures ResolveProfiles(map[], [d.left, d.right], [d.l]) == [d.OnLeft(), d.NoRight()]
  {
    OnePotentialMatch(map[], d.left, [d.l], 0);
    NoPotentialMatch(map[], d.right, [d.l]);
    AvailableExactly(map[], [d.left, d.right], [d.l], 0, d.l.node);
  }

  lemma BothDesired(d: Desk)
    requires d.Apart()
    ensures var s := SweepNext(d.Waiting(), [d.l, d.r]);
            && s.snapshot == [d.OnLeft(), d.OnRight()] && s.phase == Awaiting(s.snapshot, {})
            && s.m == d.Waiting().m.(requested := false) && s.seen == {d.l.node, d.r.node}
  {
    BothResolve(d);
    assert [d.OnLeft(), d.OnRight()][1..] == [d.OnRight()] && AllWanted([d.OnRight()], {}) == [d.OnRight()];
    var c := [d.l, d.r];
    assert c[0].node in Nodes(c) && c[1].node in Nodes(c);
  }

  lemma BothStart(d: Desk)
    requires d.Apart()
    ensures Next(d.Waiting(), d.Both()) == d.BothRead(1, false)
  {
    BothDesired(d);
    var s := SweepNext(d.Waiting(), [d.l, d.r]);
    var (one, two) := (StartFirst(s.m, s.phase.desired, 1, {}), StartFirst(s.m, s.phase.desired, 2, {}));
    assert StartFirst(s.m, s.phase.desired, 0, {}) == s.m && Healthy(s.m, s.phase.desired, 0, {});
    assert one == s.m.(active := map[d.l.node := d.Reader(0)], started := [d.Reader(0)]);
    assert Names(one.active) == {d.left.name};
    assert two == d.BothRead(1, false).m;
    assert Healthy(s.m, s.phase.desired, 1, {});
  }

  lemma LeftDesired(d: Desk)
    requires d.Apart()
    ensures var s := SweepNext(d.BothRead(0, true), [d.l]);
            && s.snapshot == [d.OnLeft(), d.NoRight()] && s.phase == Awaiting([d.OnLeft()], {})
            && s.m == Swept(d.BothRead(0, false).m, [d.OnLeft()]) && s.seen == {d.l.node, d.r.node}
  {
    LeftResolves(d);
    assert [d.OnLeft(), d.NoRight()][1..] == [d.NoRight()] && AllWanted([d.NoRight()], {}) == [];
  }

  lemma RightIsSwept(d: Desk)
    requires d.Apart()
    ensures Swept(d.BothRead(0, false).m, [d.OnLeft()]) == d.RightStopping().m
  {
    var m := d.BothRead(0, false).m;
    var s := Swept(m, [d.OnLeft()]);
    assert [d.OnLeft()][..0] == [];
    assert ByName([d.OnLeft()], d.left.name) == Some(d.OnLeft()) && ByName([d.OnLeft()], d.right.name) == None;
    assert s.active == map[d.l.node := d.Reader(0)];
    assert m.active[d.r.node].id in s.stopped;
  }

  lemma RightStops(d: Desk)
    requires d.Apart()
    ensures Next(d.BothRead(0, true), d.One()) == d.RightStopping()
  {
    LeftDesired(d);
    RightIsSwept(d);
    assert d.r.node in d.BothRead(0, true).m.active.Keys;
  }

  lemma LeftRestarts(d: Desk)
    requires d.Apart()
    ensures var ended := Next(d.RightStopping(), ReaderEnds(0));
            && Registered(Next(ended, Resume({})).m, d.Reader(2))
            && Pair(d.left, d.l.node) in Next(ended, Resume({})).m.quarantined
  {
    var ended := Next(d.RightStopping(), ReaderEnds(0));
    assert ended.m.active == map[];
    assert StartFirst(ended.m, [d.OnLeft()], 0, {}) == ended.m;
  }

  lemma RunStep(config: Config, events: seq<Event>, e: Event, before: World, after: World)
    requires Run(config, events) == Some(before) && Enabled(before, e) && Next(before, e) == after
    ensures Run(config, events + [e]) == Some(after)
  {
    assert (events + [e])[..|events|] == events;
  }

  /**
   The left reader fails while the right one is stopping: its pair is quarantined, and the reconcile in
   flight starts it all the same.
   */
  lemma QuarantinedPairIsStarted(d: Desk)
    requires d.Apart()
    ensures var w := Run(d.Settings(), [Begin, d.Both(), Hotplug, d.One(), ReaderEnds(0), Resume({})]);
            && w.Some? && Registered(w.value.m, d.Reader(2)) && d.Reader(2).Key() in w.value.m.quarantined
  {
    var events := [Begin, d.Both(), Hotplug, d.One()];
    RightStopsInARun(d);
    var stopping := d.RightStopping();
    var ended := Next(stopping, ReaderEnds(0));
    RunStep(d.Settings(), events, ReaderEnds(0), stopping, ended);
    RunStep(d.Settings(), events + [ReaderEnds(0)], Resume({}), ended, Next(ended, Resume({})));
    assert events + [ReaderEnds(0)] + [Resume({})] == [Begin, d.Both(), Hotplug, d.One(), ReaderEnds(0), Resume({})];
    LeftRestarts(d);
  }

  lemma BothStartInARun(d: Desk)
    requires d.Apart()
    ensures Run(d.Settings(), [Begin, d.Both()]) == Some(d.BothRead(1, false))
  {
    assert Run(d.Settings(), []) == Some(Init(d.Settings()));
    assert Next(Init(d.Settings()), Begin) == d.Waiting();
    RunStep(d.Settings(), [], Begin, Init(d.Settings()), d.Waiting());
    assert [] + [Begin] == [Begin] && [Begin] + [d.Both()] == [Begin, d.Both()];
    BothStart(d);
    RunStep(d.Settings(), [Begin], d.Both(), d.Waiting(), d.BothRead(1, false));
  }

  lemma RightStopsInARun(d: Desk)
    requires d.Apart()
    ensures Run(d.Settings(), [Begin, d.Both(), Hotplug, d.One()]) == Some(d.RightStopping())
  {
    BothStartInARun(d);
    var events := [Begin, d.Both()];
    RunStep(d.Settings(), events, Hotplug, d.BothRead(1, false), d.BothRead(0, true));
    RightStops(d);
    RunStep(d.Settings(), events + [Hotplug], d.One(), d.BothRead(0, true), d.RightStopping());
    assert events + [Hotplug] + [d.One()] == [Begin, d.Both(), Hotplug, d.One()];
  }

  function Keyboard(vendor: char): Profile {
    Profile([vendor], "lamp", [vendor], "7", None, None, None, Hidraw([[1]], [[2]]))
  }

  function PluggedIn(vendor: char): Candidate {
    Candidate([vendor], "hidraw", map["ID_VENDOR_ID" := [vendor], "ID_MODEL_ID" := "7"], Some({}))
  }

  lemma OwnVendorOnly(a: char, b: char)
    requires '0' <= a <= '9' && '0' <= b <= '9'
    ensures CouldBe(map[], Keyboard(a), PluggedIn(b)) <==> a == b
  {
    assert Lower([b]) == [b] && Lower("7") == "7";
    assert [a] == [b] ==> [a][0] == [b][0];
  }

  /** Such a desk exists. */
  lemma TwoKeyboards()
    ensures exists d: Desk :: d.Apart()
  {
    OwnVendorOnly('1', '1');
    OwnVendorOnly('1', '2');
    OwnVendorOnly('2', '1');
    OwnVendorOnly('2', '2');
    assert Desk(Keyboard('1'), Keyboard('2'), PluggedIn('1'), PluggedIn('2')).Apart() by {
      assert ['1'][0] != ['2'][0];
    }
  }
}
