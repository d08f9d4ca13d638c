/** The device manager's readers, one thread for each device it wants, and the pieces of its reconcile loop. */
module Manager {
  import opened Common
  import opened Discovery

  datatype Strategy = Priority | All

  datatype Config = Config(profiles: seq<Profile>, strategy: Strategy, codes: EventCodes)

  datatype Pair = Pair(profile: Profile, node: string)

  /** A reader generation; the identity of the handle object is its number. */
  datatype Handle = Handle(id: nat, profile: Profile, node: string) {
    function Key(): Pair {
      Pair(profile, node)
    }
  }

  /** What the event loop sees of the manager; `stopped` are the handles whose stop event is set. */
  datatype Readers = Readers(
    config: Config,
    running: bool,
    requested: bool,
    quarantined: set<Pair>,
    active: map<string, Handle>,
    stopped: set<nat>,
    started: seq<Handle>)

  function Fresh(config: Config): Readers {
    Readers(config, false, false, {}, map[], {}, [])
  }

  function Begin(m: Readers): Readers {
    m.(running := true, requested := true, quarantined := {})
  }

  predicate Wanted(r: Resolution, quarantined: set<Pair>) {
    r.IsAvailable() && Pair(r.profile, r.node.value) !in quarantined
  }

  function AllWanted(resolutions: seq<Resolution>, quarantined: set<Pair>): seq<Resolution> {
    if resolutions == [] then []
    else (if Wanted(resolutions[0], quarantined) then [resolutions[0]] else [])
         + AllWanted(resolutions[1..], quarantined)
  }

  function Desired(strategy: Strategy, resolutions: seq<Resolution>, quarantined: set<Pair>): seq<Resolution> {
    var available := AllWanted(resolutions, quarantined);
    if strategy == Priority && |available| > 1 then available[..1] else available
  }

  /** The desired resolution of a profile name; a repeated name keeps its last entry. */
  function ByName(desired: seq<Resolution>, name: string): Option<Resolution> {
    if desired == [] then None
    else if desired[|desired| - 1].profile.name == name then Some(desired[|desired| - 1])
    else ByName(desired[..|desired| - 1], name)
  }

  predicate Keeps(desired: seq<Resolution>, name: string, node: string) {
    var r := ByName(desired, name);
    r.Some? && r.value.node == Some(node)
  }

  /** Obsolete readers leave the table and are told to stop. */
  function Swept(m: Readers, desired: seq<Resolution>): Readers {
    m.(active := map n | n in m.active && Keeps(desired, m.active[n].profile.name, n) :: m.active[n],
       stopped := m.stopped
                  + (set n | n in m.active && !Keeps(desired, m.active[n].profile.name, n) :: m.active[n].id))
  }

  function Names(active: map<string, Handle>): set<string> {
    set n | n in active :: active[n].profile.name
  }

  predicate Startable(m: Readers, r: Resolution) {
    r.node.Some? && r.node.value !in m.active && r.profile.name !in Names(m.active)
  }

  function StartOne(m: Readers, r: Resolution, fails: bool): Readers {
    if !Startable(m, r) || fails then m
    else
      var h := Handle(|m.started|, r.profile, r.node.value);
      m.(active := m.active[h.node := h], started := m.started + [h])
  }

  /** Start what is missing among the first `n` desired; `failing` are the positions whose source cannot be made. */
  function StartFirst(m: Readers, desired: seq<Resolution>, n: nat, failing: set<nat>): Readers
    requires n <= |desired|
  {
    if n == 0 then m
    else StartOne(StartFirst(m, desired, n - 1, failing), desired[n - 1], n - 1 in failing)
  }

  function StartMissing(m: Readers, desired: seq<Resolution>, failing: set<nat>): Readers {
    StartFirst(m, desired, |desired|, failing)
  }

  /** No source had to be made that could not be. */
  predicate Healthy(m: Readers, desired: seq<Resolution>, n: nat, failing: set<nat>)
    requires n <= |desired|
  {
    n > 0 ==>
      && Healthy(m, desired, n - 1, failing)
      && (n - 1 in failing ==> !Startable(StartFirst(m, desired, n - 1, failing), desired[n - 1]))
  }

  /** The reader thread is over. */
  function Finished(m: Readers, h: Handle): Readers {
    var left := if h.node in m.active && m.active[h.node] == h then m.(active := m.active - {h.node}) else m;
    if m.running && h.id !in m.stopped
    then left.(quarantined := m.quarantined + {h.Key()}, requested := true)
    else left
  }

  predicate Submits(m: Readers, h: Handle) {
    h.id !in m.stopped && h.node in m.active && m.active[h.node] == h
  }

  function Hotplugged(m: Readers): Readers {
    m.(quarantined := {}, requested := m.requested || m.running)
  }

  function StoppedAll(m: Readers): Readers {
    m.(active := map[], stopped := m.stopped + (set n | n in m.active :: m.active[n].id))
  }

  class DeviceManager {
    const config: Config
    var running: bool
    var reconcileEvent: bool
    var quarantined: set<Pair>
    var activeReaders: map<string, Handle>
    var stopped: set<nat>
    ghost var started: seq<Handle>
    var nextId: nat

    ghost predicate Valid()
      reads this
    {
      nextId == |started|
    }

    ghost function State(): Readers
      reads this
    {
      Readers(config, running, reconcileEvent, quarantined, activeReaders, stopped, started)
    }

    constructor (config: Config)
      ensures Valid() && State() == Fresh(config)
    {
      this.config := config;
      running, reconcileEvent, quarantined := false, false, {};
      activeReaders, stopped, started, nextId := map[], {}, [], 0;
    }

    /** The part of `run` before its loop; a second `run` is refused. */
    method BeginRun() returns (r: Result<(), string>)
      requires Valid()
      modifies this
      ensures Valid()
      ensures r.Err? <==> old(running)
      ensures State() == if r.Ok? then Begin(old(State())) else old(State())
    {
      if running {
        return Err("device manager is already running");
      }
      quarantined := {};
      running := true;
      RequestReconciliation();
      return Ok(());
    }

    method RequestReconciliation()
      requires Valid()
      modifies this`reconcileEvent
      ensures State() == old(State()).(requested := old(reconcileEvent) || running)
    {
      if running {
        reconcileEvent := true;
      }
    }

    method HandleHotplugEvent()
      requires Valid()
      modifies this
      ensures Valid() && State() == Hotplugged(old(State()))
    {
      quarantined := {};
      RequestReconciliation();
    }

    /** Take the readers no longer desired out of the table. */
    method DropObsolete(desired: seq<Resolution>) returns (obsolete: set<Handle>)
      modifies this`activeReaders
      ensures activeReaders == Swept(old(State()), desired).active
      ensures obsolete == set n | n in old(activeReaders) && !Keeps(desired, old(activeReaders)[n].profile.name, n)
                          :: old(activeReaders)[n]
    {
      var before, rest := activeReaders, activeReaders.Keys;
      obsolete := {};
      while rest != {}
        invariant rest <= before.Keys
        invariant activeReaders ==
                  map n | n in before && (n in rest || Keeps(desired, before[n].profile.name, n)) :: before[n]
        invariant obsolete ==
                  set n | n in before && n !in rest && !Keeps(desired, before[n].profile.name, n) :: before[n]
      {
        var node :| node in rest;
        rest := rest - {node};
        var resolution := ByName(desired, before[node].profile.name);
        if resolution == None || resolution.value.node != Some(node) {
          activeReaders := activeReaders - {node};
          obsolete := obsolete + {before[node]};
        }
      }
    }

    /** Set the stop event of each handle. */
    method StopEach(handles: set<Handle>)
      modifies this`stopped
      ensures stopped == old(stopped) + (set h | h in handles :: h.id)
    {
      var rest := handles;
      while rest != {}
        invariant rest <= handles && stopped == old(stopped) + (set h | h in handles - rest :: h.id)
      {
        var h :| h in rest;
        rest := rest - {h};
        stopped := stopped + {h.id};
      }
    }

    /** The first half of a reconcile: drop the readers no longer desired and set their stop events. */
    method Sweep(desired: seq<Resolution>) returns (obsolete: set<Handle>)
      requires Valid()
      modifies this`activeReaders, this`stopped
      ensures State() == Swept(old(State()), desired)
      ensures obsolete == set n | n in old(activeReaders) && !Keeps(desired, old(activeReaders)[n].profile.name, n)
                          :: old(activeReaders)[n]
    {
      obsolete := DropObsolete(desired);
      StopEach(obsolete);
    }

    /** The second half: start a reader for each desired resolution that has none. */
    method StartReaders(desired: seq<Resolution>, failing: set<nat>)
      requires Valid()
      modifies this`activeReaders, this`started, this`nextId
      ensures Valid() && State() == StartMissing(old(State()), desired, failing)
    {
      var activeNames := Names(activeReaders);
      for i := 0 to |desired|
        invariant Valid()
        invariant State() == StartFirst(old(State()), desired, i, failing)
        invariant activeNames == Names(activeReaders)
      {
        var r := desired[i];
        if r.node.Some? && r.node.value !in activeReaders && r.profile.name !in activeNames {
          var h := StartReader(r.profile, r.node.value, i in failing);
          if h.Some? {
            ghost var earlier := activeReaders;
            activeReaders := activeReaders[r.node.value := h.value];
            activeNames := activeNames + {r.profile.name};
            NamesGrow(earlier, h.value);
          }
        }
      }
    }

    /** A new handle, unless its source cannot be made. */
    method StartReader(profile: Profile, node: string, fails: bool) returns (h: Option<Handle>)
      requires Valid()
      modifies this`started, this`nextId
      ensures Valid()
      ensures h == if fails then None else Some(Handle(old(nextId), profile, node))
      ensures started == if fails then old(started) else old(started) + [h.value]
    {
      if fails {
        return None;
      }
      h := Some(Handle(nextId, profile, node));
      started := started + [h.value];
      nextId := nextId + 1;
    }

    method ReaderFinished(h: Handle)
      requires Valid()
      modifies this
      ensures Valid() && State() == Finished(old(State()), h)
    {
      var unexpectedStop := h.id !in stopped;
      if h.node in activeReaders && activeReaders[h.node] == h {
        activeReaders := activeReaders - {h.node};
      }
      if running && unexpectedStop {
        quarantined := quarantined + {h.Key()};
        RequestReconciliation();
      }
    }

    /** Whether an input queued by a reader is handed to its action. */
    method SubmitInput(h: Handle) returns (submitted: bool)
      ensures submitted == Submits(State(), h)
    {
      if h.id in stopped || h.node !in activeReaders || activeReaders[h.node] != h {
        return false;
      }
      return true;
    }

    method StopAllReaders() returns (handles: set<Handle>)
      requires Valid()
      modifies this`activeReaders, this`stopped
      ensures State() == StoppedAll(old(State())) && handles == old(activeReaders).Values
    {
      handles := activeReaders.Values;
      activeReaders := map[];
      StopEach(handles);
    }
  }

  lemma NamesGrow(active: map<string, Handle>, h: Handle)
    requires h.node !in active
    ensures Names(active[h.node := h]) == Names(active) + {h.profile.name}
  {
    var grown := active[h.node := h];
    forall name | name in Names(active) + {h.profile.name} ensures name in Names(grown) {
      if name == h.profile.name {
        assert grown[h.node].profile.name == name;
      } else {
        var n :| n in active && active[n].profile.name == name;
        assert grown[n].profile.name == name;
      }
    }
  }
}
