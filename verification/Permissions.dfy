/**
 Installing one managed udev rule, and taking it back exactly.  A privileged command may fail before or after
 taking effect; nobody else edits the managed paths, and staging files can be deleted.
 */
module Permissions {
  import opened Common

  type Path(==) = string

  /** A rule file: its bytes and permission bits. */
  type Mode = m: nat | m < 0x1000

  datatype Rule = Rule(content: Bytes, mode: Mode)

  const NEW_RULE_MODE := 0x1A4   // 0644
  const REGULAR := 0x8000        // the file type bits of a regular file

  /** `S_IMODE`: the permission bits of a mode. */
  function PermissionBits(mode: nat): Mode {
    mode % 0x1000
  }

  datatype Command =
    | Install(mode: Mode, source: nat, target: Path)
    | Remove(target: Path)
    | Reload

  /** The rules directory, the rules udev last loaded, and the staging files by number. */
  datatype Room = Room(rules: map<Path, Rule>, loaded: map<Path, Rule>, staging: map<nat, Bytes>)

  datatype PermissionError =
    | Finalized | Provisional | Unreadable(path: Path) | StagingFailed | NotPrepared | CommandFailed | NotInstalled

  predicate Runnable(r: Room, c: Command) {
    c.Install? ==> c.source in r.staging
  }

  /** A command's whole effect. */
  function Effect(r: Room, c: Command): Room {
    match c
    case Install(mode, source, target) =>
      if source in r.staging then r.(rules := r.rules[target := Rule(r.staging[source], mode)]) else r
    case Remove(target) => r.(rules := r.rules - {target})
    case Reload => r.(loaded := r.rules)
  }

  predicate AllRunnable(r: Room, commands: seq<Command>)
    decreases |commands|
  {
    |commands| > 0 ==> Runnable(r, commands[0]) && AllRunnable(Effect(r, commands[0]), commands[1..])
  }

  function AllEffects(r: Room, commands: seq<Command>): Room
    decreases |commands|
  {
    if |commands| == 0 then r else AllEffects(Effect(r, commands[0]), commands[1..])
  }

  /** The rules agree with the original ones outside the paths. */
  ghost predicate Outside(rules: map<Path, Rule>, original: map<Path, Rule>, paths: seq<Path>) {
    forall p | p !in paths :: Lookup(rules, p) == Lookup(original, p)
  }

  /** The rules agree with the original ones on the paths. */
  ghost predicate Inside(rules: map<Path, Rule>, original: map<Path, Rule>, paths: seq<Path>) {
    forall p <- paths :: Lookup(rules, p) == Lookup(original, p)
  }

  lemma InAndOut(rules: map<Path, Rule>, original: map<Path, Rule>, paths: seq<Path>)
    requires Outside(rules, original, paths) && Inside(rules, original, paths)
    ensures rules == original
  {
    SameLookups(rules, original);
  }

  /** The command that gives a path back what it had. */
  function Restoring(p: Path, existing: Option<Rule>, source: nat): Command {
    if existing == None then Remove(p) else Install(existing.value.mode, source, p)
  }

  /** Each path's command, in order; `sources` are the staged copies. */
  function RestoringAll(paths: seq<Path>, existing: map<Path, Option<Rule>>, sources: map<Path, nat>): (r: seq<Command>)
    requires forall p <- paths :: p in existing
    ensures |r| == |paths|
  {
    seq(|paths|, i requires 0 <= i < |paths| =>
      Restoring(paths[i], existing[paths[i]], Lookup(sources, paths[i]).GetOr(0)))
  }

  /** The snapshot is of the original rules, and the staged copies hold their bytes. */
  ghost predicate SnapshotOk(
      original: map<Path, Rule>, paths: seq<Path>, existing: map<Path, Option<Rule>>, sources: map<Path, nat>,
      staging: map<nat, Bytes>) {
    && (forall p <- paths :: p in existing && existing[p] == Lookup(original, p))
    && (forall p <- paths :: existing[p].Some? ==>
          p in sources && sources[p] in staging && staging[sources[p]] == existing[p].value.content)
  }

  lemma RestoringOne(r: Room, original: map<Path, Rule>, paths: seq<Path>, existing: map<Path, Option<Rule>>,
                     sources: map<Path, nat>, i: nat)
    requires SnapshotOk(original, paths, existing, sources, r.staging)
    requires i < |paths| && Outside(r.rules, original, paths) && Inside(r.rules, original, paths[..i])
    ensures var c := RestoringAll(paths, existing, sources)[i];
            && Runnable(r, c) && Effect(r, c) == r.(rules := Effect(r, c).rules)
            && Outside(Effect(r, c).rules, original, paths) && Inside(Effect(r, c).rules, original, paths[..i + 1])
            && Inside(Effect(r, c).rules, original, paths[..i])
            && (forall q | q != paths[i] :: Lookup(Effect(r, c).rules, q) == Lookup(r.rules, q))
  {
    var p := paths[i];
    assert p in paths;
    var c := RestoringAll(paths, existing, sources)[i];
    assert Lookup(Effect(r, c).rules, p) == Lookup(original, p);
    assert forall q | q != p :: Lookup(Effect(r, c).rules, q) == Lookup(r.rules, q);
    assert paths[..i + 1] == paths[..i] + [p];
  }

  /** Running the commands from any room whose other paths are untouched brings every original rule back. */
  lemma {:induction false} RestoringRest(r: Room, original: map<Path, Rule>, paths: seq<Path>,
                                         existing: map<Path, Option<Rule>>, sources: map<Path, nat>, i: nat)
    requires SnapshotOk(original, paths, existing, sources, r.staging)
    requires i <= |paths| && Outside(r.rules, original, paths) && Inside(r.rules, original, paths[..i])
    ensures var commands := RestoringAll(paths, existing, sources)[i..] + [Reload];
            AllRunnable(r, commands) && AllEffects(r, commands) == Room(original, original, r.staging)
    decreases |paths| - i
  {
    var all := RestoringAll(paths, existing, sources);
    if i == |paths| {
      assert paths[..i] == paths;
      InAndOut(r.rules, original, paths);
      assert all[i..] + [Reload] == [Reload] && [Reload][1..] == [];
      assert AllRunnable(Effect(r, Reload), []) && AllEffects(Effect(r, Reload), []) == Effect(r, Reload);
    } else {
      RestoringOne(r, original, paths, existing, sources, i);
      RestoringRest(Effect(r, all[i]), original, paths, existing, sources, i + 1);
      assert (all[i..] + [Reload])[0] == all[i];
      assert (all[i..] + [Reload])[1..] == all[i + 1..] + [Reload];
    }
  }

  /** What an installation leaves: the new rule at its destination, and none of the obsolete ones. */
  function Target(original: map<Path, Rule>, destination: Path, content: Bytes, obsolete: seq<Path>): map<Path, Rule> {
    original[destination := Rule(content, NEW_RULE_MODE)] - (set p | p in obsolete)
  }

  function Removing(paths: seq<Path>): seq<Command> {
    seq(|paths|, i requires 0 <= i < |paths| => Remove(paths[i]))
  }

  /** Running the removals and the reload takes exactly those paths away and loads the rest. */
  lemma {:induction false} RemovingAll(r: Room, paths: seq<Path>)
    ensures AllRunnable(r, Removing(paths) + [Reload])
    ensures AllEffects(r, Removing(paths) + [Reload])
            == Room(r.rules - (set p | p in paths), r.rules - (set p | p in paths), r.staging)
    decreases |paths|
  {
    var commands := Removing(paths) + [Reload];
    if paths == [] {
      assert commands == [Reload] && commands[1..] == [];
      assert AllEffects(Effect(r, Reload), []) == Effect(r, Reload) && r.rules - {} == r.rules;
    } else {
      assert commands[1..] == Removing(paths[1..]) + [Reload];
      RemovingAll(Effect(r, Remove(paths[0])), paths[1..]);
      assert r.rules - {paths[0]} - (set p | p in paths[1..]) == r.rules - (set p | p in paths);
    }
  }

  // -- Half a rollback -----------------------------------------------------------------

  /** The rules of an installation, of which some paths have been given back what they had. */
  ghost predicate Mixed(
    rules: map<Path, Rule>, original: map<Path, Rule>, target: map<Path, Rule>, restored: set<Path>)
  {
    forall p :: Lookup(rules, p) == if p in restored then Lookup(original, p) else Lookup(target, p)
  }

  /** The installed rules have survived exactly when no path that was given back had been changed. */
  lemma MixedExactly(rules: map<Path, Rule>, original: map<Path, Rule>, target: map<Path, Rule>, restored: set<Path>)
    requires Mixed(rules, original, target, restored)
    ensures rules == target <==> forall p <- restored :: Lookup(original, p) == Lookup(target, p)
  {
    if forall p <- restored :: Lookup(original, p) == Lookup(target, p) {
      SameLookups(rules, target);
    }
  }

  lemma SameLookups(a: map<Path, Rule>, b: map<Path, Rule>)
    requires forall p :: Lookup(a, p) == Lookup(b, p)
    ensures a == b
  {
    assert forall p :: p in a <==> Lookup(a, p).Some?;
    assert forall p :: p in b <==> Lookup(b, p).Some?;
    assert forall p | p in a :: Lookup(a, p).value == a[p] && Lookup(b, p).value == b[p];
  }

  lemma {:induction false} EffectsOneMore(r: Room, commands: seq<Command>, c: Command)
    ensures AllEffects(r, commands + [c]) == Effect(AllEffects(r, commands), c)
    decreases |commands|
  {
    if |commands| == 0 {
      assert [] + [c] == [c] && [c][1..] == [];
      assert AllEffects(Effect(r, c), []) == Effect(r, c);
    } else {
      EffectsOneMore(Effect(r, commands[0]), commands[1..], c);
      assert (commands + [c])[1..] == commands[1..] + [c];
    }
  }

  /** The room once the first `n` restoring commands have taken effect. */
  function AfterRestoring(
    r: Room, paths: seq<Path>, existing: map<Path, Option<Rule>>, sources: map<Path, nat>, n: nat): Room
    requires n <= |paths| && forall p <- paths :: p in existing
  {
    AllEffects(r, RestoringAll(paths, existing, sources)[..n])
  }

  function FirstPaths(paths: seq<Path>, n: nat): set<Path>
    requires n <= |paths|
  {
    var first := paths[..n];
    set p | p in first
  }

  /** Those paths are given back, and no others. */
  lemma {:induction false} FirstRestored(r: Room, original: map<Path, Rule>, target: map<Path, Rule>, paths: seq<Path>,
                                         existing: map<Path, Option<Rule>>, sources: map<Path, nat>, n: nat)
    requires SnapshotOk(original, paths, existing, sources, r.staging)
    requires r.rules == target && Outside(target, original, paths) && n <= |paths|
    ensures var s := AfterRestoring(r, paths, existing, sources, n);
            && s == r.(rules := s.rules) && Outside(s.rules, original, paths) && Inside(s.rules, original, paths[..n])
            && Mixed(s.rules, original, target, FirstPaths(paths, n))
  {
    var all := RestoringAll(paths, existing, sources);
    if n > 0 {
      FirstRestored(r, original, target, paths, existing, sources, n - 1);
      assert all[..n] == all[..n - 1] + [all[n - 1]];
      EffectsOneMore(r, all[..n - 1], all[n - 1]);
      RestoringOne(AfterRestoring(r, paths, existing, sources, n - 1), original, paths, existing, sources, n - 1);
      assert paths[..n] == paths[..n - 1] + [paths[n - 1]];
      assert FirstPaths(paths, n) == FirstPaths(paths, n - 1) + {paths[n - 1]};
    }
  }

  /**
   A rollback may fail at any of its commands after that command has taken effect.  The installed rules survive
   each such failure exactly when the installation had changed nothing.
   */
  lemma FailedRollbackKeepsNothing(r: Room, original: map<Path, Rule>, target: map<Path, Rule>, paths: seq<Path>,
                                   existing: map<Path, Option<Rule>>, sources: map<Path, nat>)
    requires SnapshotOk(original, paths, existing, sources, r.staging)
    requires r.rules == target && Outside(target, original, paths)
    ensures (forall n | 1 <= n <= |paths| :: AfterRestoring(r, paths, existing, sources, n).rules == target)
            <==> target == original
  {
    forall n | 1 <= n <= |paths|
      ensures Mixed(AfterRestoring(r, paths, existing, sources, n).rules, original, target, FirstPaths(paths, n))
      ensures target == original ==> AfterRestoring(r, paths, existing, sources, n).rules == target
    {
      FirstRestored(r, original, target, paths, existing, sources, n);
      MixedExactly(AfterRestoring(r, paths, existing, sources, n).rules, original, target, FirstPaths(paths, n));
    }
    if target != original {
      DifferentLookups(target, original);
      var p :| Lookup(target, p) != Lookup(original, p);
      var k :| 0 <= k < |paths| && paths[k] == p;
      assert paths[..k + 1][k] == p;
      assert p in FirstPaths(paths, k + 1);
      assert Lookup(AfterRestoring(r, paths, existing, sources, k + 1).rules, p) == Lookup(original, p);
    }
  }

  lemma DifferentLookups(a: map<Path, Rule>, b: map<Path, Rule>)
    requires a != b
    ensures exists p :: Lookup(a, p) != Lookup(b, p)
  {
    if forall p :: Lookup(a, p) == Lookup(b, p) {
      SameLookups(a, b);
    }
  }

  /** The machine the commands run on. */
  class System {
    var room: Room
    var nextFile: nat
    ghost var failures: nat

    predicate Valid()
      reads this
    {
      forall f <- room.staging :: f < nextFile
    }

    constructor (room: Room, nextFile: nat)
      requires forall f <- room.staging :: f < nextFile
      ensures Valid() && this.room == room && failures == 0
    {
      this.room, this.nextFile, failures := room, nextFile, 0;
    }

    /** A failing command may have done all of its work, or none. */
    method Execute(c: Command) returns (ok: bool)
      requires Valid()
      modifies this
      ensures Valid() && nextFile == old(nextFile) && failures >= old(failures)
      ensures ok ==> Runnable(old(room), c) && room == Effect(old(room), c) && failures == old(failures)
      ensures !ok ==> room == old(room) || room == Effect(old(room), c)
      ensures !ok && Runnable(old(room), c) ==> failures > old(failures)
    {
      ok := *;
      ok := ok && Runnable(room, c);
      var effective: bool := *;
      if ok || effective {
        room := Effect(room, c);
      }
      if !ok {
        failures := failures + 1;
      }
    }

    /** `lstat` and the reads of one rule; the mode comes with the bits of a regular file. */
    method ReadRule(p: Path) returns (r: Result<Option<(Bytes, nat)>, ()>)
      modifies this`failures
      ensures r.Ok? ==> failures == old(failures)
      ensures r.Ok? ==>
                r.value
                == if p in room.rules then Some((room.rules[p].content, REGULAR + room.rules[p].mode)) else None
      ensures r.Err? ==> failures > old(failures)
    {
      var ok: bool := *;
      if ok {
        return Ok(if p in room.rules then Some((room.rules[p].content, REGULAR + room.rules[p].mode)) else None);
      }
      failures := failures + 1;
      return Err(());
    }

    /** A new staging file with its bytes synced, or nothing. */
    method WriteStagingFile(content: Bytes) returns (file: Option<nat>)
      requires Valid()
      modifies this
      ensures Valid()
      ensures file.Some? ==> failures == old(failures) && file.value !in old(room).staging
                             && room == old(room).(staging := old(room).staging[file.value := content])
      ensures file == None ==> failures > old(failures) && room == old(room)
    {
      var ok: bool := *;
      if ok {
        file := Some(nextFile);
        room := room.(staging := room.staging[nextFile := content]);
        nextFile := nextFile + 1;
        return;
      }
      failures := failures + 1;
      return None;
    }

    method DeleteStagingFile(f: nat)
      requires Valid()
      modifies this`room
      ensures Valid() && room == old(room).(staging := old(room).staging - {f})
    {
      room := room.(staging := room.staging - {f});
    }
  }
}
