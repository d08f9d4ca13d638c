/** The transaction that installs a managed rule provisionally, and finalizes it or rolls it back. */
module PermissionTransactions {
  import opened Common
  import opened Permissions

  /** The staging directory holds the transaction's files beside the others it found there. */
  ghost predicate FilesOk(staging: map<nat, Bytes>, mine: set<nat>, others: map<nat, Bytes>) {
    mine !! others.Keys && staging - mine == others && mine <= staging.Keys
  }

  function Mine(stagingPath: Option<nat>, copies: map<Path, nat>): set<nat> {
    (if stagingPath.Some? then {stagingPath.value} else {}) + copies.Values
  }

  class PermissionTransaction {
    const system: System
    const destination: Path
    const content: Bytes
    const obsolete: seq<Path>
    ghost const original: map<Path, Rule>
    ghost const others: map<nat, Bytes>

    var prepared: bool
    var destinationChanged: bool
    var destinationWriteSucceeded: bool
    var rollbackApplied: bool
    var installed: bool
    var finalized: bool
    var stagingPath: Option<nat>
    var originalRules: map<Path, Option<Rule>>
    var rollbackStagingPaths: map<Path, nat>
    ghost var rollbackTried: bool
    ghost var restored: set<Path>      // what rollback has given back

    function Paths(): seq<Path> {
      obsolete + [destination]
    }

    /** The staged files the transaction would need to restore every managed path. */
    ghost predicate Ready()
      reads this, system
    {
      && stagingPath.Some? && stagingPath.value in system.room.staging
      && system.room.staging[stagingPath.value] == content
      && SnapshotOk(original, Paths(), originalRules, rollbackStagingPaths, system.room.staging)
    }

    /** What is known of the rules in each state of the transaction. */
    ghost predicate RulesOk()
      reads this, system
    {
      && Outside(system.room.rules, original, Paths())
      && (rollbackApplied || (!destinationChanged && !finalized) ==> system.room.rules == original)
      && (installed && !rollbackTried ==>
            && system.room.rules == Target(original, destination, content, obsolete)
            && system.room.loaded == system.room.rules)
      && (installed ==> Mixed(system.room.rules, original, Target(original, destination, content, obsolete), restored))
      && (destinationWriteSucceeded && !rollbackTried ==>
            Lookup(system.room.rules, destination) == Some(Rule(content, NEW_RULE_MODE)))
    }

    ghost predicate Valid()
      reads this, system
    {
      && system.Valid() && NoRepeats(Paths())
      && FilesOk(system.room.staging, Mine(stagingPath, rollbackStagingPaths), others)
      && (stagingPath.Some? ==> prepared && Ready())
      && (stagingPath == None ==> rollbackStagingPaths == map[] && (prepared ==> finalized || rollbackApplied))
      && (destinationChanged ==> stagingPath.Some? && !finalized)
      && (finalized ==> installed && stagingPath == None)
      && (rollbackApplied ==> rollbackTried && (destinationChanged || (stagingPath == None && prepared)))
      && (rollbackTried ==> prepared && (destinationChanged || rollbackApplied || finalized))
      && (installed ==> prepared && (destinationChanged || finalized)) && (!rollbackTried ==> restored == {})
      && RulesOk()
    }

    /** Repeated paths and the destination itself are no obsolete rules. */
    constructor (system: System, destination: Path, content: Bytes, obsoleteDestinations: seq<Path>)
      requires system.Valid()
      ensures Valid() && this.system == system && this.destination == destination && this.content == content
      ensures original == system.room.rules && others == system.room.staging
      ensures forall p :: p in obsolete <==> p in obsoleteDestinations && p != destination
      ensures !prepared && !destinationChanged && !installed && !finalized && !rollbackApplied
    {
      this.system, this.destination, this.content := system, destination, content;
      this.obsolete := Others(obsoleteDestinations, destination);
      original, others := system.room.rules, system.room.staging;
      prepared, destinationChanged, destinationWriteSucceeded := false, false, false;
      rollbackApplied, installed, finalized, rollbackTried := false, false, false, false;
      stagingPath, originalRules, rollbackStagingPaths, restored := None, map[], map[], {};
      new;
      assert system.room.staging - {} == others;
      assert forall i | 0 <= i < |obsolete| :: obsolete[i] in obsolete;
    }

    // -- Commands ----------------------------------------------------------------------

    function PreviewCommands(): seq<Command>
      reads this
    {
      if finalized || stagingPath == None then []
      else [Command.Install(NEW_RULE_MODE, stagingPath.value, destination)]
           + Removing(obsolete) + [Reload]
    }

    /** The commands shown before installing, run by hand, install exactly what the transaction would. */
    lemma PreviewInstalls()
      requires Valid() && stagingPath.Some? && !destinationChanged
      ensures AllRunnable(system.room, PreviewCommands())
      ensures AllEffects(system.room, PreviewCommands())
              == Room(Target(original, destination, content, obsolete),
                      Target(original, destination, content, obsolete), system.room.staging)
    {
      var commands := PreviewCommands();
      assert commands[1..] == Removing(obsolete) + [Reload];
      RemovingAll(Effect(system.room, commands[0]), obsolete);
    }

    /** What a person is told to run when the transaction cannot finish by itself. */
    function RecoveryCommands(): seq<Command>
      reads this
      requires destinationChanged ==> forall p <- Paths() :: p in originalRules
    {
      if finalized || stagingPath == None then []
      else if !destinationChanged then PreviewCommands()
      else if rollbackApplied then [Reload]
      else RestoringAll(Paths(), originalRules, rollbackStagingPaths) + [Reload]
    }

    /** In every changed state, the recovery commands bring back the original rules and load them. */
    lemma RecoveryRestores()
      requires Valid() && destinationChanged
      ensures AllRunnable(system.room, RecoveryCommands())
      ensures AllEffects(system.room, RecoveryCommands()) == Room(original, original, system.room.staging)
    {
      if rollbackApplied {
        assert [Reload][1..] == [];
        assert AllEffects(Effect(system.room, Reload), []) == Effect(system.room, Reload);
      } else {
        assert Paths()[..0] == [];
        RestoringRest(system.room, original, Paths(), originalRules, rollbackStagingPaths, 0);
        var all := RestoringAll(Paths(), originalRules, rollbackStagingPaths);
        assert all[0..] == all;
      }
    }

    // -- Preparation -------------------------------------------------------------------

    method ReadOriginals() returns (unreadable: Option<Path>)
      requires Valid() && !prepared
      modifies this`originalRules, system`failures
      ensures Valid() && system.failures >= old(system.failures)
      ensures unreadable.Some? ==> system.failures > old(system.failures)
      ensures unreadable == None ==> system.failures == old(system.failures)
      ensures unreadable == None ==>
                forall p <- Paths() :: p in originalRules && originalRules[p] == Lookup(original, p)
    {
      for i := 0 to |Paths()|
        invariant Valid() && system.failures == old(system.failures)
        invariant forall p <- Paths()[..i] :: p in originalRules && originalRules[p] == Lookup(original, p)
      {
        var p := Paths()[i];
        var existing := system.ReadRule(p);
        if existing.Err? {
          return Some(p);
        }
        originalRules := originalRules[p :=
          if existing.value.Some? then Some(Rule(existing.value.value.0, PermissionBits(existing.value.value.1)))
          else None];
        assert Paths()[..i + 1] == Paths()[..i] + [p];
      }
      assert Paths()[..|Paths()|] == Paths();
      return None;
    }

    /** Delete every staging file of the transaction. */
    method RemoveStaging()
      requires system.Valid() && FilesOk(system.room.staging, Mine(stagingPath, rollbackStagingPaths), others)
      modifies this`stagingPath, this`rollbackStagingPaths, system`room
      ensures system.Valid() && stagingPath == None && rollbackStagingPaths == map[]
      ensures system.room == old(system.room).(staging := others)
    {
      var files := Mine(stagingPath, rollbackStagingPaths);
      var rest := files;
      while rest != {}
        invariant rest <= files && system.Valid()
        invariant system.room == old(system.room).(staging := old(system.room).staging - (files - rest))
      {
        var f :| f in rest;
        system.DeleteStagingFile(f);
        rest := rest - {f};
      }
      stagingPath, rollbackStagingPaths := None, map[];
    }

    /** The copies made so far, of the first `n` paths. */
    ghost predicate Copied(n: nat)
      requires n <= |Paths()|
      reads this, system
    {
      forall p <- Paths()[..n] ::
        p in originalRules && (originalRules[p].Some? ==>
          && p in rollbackStagingPaths && rollbackStagingPaths[p] in system.room.staging
          && system.room.staging[rollbackStagingPaths[p]] == originalRules[p].value.content)
    }

    /** Stage the new rule and a copy of each original one. */
    method StageFiles() returns (ok: bool)
      requires system.Valid() && stagingPath == None && rollbackStagingPaths == map[] && system.room.staging == others
      requires forall p <- Paths() :: p in originalRules && originalRules[p] == Lookup(original, p)
      requires NoRepeats(Paths())
      modifies this`stagingPath, this`rollbackStagingPaths, system
      ensures system.Valid() && FilesOk(system.room.staging, Mine(stagingPath, rollbackStagingPaths), others)
      ensures system.room.(staging := others) == old(system.room)
      ensures ok ==> Ready() && system.failures == old(system.failures)
      ensures !ok ==> system.failures > old(system.failures)
    {
      stagingPath := system.WriteStagingFile(content);
      if stagingPath == None {
        assert others - {} == others;
        return false;
      }
      assert system.room.staging - {stagingPath.value} == others;
      for i := 0 to |Paths()|
        invariant system.Valid() && system.failures == old(system.failures) && stagingPath.Some?
        invariant FilesOk(system.room.staging, Mine(stagingPath, rollbackStagingPaths), others)
        invariant system.room.(staging := others) == old(system.room)
        invariant stagingPath.value in system.room.staging && system.room.staging[stagingPath.value] == content
        invariant Copied(i) && rollbackStagingPaths.Keys <= (set p | p in Paths()[..i])
      {
        assert Paths()[i] in Paths() && Paths()[..i + 1] == Paths()[..i] + [Paths()[i]];
        if originalRules[Paths()[i]].Some? {
          var copied := StageCopy(i);
          if !copied {
            return false;
          }
        }
      }
      assert Paths()[..|Paths()|] == Paths();
      return true;
    }

    method StageCopy(i: nat) returns (ok: bool)
      requires system.Valid() && FilesOk(system.room.staging, Mine(stagingPath, rollbackStagingPaths), others)
      requires i < |Paths()| && Paths()[i] in originalRules && originalRules[Paths()[i]].Some? && Copied(i)
      requires Paths()[i] !in rollbackStagingPaths && NoRepeats(Paths())
      modifies this`rollbackStagingPaths, system
      ensures system.Valid() && FilesOk(system.room.staging, Mine(stagingPath, rollbackStagingPaths), others)
      ensures system.room == old(system.room).(staging := system.room.staging)
      ensures forall f <- old(system.room).staging ::
                f in system.room.staging && system.room.staging[f] == old(system.room).staging[f]
      ensures ok ==> Copied(i + 1) && system.failures == old(system.failures)
      ensures ok ==> rollbackStagingPaths.Keys == old(rollbackStagingPaths).Keys + {Paths()[i]}
      ensures !ok ==> system.failures > old(system.failures)
    {
      var p := Paths()[i];
      ghost var was, copies := system.room.staging, rollbackStagingPaths;
      var copy := system.WriteStagingFile(originalRules[p].value.content);
      if copy == None {
        return false;
      }
      rollbackStagingPaths := rollbackStagingPaths[p := copy.value];
      OneMoreFile(was, stagingPath, copies, p, copy.value, originalRules[p].value.content, others);
      assert Paths()[..i + 1] == Paths()[..i] + [p];
      return true;
    }

    /** Read the original rules and stage everything a rollback would need; nothing is left behind on failure. */
    method Prepare() returns (r: Result<(), PermissionError>)
      requires Valid()
      modifies this`prepared, this`originalRules, this`stagingPath, this`rollbackStagingPaths, system
      ensures Valid() && system.failures >= old(system.failures)
      ensures system.room.(staging := others) == old(system.room).(staging := others)
      ensures old(prepared) ==> r.Ok? && system.room == old(system.room) && stagingPath == old(stagingPath)
      ensures r.Ok? ==> prepared && (!old(prepared) ==> stagingPath.Some?) && system.failures == old(system.failures)
      ensures r.Err? ==> !prepared && system.room == old(system.room) && system.failures > old(system.failures)
      ensures r.Err? ==> r.error.Unreadable? || r.error == StagingFailed
    {
      if prepared {
        return Ok(());
      }
      assert system.room.staging - {} == system.room.staging;
      var unreadable := ReadOriginals();
      if unreadable.Some? {
        return Err(Unreadable(unreadable.value));
      }
      var ok := StageFiles();
      if !ok {
        RemoveStaging();
        assert system.room.staging - {} == others;
        return Err(StagingFailed);
      }
      prepared := true;
      return Ok(());
    }

    // -- The transaction ---------------------------------------------------------------

    /**
     Put the new rule in place, remove the obsolete ones and reload.  A transaction that was finalized, is
     already provisional, or was rolled back is refused and touches nothing.
     */
    method Install() returns (r: Result<(), PermissionError>)
      requires Valid()
      modifies this, system
      ensures Valid() && system.failures >= old(system.failures)
      ensures old(finalized) || old(destinationChanged) || old(rollbackApplied) ==>
                r.Err? && system.room == old(system.room)
                && finalized == old(finalized) && destinationChanged == old(destinationChanged)
      ensures old(finalized) <==> r == Err(Finalized)
      ensures !old(finalized) && old(destinationChanged) <==> r == Err(Provisional)
      ensures !old(finalized) && !old(destinationChanged) ==> (r == Err(NotPrepared) <==> old(rollbackApplied))
      ensures r.Ok? ==> installed && destinationChanged && !rollbackTried
      ensures finalized == old(finalized) && rollbackTried == old(rollbackTried)
      ensures r.Ok? ==> system.room.rules == Target(original, destination, content, obsolete)
                        && system.room.loaded == system.room.rules
      ensures r.Err? && !destinationChanged ==> system.room.rules == old(system.room.rules)
                                                && system.room.loaded == old(system.room.loaded)
      ensures !old(finalized) && !old(destinationChanged) && !old(rollbackApplied) ==>
                r.Ok? || system.failures > old(system.failures)
    {
      if finalized {
        return Err(Finalized);
      }
      if destinationChanged {
        return Err(Provisional);
      }
      var preparation := Prepare();
      if preparation.Err? {
        return preparation;
      }
      if stagingPath == None {
        return Err(NotPrepared);
      }
      destinationChanged := true;
      r := RunInstallation();
    }

    method RunInstallation() returns (r: Result<(), PermissionError>)
      requires Valid() && destinationChanged && !rollbackTried && !installed && system.room.rules == original
      modifies this`destinationWriteSucceeded, this`installed, system
      ensures Valid() && system.failures >= old(system.failures)
      ensures r.Ok? ==> installed && system.room.rules == Target(original, destination, content, obsolete)
                        && system.room.loaded == system.room.rules && system.failures == old(system.failures)
      ensures r.Err? ==> r == Err(CommandFailed) && system.failures > old(system.failures)
    {
      var ok := system.Execute(Command.Install(NEW_RULE_MODE, stagingPath.value, destination));
      if !ok {
        return Err(CommandFailed);
      }
      destinationWriteSucceeded := true;
      ok := RemoveObsolete();
      if !ok {
        return Err(CommandFailed);
      }
      ok := system.Execute(Reload);
      if !ok {
        return Err(CommandFailed);
      }
      installed := true;
      return Ok(());
    }

    method RemoveObsolete() returns (ok: bool)
      requires Valid() && destinationChanged && destinationWriteSucceeded && !rollbackTried && !installed
      requires system.room.rules == Target(original, destination, content, [])
      modifies system
      ensures Valid() && system.failures >= old(system.failures)
      ensures ok ==>
                && system.room.rules == Target(original, destination, content, obsolete)
                && system.failures == old(system.failures)
      ensures !ok ==> system.failures > old(system.failures)
    {
      for i := 0 to |obsolete|
        invariant Valid() && system.failures == old(system.failures)
        invariant system.room.rules == Target(original, destination, content, obsolete[..i])
      {
        assert obsolete[..i + 1] == obsolete[..i] + [obsolete[i]];
        assert obsolete[i] in Paths() && Paths()[i] != Paths()[|obsolete|];
        ok := system.Execute(Remove(obsolete[i]));
        if !ok {
          return false;
        }
      }
      assert obsolete[..|obsolete|] == obsolete;
      return true;
    }

    /** Restore every managed path and reload; a failure leaves the transaction changed, to be retried. */
    method Rollback() returns (r: Result<(), PermissionError>)
      requires Valid()
      modifies this, system
      ensures Valid() && system.failures >= old(system.failures)
      ensures old(finalized) ==> r == Err(Finalized) && system.room == old(system.room)
      ensures !old(finalized) && !old(destinationChanged) ==> r.Ok? && system.room == old(system.room)
      ensures r.Ok? && old(destinationChanged) ==>
                system.room.rules == original && system.room.loaded == original && system.room.staging == others
      ensures r.Ok? ==> !destinationChanged && !finalized && (old(destinationChanged) ==> rollbackApplied)
      ensures r.Err? ==> destinationChanged == old(destinationChanged) && installed == old(installed)
      ensures system.failures == old(system.failures) && !old(finalized) ==> r.Ok?
    {
      if finalized {
        return Err(Finalized);
      }
      if !destinationChanged {
        return Ok(());
      }
      if !rollbackApplied {
        var restored := RestoreRules();
        if !restored {
          return Err(CommandFailed);
        }
        rollbackApplied := true;
      }
      r := ReloadRestored();
    }

    /** The rules are back: load them, and be done with the staging files. */
    method ReloadRestored() returns (r: Result<(), PermissionError>)
      requires Valid() && destinationChanged && rollbackApplied
      modifies this`destinationChanged, this`installed, this`stagingPath, this`rollbackStagingPaths, system
      ensures Valid() && system.failures >= old(system.failures)
      ensures r.Ok? ==> !destinationChanged && system.room == Room(original, original, others)
                        && system.failures == old(system.failures)
      ensures r.Err? ==> destinationChanged && installed == old(installed) && system.failures > old(system.failures)
    {
      var ok := system.Execute(Reload);
      if !ok {
        return Err(CommandFailed);
      }
      destinationChanged := false;
      installed := false;
      RemoveStaging();
      assert system.room.staging - {} == others;
      return Ok(());
    }

    method RestoreRules() returns (ok: bool)
      requires Valid() && destinationChanged && !rollbackApplied
      modifies this`rollbackTried, this`restored, system
      ensures Valid() && rollbackTried && system.failures >= old(system.failures)
      ensures ok ==> system.room.rules == original && system.failures == old(system.failures)
      ensures !ok ==> system.failures > old(system.failures)
    {
      rollbackTried := true;
      var commands := RestoringAll(Paths(), originalRules, rollbackStagingPaths);
      for i := 0 to |Paths()|
        invariant Valid() && rollbackTried && system.failures == old(system.failures)
        invariant Inside(system.room.rules, original, Paths()[..i])
      {
        RestoringOne(system.room, original, Paths(), originalRules, rollbackStagingPaths, i);
        ghost var was := system.room;
        ok := system.Execute(commands[i]);
        if system.room == Effect(was, commands[i]) {
          restored := restored + {Paths()[i]};
        }
        if !ok {
          return false;
        }
      }
      assert Paths()[..|Paths()|] == Paths();
      InAndOut(system.room.rules, original, Paths());
      return true;
    }

    /**
     An installed transaction whose rollback fails at any command, that command having taken effect, still counts
     as installed; what `Finalize` then keeps is the installation in each of these cases exactly when the
     installation had changed no rule.
     */
    lemma FailedRollbackIsKept()
      requires Valid() && installed && !rollbackTried && destinationChanged
      ensures (forall n | 1 <= n <= |Paths()| ::
                 AfterRestoring(system.room, Paths(), originalRules, rollbackStagingPaths, n).rules
                 == Target(original, destination, content, obsolete))
              <==> Target(original, destination, content, obsolete) == original
    {
      FailedRollbackKeepsNothing(system.room, original, Target(original, destination, content, obsolete), Paths(),
        originalRules, rollbackStagingPaths);
    }

    /** Keep the installed rule for good. */
    method Finalize() returns (r: Result<(), PermissionError>)
      requires Valid()
      modifies this, system
      ensures Valid() && system.failures == old(system.failures)
      ensures r.Ok? <==> old(finalized) || old(installed)
      ensures r.Ok? ==> finalized && !destinationChanged
      ensures r.Ok? && !old(finalized) ==> system.room == old(system.room).(staging := others)
      ensures r.Ok? && !rollbackTried ==>
                && system.room.rules == Target(original, destination, content, obsolete)
                && system.room.loaded == system.room.rules
      ensures r.Ok? ==>
                (system.room.rules == Target(original, destination, content, obsolete) <==>
                 forall p <- restored ::
                   Lookup(original, p) == Lookup(Target(original, destination, content, obsolete), p))
      ensures r.Ok? && old(rollbackApplied) ==> system.room.rules == original
      ensures rollbackTried == old(rollbackTried) && restored == old(restored)
      ensures old(finalized) || r.Err? ==> system.room == old(system.room)
    {
      if installed {
        MixedExactly(system.room.rules, original, Target(original, destination, content, obsolete), restored);
      }
      if finalized {
        return Ok(());
      }
      if !installed {
        return Err(NotInstalled);
      }
      RemoveStaging();
      assert system.room.staging - {} == others;
      destinationChanged := false;
      finalized := true;
      return Ok(());
    }
  }

  /** A fresh file for a path that had none joins the transaction's files. */
  lemma OneMoreFile(staging: map<nat, Bytes>, stagingPath: Option<nat>, copies: map<Path, nat>, p: Path, f: nat,
                    content: Bytes, others: map<nat, Bytes>)
    requires FilesOk(staging, Mine(stagingPath, copies), others) && f !in staging && p !in copies
    ensures Mine(stagingPath, copies[p := f]) == Mine(stagingPath, copies) + {f}
    ensures FilesOk(staging[f := content], Mine(stagingPath, copies[p := f]), others)
  {
    var more := copies[p := f];
    assert more[p] == f;
    forall x | x in copies.Values ensures x in more.Values {
      var q :| q in copies && copies[q] == x;
      assert more[q] == x;
    }
    assert staging[f := content] - (Mine(stagingPath, copies) + {f}) == staging - Mine(stagingPath, copies);
  }

  /** The paths other than one of them, each once. */
  function Others(paths: seq<Path>, p: Path): (r: seq<Path>)
    ensures (forall q :: q in r <==> q in paths && q != p) && NoRepeats(r)
  {
    if |paths| == 0 then []
    else
      var rest := Others(paths[..|paths| - 1], p);
      var q := paths[|paths| - 1];
      if q == p || q in rest then rest else rest + [q]
  }
}
