/**
 Guided setup around its one commit point.  A prompt goes on, is cancelled or fails, any other operation succeeds
 or fails; reporting always works, and the user gives finitely many answers.
 */
module Session {
  import opened Common
  import Files
  import opened ConfigTransactions
  import opened Permissions
  import opened PermissionTransactions
  import opened Service

  /** How a step of `run` ends: on to the next one, out of the function, or through an exception. */
  datatype Ending = Onward | Returned(code: int) | SetupCancelled | Failed

  datatype Answer = Retry | RestoreAll | Unsupported | ExitRequested | Cancel | PromptError

  /** One step of a recovery and whether it succeeded; `clean`: nothing else was left changed. */
  datatype Recovery =
    | ConfigStep(ok: bool)
    | RuleStep(ok: bool)
    | ServiceStep(ok: bool, clean: bool)

  predicate AllOk(log: seq<Recovery>) {
    forall s <- log :: s.ok
  }

  /** A service is restored only after every other step of the recovery, and only if they all succeeded. */
  predicate Ordered(log: seq<Recovery>) {
    forall i | 0 <= i < |log| && log[i].ServiceStep? :: log[i].clean && i == |log| - 1 && AllOk(log[..i])
  }

  predicate ServiceLeftAlone(log: seq<Recovery>) {
    forall s <- log :: !s.ServiceStep?
  }

  lemma ServiceComesLast(log: seq<Recovery>, last: Recovery)
    requires ServiceLeftAlone(log) && AllOk(log) && last.ServiceStep? && last.clean
    ensures Ordered(log + [last]) && (AllOk(log + [last]) <==> last.ok) && last in log + [last]
  {
    var longer := log + [last];
    assert forall i | 0 <= i < |log| :: longer[i] == log[i] && !longer[i].ServiceStep?;
    assert longer[..|longer| - 1] == log;
    assert last.ok ==> AllOk(longer);
  }

  /** What a person confirmed, or the system brought about, on the way. */
  datatype Step = RuleConfirmed | Monitored | Reconnected | ConfigConfirmed

  /** How far a rollback has come in seeing the device of a replaced profile again. */
  datatype Previous = Unwatched | Watched | SeenAgain

  /** The bytes at the destination, or their absence. */
  predicate Configured(d: Files.Disk, c: Option<Bytes>) {
    if c.Some? then d.Holds(Files.Dest, c.value) else Files.Dest !in d.entries
  }

  /** Prompts, discovery and capture: what was said, what was passed, and what has gone wrong. */
  class Prompts {
    ghost var failures: nat
    ghost var cancellations: nat
    ghost var passed: set<Step>
    ghost var chosen: Option<ServiceChoice>    // what the user wants of the service
    ghost var wanted: Option<Bytes>            // the backup the user wants restored
    ghost var manage: bool                     // a rule is to be installed

    constructor ()
      ensures passed == {}
    {
      failures, cancellations, passed := 0, 0, {};
      chosen, wanted, manage := None, None, false;
    }

    /** On, cancelled, or an exception. */
    method Consult() returns (e: Ending)
      modifies this`failures, this`cancellations
      ensures e in {Onward, SetupCancelled, Failed}
      ensures failures == old(failures) + (if e == Failed then 1 else 0)
      ensures cancellations == old(cancellations) + (if e == SetupCancelled then 1 else 0)
    {
      var ok: bool := *;
      var cancelled: bool := *;
      e := if ok then Onward else if cancelled then SetupCancelled else Failed;
      failures := failures + if e == Failed then 1 else 0;
      cancellations := cancellations + if e == SetupCancelled then 1 else 0;
    }

    /** The same for what must not be left out. */
    method Ask(step: Step) returns (e: Ending)
      modifies this`failures, this`cancellations, this`passed
      ensures e in {Onward, SetupCancelled, Failed}
      ensures failures == old(failures) + (if e == Failed then 1 else 0)
      ensures cancellations == old(cancellations) + (if e == SetupCancelled then 1 else 0)
      ensures passed == old(passed) + (if e == Onward then {step} else {})
    {
      e := Consult();
      passed := passed + if e == Onward then {step} else {};
    }

    /** What is to become of the service, unless the prompt does not go on. */
    method ChooseService() returns (e: Ending, c: ServiceChoice)
      modifies this`failures, this`cancellations, this`chosen
      ensures e in {Onward, SetupCancelled, Failed} && (e == Onward ==> chosen == Some(c))
      ensures failures == old(failures) + (if e == Failed then 1 else 0)
      ensures cancellations == old(cancellations) + (if e == SetupCancelled then 1 else 0)
    {
      e := Consult();
      c := *;
      chosen := if e == Onward then Some(c) else chosen;
    }

    /** Which backup is to be restored, if any. */
    method ChooseBackup() returns (e: Ending, content: Option<Bytes>)
      modifies this`failures, this`cancellations, this`wanted
      ensures e in {Onward, SetupCancelled, Failed} && wanted == (if e == Onward then content else old(wanted))
      ensures failures == old(failures) + (if e == Failed then 1 else 0)
      ensures cancellations == old(cancellations) + (if e == SetupCancelled then 1 else 0)
    {
      e := Consult();
      content := *;
      wanted := if e == Onward then content else wanted;
    }

    /** The device, and the profile that is added or replaced; one that is replaced has its rule installed. */
    method ChooseOperation() returns (e: Ending, replacing: bool, manage: bool)
      modifies this`failures, this`cancellations, this`manage
      ensures e in {Onward, SetupCancelled, Failed} && (replacing ==> manage)
      ensures e == Onward ==> this.manage == manage
      ensures failures == old(failures) + (if e == Failed then 1 else 0)
      ensures cancellations == old(cancellations) + (if e == SetupCancelled then 1 else 0)
    {
      e := Consult();
      replacing := *;
      manage := *;
      manage := manage || replacing;
      this.manage := if e == Onward then manage else this.manage;
    }

    /** Begin to watch for the device's return, before its rule changes. */
    method Monitor() returns (ok: bool)
      modifies this`failures, this`passed
      ensures failures == old(failures) + (if ok then 0 else 1)
      ensures passed == old(passed) + (if ok then {Monitored} else {})
    {
      ok := *;
      failures := failures + if ok then 0 else 1;
      passed := passed + if ok then {Monitored} else {};
    }
  }

  /** Loading, validation, and the device of a replaced profile. */
  class Oracle {
    ghost var failures: nat
    ghost var previous: Previous

    constructor ()
      ensures previous == Unwatched
    {
      failures, previous := 0, Unwatched;
    }

    /** An operation that can only succeed or raise. */
    method Try() returns (ok: bool)
      modifies this`failures
      ensures failures == old(failures) + (if ok then 0 else 1)
    {
      ok := *;
      failures := failures + if ok then 0 else 1;
    }

    /** Watch for the device before a rollback, and see it again after it. */
    method MonitorPrevious(next: Previous) returns (ok: bool)
      modifies this`failures, this`previous
      ensures failures == old(failures) + (if ok then 0 else 1)
      ensures previous == if ok then next else old(previous)
    {
      ok := Try();
      previous := if ok then next else previous;
    }
  }

  class SetupSession {
    const directory: Files.Directory
    const permission: PermissionTransaction   // what the permission factory hands out
    const service: ServiceManager
    const prompts: Prompts
    const oracle: Oracle

    var main: ConfigTransaction?
    var backup: ConfigTransaction?
    var existed: bool                 // the configuration was there when it was last loaded
    var serviceSnapshot: Option<ServiceState>
    var choice: Option<ServiceChoice>
    var managed: bool                 // a permission transaction exists
    var commitStarted: bool
    var permissionInstalled: bool
    var replacing: bool               // the new profile takes the place of one with a rule of its own
    var configCommitted: bool
    var reloaded: bool                // the committed configuration was loaded
    ghost var published: bool         // the main transaction ever replaced the configuration
    ghost var hitched: bool           // a call of a commit failed, or found a name taken, or its content was invalid
    ghost var backupInDoubt: bool     // a backup restore may have been committed by a call that failed
    ghost var log: seq<Recovery>
    ghost var current: Option<Bytes>  // the configuration as last loaded
    ghost var target: Bytes           // the configuration to commit
    ghost const found: ServiceState              // the service before setup
    ghost const configFound: Option<Bytes>       // the configuration before setup
    ghost const loadedBefore: map<Path, Rule>    // the rules udev had loaded before setup

    constructor (directory: Files.Directory, permission: PermissionTransaction, service: ServiceManager,
                 prompts: Prompts, oracle: Oracle)
      requires directory.Valid() && (directory.quiet ==> DestSettled(directory.disk))
      requires permission.Valid() && !permission.prepared && !permission.finalized && !permission.destinationChanged
      requires !permission.rollbackTried && prompts.passed == {} && oracle.previous == Unwatched
      ensures Fresh() && this.directory == directory && this.permission == permission
      ensures this.service == service && this.prompts == prompts && this.oracle == oracle
    {
      this.directory, this.permission, this.service := directory, permission, service;
      this.prompts, this.oracle := prompts, oracle;
      main, backup, existed := null, null, false;
      serviceSnapshot, choice, managed := None, None, false;
      commitStarted, permissionInstalled, configCommitted, replacing := false, false, false, false;
      reloaded, published, hitched, backupInDoubt, log := false, false, false, false, [];
      var d := directory.disk;
      var content := if Files.Dest in d.entries then Some(d.data[d.entries[Files.Dest]]) else None;
      configFound, current, target := content, content, [];
      found, loadedBefore := service.state, permission.system.room.loaded;
    }

    ghost predicate Fresh()
      reads this, directory, permission, permission.system, service`state, prompts`passed, oracle`previous
    {
      && directory.Valid() && (directory.quiet ==> DestSettled(directory.disk))
      && (directory.quiet ==> Configured(directory.disk, current)) && current == configFound
      && permission.Valid() && !permission.prepared && !permission.finalized && !permission.destinationChanged
      && main == null && backup == null && serviceSnapshot == None && choice == None && !managed
      && !commitStarted && !permissionInstalled && !configCommitted
      && !reloaded && !published && !hitched && !backupInDoubt && log == [] && service.state == found
      && permission.system.room.loaded == loadedBefore && !permission.rollbackTried
      && prompts.passed == {} && oracle.previous == Unwatched
    }

    /** `t` was begun on the configuration as last loaded. */
    ghost predicate BegunOn(t: ConfigTransaction)
      reads this`current, t, directory
    {
      && t.directory == directory && t.Valid()
      && (directory.quiet ==>
            t.existed == current.Some? && (current.Some? ==> t.original == current.value))
    }

    ghost predicate ConfigSound()
      reads this`main, this`current, directory, main
    {
      directory.Valid() && (main != null ==> BegunOn(main))
    }

    ghost predicate RulesSound()
      reads this`managed, this`permissionInstalled, permission, permission.system
    {
      permission.Valid() && (permissionInstalled ==> managed) && (permission.destinationChanged ==> permissionInstalled)
    }

    ghost predicate ServiceSound()
      reads this`serviceSnapshot, service`state
    {
      if serviceSnapshot.Some? then serviceSnapshot.value == found else service.state == found
    }

    /** The configuration is durable and as it was last loaded. */
    ghost predicate Loaded()
      reads this`existed, this`current, directory
    {
      directory.quiet ==>
        && DestSettled(directory.disk) && Configured(directory.disk, current)
        && existed == current.Some?
    }

    /** The main configuration has not been published. */
    ghost predicate ConfigKept()
      reads this`main, this`current, this`published, this`backupInDoubt, directory, main
    {
      && ConfigSound() && !published && (main != null ==> !main.replaced)
      && (directory.quiet && !backupInDoubt ==> Configured(directory.disk, current))
    }

    /** No rule was changed without the session knowing. */
    ghost predicate RulesKnown()
      reads this`managed, this`permissionInstalled, permission, permission.system
    {
      && RulesSound() && !permission.finalized && (permissionInstalled <==> permission.destinationChanged)
      && (!permissionInstalled ==> permission.system.room.loaded == loadedBefore)
    }

    ghost predicate Unpublished()
      reads this, directory, main, permission, permission.system, service`state
    {
      ConfigKept() && RulesKnown() && ServiceSound()
    }

    /** No recovery has been tried and the main commit has not begun. */
    ghost predicate Before()
      reads this, directory, main, permission, permission.system, service`state
    {
      && Unpublished() && main == null && !commitStarted && !configCommitted && !reloaded
      && !permission.rollbackTried && !backupInDoubt && log == [] && Loaded()
      && (choice.Some? ==> service.packaged)
    }

    ghost predicate Stopped()
      reads this`serviceSnapshot, service`state
    {
      serviceSnapshot == Some(found) && service.state == found.(active := false)
    }

    /** Setup has changed nothing: configuration, rules, the rules udev has loaded, service. */
    ghost predicate Undone()
      reads this, directory, main, permission, permission.system, service`state
    {
      FilesUndone() && service.state == found
    }

    ghost predicate FilesUndone()
      reads this`main, this`current, this`published, this`permissionInstalled,
            directory, main, permission, permission.system
    {
      && !published && (main != null ==> !main.replaced)
      && (directory.quiet ==> Configured(directory.disk, current))
      && !permission.destinationChanged && permission.system.room.rules == permission.original
      && permission.system.room.loaded == (if permissionInstalled then permission.original else loadedBefore)
    }

    /** The service is on its way to what was chosen. */
    ghost predicate Operating()
      reads this`choice, service`state
    {
      match choice
      case None => true
      case Some(EnableAndStart) => true
      case Some(RestartNow) => service.state.enabled == found.enabled
      case Some(_) => service.state == found.(active := false)
    }

    /** The transaction of this record put `content` at the destination, and nobody but others removed it. */
    ghost predicate InPlace(content: Bytes)
      reads directory
    {
      && Seen(directory.history, 0, Publishes(content))
      && (directory.quiet ==> directory.disk.Holds(Files.Dest, content))
    }

    /** The main transaction has put the new configuration at the destination. */
    ghost predicate NewConfiguration()
      reads this`main, this`target, this`reloaded, main, directory
    {
      && main != null && main.replaced && InPlace(target)
      && (directory.quiet && reloaded ==> EntriesSynced(directory.disk))
    }

    /** The commit went through and the permission, if there is one, is installed and still provisional. */
    ghost predicate Committed()
      reads this, directory, main, permission, permission.system, service`state
    {
      && ConfigSound() && RulesSound() && serviceSnapshot == Some(found)
      && NewConfiguration() && published && commitStarted && configCommitted
      && Operating() && (choice.Some? ==> service.packaged) && log == [] && main.temporary == None
      && !permission.finalized && !permission.rollbackTried
      && managed == permissionInstalled && managed == permission.installed
    }

    /** Setup has done all it set out to do. */
    ghost predicate Completed()
      reads this, directory, main, permission, permission.system, service`state
    {
      && NewConfiguration() && reloaded && service.state == Chosen(choice, found)
      && (managed ==>
            && permission.finalized && permission.system.room.loaded == permission.system.room.rules
            && permission.system.room.rules
               == Target(permission.original, permission.destination, permission.content, permission.obsolete))
    }

    /** A committed change has been taken back: configuration, rules, the rules udev has loaded, service. */
    ghost predicate TakenBack()
      reads this, directory, main, permission, permission.system, service`state
    {
      && main != null && !main.replaced && (directory.quiet ==> Configured(directory.disk, current))
      && !permission.destinationChanged && service.state == found
      && permission.system.room.rules == permission.original
      && (permissionInstalled ==> permission.system.room.loaded == permission.original)
    }

    // -- What goes wrong ---------------------------------------------------------------

    /** Failures are only ever added. */
    twostate predicate Onwards()
      reads this, prompts, oracle, service, permission.system
    {
      && prompts.failures >= old(prompts.failures) && prompts.cancellations >= old(prompts.cancellations)
      && oracle.failures >= old(oracle.failures)
      && service.failures >= old(service.failures) && permission.system.failures >= old(permission.system.failures)
      && (old(hitched) ==> hitched)
    }

    /** No operation failed and nothing was cancelled. */
    twostate predicate Untroubled()
      reads this, prompts, oracle, service, permission.system
    {
      && prompts.failures == old(prompts.failures) && prompts.cancellations == old(prompts.cancellations)
      && oracle.failures == old(oracle.failures)
      && service.failures == old(service.failures) && permission.system.failures == old(permission.system.failures)
      && (hitched ==> old(hitched))
    }

    /** A transaction on the configuration as it was loaded, with a record of its own. */
    method Begin() returns (t: ConfigTransaction)
      requires directory.Valid() && Loaded()
      modifies directory`ledger, directory`history
      ensures fresh(t) && BegunOn(t) && t.Pristine() && t.Untouched()
      ensures directory.Valid() && directory.history == []
    {
      directory.StartRecord();
      var stamp: int := *;
      t := new ConfigTransaction(directory, existed, if stamp < 0 then 0 else stamp);
    }

    // -- Recovery ----------------------------------------------------------------------

    /** Take the configuration back. */
    method RestoreConfig(t: ConfigTransaction) returns (ok: bool, ghost result: RestoreResult)
      requires BegunOn(t)
      modifies this`log, t, directory
      ensures BegunOn(t) && log == old(log) + [ConfigStep(ok)]
      ensures ok == !t.replaced && (!old(t.replaced) ==> ok) && ok == result.Restored?
      ensures directory.quiet && FaultFree(directory.history, |old(directory.history)|) && old(t.replaced) ==>
                if t.existed then ok == old(t.backup).Some?
                else old(t.published).Some? ==> ok || result == RestoreFailed(NoFreeName)
      ensures ok && directory.quiet ==> Configured(directory.disk, current)
    {
      var r := t.Restore();
      ok, result := r.Restored?, r;
      log := log + [ConfigStep(ok)];
    }

    /** Roll the rule back, with a reconnect check where the previous profile asks for one. */
    method RollbackPermission() returns (ok: bool)
      requires permission.Valid() && permission.destinationChanged
      modifies this`log, permission, permission.system, oracle
      ensures permission.Valid() && permission.finalized == old(permission.finalized)
      ensures log == old(log) + [RuleStep(ok)] && (ok ==> PreviousSeen())
      ensures Onwards()
      ensures oracle.failures == old(oracle.failures) && permission.system.failures == old(permission.system.failures)
              ==> ok
      ensures ok ==> !permission.destinationChanged
                     && permission.system.room == Room(permission.original, permission.original, permission.others)
    {
      ok := TryRollback();
      log := log + [RuleStep(ok)];
    }

    /** The device of a profile that was to be replaced was seen again under its old rule. */
    ghost predicate PreviousSeen()
      reads this`replacing, oracle`previous
    {
      replacing ==> oracle.previous == SeenAgain
    }

    method TryRollback() returns (ok: bool)
      requires permission.Valid() && permission.destinationChanged
      modifies permission, permission.system, oracle
      ensures permission.Valid() && permission.finalized == old(permission.finalized)
      ensures Onwards()
      ensures oracle.failures == old(oracle.failures) && permission.system.failures == old(permission.system.failures)
              ==> ok
      ensures ok ==> !permission.destinationChanged
                     && permission.system.room == Room(permission.original, permission.original, permission.others)
      ensures ok ==> PreviousSeen()
      ensures replacing && oracle.previous == Unwatched ==> permission.system.room == old(permission.system.room)
    {
      if replacing {
        var monitored := oracle.MonitorPrevious(Watched);
        if !monitored {
          return false;
        }
      }
      var r := permission.Rollback();
      if r.Err? {
        return false;
      }
      ok := true;
      if replacing {
        ok := oracle.MonitorPrevious(SeenAgain);
      }
    }

    /** Give the service back as it was found; `t` is what the recovery takes back. */
    method RestoreService(ghost t: ConfigTransaction?) returns (ok: bool)
      requires serviceSnapshot == Some(found) && ServiceLeftAlone(log) && AllOk(log)
      requires (t != null ==> !t.replaced) && !permission.destinationChanged
      modifies this`log, service
      ensures Onwards()
      ensures ok <==> service.failures == old(service.failures)
      ensures ok ==> service.state == found
      ensures log == old(log) + [ServiceStep(ok, (t != null ==> !t.replaced) && !permission.destinationChanged)]
      ensures Ordered(log) && (AllOk(log) <==> ok) && !ServiceLeftAlone(log)
      ensures old(log) != [] ==> log[0] == old(log)[0]
      ensures old(FilesUndone()) ==> FilesUndone()
    {
      ok := service.Restore(serviceSnapshot.value);
      ghost var last := ServiceStep(ok, (t != null ==> !t.replaced) && !permission.destinationChanged);
      ServiceComesLast(log, last);
      log := log + [last];
    }

    /** The configuration, then the rules, each whether or not the other could be restored. */
    method RestoreFiles(t: ConfigTransaction?) returns (ok: bool)
      requires (t != null ==> BegunOn(t)) && log == []
      requires permission.Valid() && (permissionInstalled <==> permission.destinationChanged)
      modifies this`log, t, directory, permission, permission.system, oracle
      ensures (t != null ==> BegunOn(t) && (ok ==> !t.replaced) && (!old(t.replaced) ==> !t.replaced))
      ensures permission.Valid() && permission.finalized == old(permission.finalized)
      ensures ServiceLeftAlone(log) && ok == AllOk(log)
      ensures t != null && (ok || !old(t.replaced)) && directory.quiet ==> Configured(directory.disk, current)
      ensures t == null ==> directory.disk == old(directory.disk)
      ensures |log| == (if t != null then 1 else 0) + (if permissionInstalled then 1 else 0)
      ensures (t != null ==> log[0].ConfigStep?) && (permissionInstalled ==> log[|log| - 1].RuleStep?)
      ensures ok && permissionInstalled ==> PreviousSeen()
      ensures ok && permissionInstalled ==>
                permission.system.room == Room(permission.original, permission.original, permission.others)
      ensures Onwards()
      ensures (t != null ==> !t.replaced) && Untroubled() ==> ok
      ensures ok ==> !permission.destinationChanged
      ensures !permissionInstalled ==>
                permission.system.room == old(permission.system.room) && !permission.destinationChanged
                && permission.stagingPath == old(permission.stagingPath)
    {
      ok := true;
      if t != null {
        ghost var result;
        ok, result := RestoreConfig(t);
      }
      if permissionInstalled {
        var rolledBack := RollbackPermission();
        ok := rolledBack && ok;
      }
    }

    /** What `run` does on its way out before the commit. */
    method RecoverBeforeCommit() returns (recovered: bool)
      requires Unpublished() && log == []
      modifies this`log, main, directory, permission, permission.system, service, oracle
      ensures Ordered(log) && (recovered <==> AllOk(log))
      ensures ServiceLeftAlone(log) ==> service.state == old(service.state)
      ensures recovered && !backupInDoubt ==> Undone()
      ensures commitStarted && main != null <==> log != [] && log[0].ConfigStep?
      ensures main != null ==> !main.replaced
      ensures permission.Valid() && Onwards() && (Untroubled() ==> recovered)
      ensures recovered && permissionInstalled ==>
                permission.system.room.staging == permission.others && PreviousSeen()
      ensures !permissionInstalled ==>
                permission.system.room == old(permission.system.room)
                && permission.stagingPath == old(permission.stagingPath)
    {
      recovered := RecoverFiles();
      if serviceSnapshot.Some? && recovered {
        recovered := RestoreService(main);
      }
    }

    /** Its first half; a configuration is only restored once its commit had begun. */
    method RecoverFiles() returns (ok: bool)
      requires Unpublished() && log == []
      modifies this`log, main, directory, permission, permission.system, oracle
      ensures ServiceLeftAlone(log) && ok == AllOk(log)
      ensures main != null ==> !main.replaced
      ensures permission.Valid() && Onwards() && (Untroubled() ==> ok) && (ok ==> !permission.destinationChanged)
      ensures commitStarted && main != null <==> log != [] && log[0].ConfigStep?
      ensures ok && !backupInDoubt ==> FilesUndone()
      ensures ok && permissionInstalled ==> permission.system.room.staging == permission.others && PreviousSeen()
      ensures !permissionInstalled ==>
                permission.system.room == old(permission.system.room)
                && permission.stagingPath == old(permission.stagingPath)
    {
      ok := RestoreFiles(if commitStarted then main else null);
    }

    /** Take back a committed change: configuration, then rules, and only then the service. */
    method RestoreCommittedState(t: ConfigTransaction) returns (recovered: bool)
      requires BegunOn(t) && serviceSnapshot == Some(found) && log == []
      requires permission.Valid() && !permission.finalized && (permissionInstalled <==> permission.destinationChanged)
      modifies this`log, t, directory, permission, permission.system, service, oracle
      ensures BegunOn(t) && permission.Valid() && !permission.finalized
      ensures Ordered(log) && (recovered <==> AllOk(log))
      ensures Onwards()
      ensures !t.replaced && Untroubled() ==> recovered
      ensures ServiceLeftAlone(log) ==> service.state == old(service.state)
      ensures recovered ==> !t.replaced && !permission.destinationChanged && service.state == found
      ensures recovered && directory.quiet ==> Configured(directory.disk, current)
      ensures !permissionInstalled ==>
                !permission.destinationChanged && permission.system.room == old(permission.system.room)
                && permission.stagingPath == old(permission.stagingPath)
      ensures recovered && permissionInstalled ==> PreviousSeen()
      ensures recovered && permissionInstalled ==>
                permission.system.room == Room(permission.original, permission.original, permission.others)
    {
      recovered := RestoreFiles(t);
      if !recovered {
        return;
      }
      recovered := RestoreService(t);
    }

    // -- After the commit --------------------------------------------------------------

    method ServiceOperation() returns (ok: bool)
      requires Committed()
      modifies service
      ensures Onwards()
      ensures ok <==> service.failures == old(service.failures)
      ensures Committed() && (ok ==> service.state == Chosen(choice, found))
    {
      if choice.Some? {
        ok := service.Apply(choice.value);
      } else {
        ok := service.Restore(serviceSnapshot.value);
      }
    }

    /** Keep the rule for good.  A committed configuration has no temporary file left to finalize. */
    method FinalizeSuccess() returns (e: Ending)
      requires Committed() && reloaded && service.state == Chosen(choice, found)
      modifies permission, permission.system, service`failures
      ensures e in {Returned(0), Failed} && Onwards()
      ensures e == Returned(0) <==> service.failures == old(service.failures)
      ensures permission.system.failures == old(permission.system.failures)
      ensures e == Returned(0) ==> Completed()
    {
      var state := service.Snapshot();
      if state == None {
        return Failed;
      }
      if managed {
        var _ := permission.Finalize();
      }
      return Returned(0);
    }

    method ObserveServiceState()
      modifies service`failures
      ensures Onwards()
    {
      var _ := service.Snapshot();
    }

    method ChoosePostCommitRecovery(patience: nat, canRetry: bool) returns (a: Answer)
      requires canRetry <==> reloaded
      ensures patience == 0 ==> a !in {Retry, Unsupported}
    {
      var retry: bool := *;
      var exit: bool := *;
      var restore: bool := *;
      var cancel: bool := *;
      if patience > 0 {
        var odd: bool := *;
        if odd {
          return if retry then Retry else Unsupported;
        }
      }
      return if exit then ExitRequested else if restore then RestoreAll else if cancel then Cancel else PromptError;
    }

    /** Everything back to where it was before the commit. */
    method TakeBack()
      requires Committed()
      modifies this`log, main, directory, permission, permission.system, service, oracle
      ensures Onwards()
      ensures Ordered(log) && (AllOk(log) ==> TakenBack())
    {
      var _ := RestoreCommittedState(main);
    }

    /** Try the service once more; None: it failed again. */
    method RetryService() returns (e: Option<Ending>)
      requires Committed() && reloaded
      modifies permission, permission.system, service
      ensures Onwards()
      ensures e == None ==> Committed()
      ensures e.Some? ==> e.value in {Returned(0), Failed} && (e.value == Returned(0) ==> Completed())
      ensures e == None ==> service.failures > old(service.failures)
    {
      var ok := ServiceOperation();
      if ok {
        var ending := FinalizeSuccess();
        return Some(ending);
      }
      ObserveServiceState();
      e := None;
    }

    /** How setup can end once the configuration may have been published. */
    ghost predicate AfterCommit(e: Ending, answer: Option<Answer>)
      reads this, directory, main, permission, permission.system, service`state
    {
      && Ordered(log)
      && match e
         case Returned(code) =>
           if code == 0 then Completed()
           else
             && code == 1 && answer in {Some(ExitRequested), Some(RestoreAll), Some(Cancel)}
             && (if answer == Some(Cancel) then LeftCommitted() else AllOk(log) ==> TakenBack())
         case Failed => answer in {None, Some(Retry), Some(PromptError)}
         case _ => false
    }

    /** The new configuration and the rule are left in place. */
    ghost predicate LeftCommitted()
      reads this, directory, main, permission
    {
      NewConfiguration() && log == [] && permission.destinationChanged == permissionInstalled
    }

    /** Do what the user asked for; None: ask again. */
    method Follow(a: Answer, canRetry: bool) returns (e: Option<Ending>)
      requires Committed() && (canRetry <==> reloaded)
      modifies this`log, main, directory, permission, permission.system, service, oracle
      ensures Onwards()
      ensures if e.Some? then AfterCommit(e.value, Some(a)) else Committed() && a in {Retry, Unsupported}
      ensures e == None && a == Retry && canRetry ==> service.failures > old(service.failures)
    {
      match a {
        case ExitRequested | RestoreAll =>
          TakeBack();
          return Some(Returned(1));
        case Cancel => return Some(Returned(1));
        case PromptError => return Some(Failed);
        case Retry =>
          if canRetry {
            e := RetryService();
          } else {
            return None;
          }
        case Unsupported => return None;
      }
    }

    /** The user chooses between trying the service again, taking everything back, and leaving. */
    method RecoverAfterCommit(canRetry: bool) returns (e: Ending, ghost answer: Answer)
      requires Committed() && (canRetry <==> reloaded)
      modifies this`log, main, directory, permission, permission.system, service, oracle
      ensures Onwards()
      ensures AfterCommit(e, Some(answer))
    {
      ObserveServiceState();
      e, answer := Dialogue(canRetry);
    }

    method Dialogue(canRetry: bool) returns (e: Ending, ghost answer: Answer)
      requires Committed() && (canRetry <==> reloaded)
      modifies this`log, main, directory, permission, permission.system, service, oracle
      ensures Onwards()
      ensures AfterCommit(e, Some(answer))
    {
      var patience: int := *;
      while true
        invariant Committed() && Onwards()
        decreases patience
      {
        var a := ChoosePostCommitRecovery(if patience > 0 then patience else 0, canRetry);
        var ended := Follow(a, canRetry);
        if ended.Some? {
          return ended.value, a;
        }
        patience := patience - 1;
      }
    }

    /** A backup restore that failed past its own commit, before anything but the service was touched. */
    ghost predicate BackupPublished()
      reads this, directory, main, backup, permission, permission.system, service`state
    {
      && Unpublished() && Stopped() && main == null && !permissionInstalled && log == [] && backupInDoubt && !reloaded
      && backup != null && BegunOn(backup) && backup.replaced
    }

    /** How the offer of the backups can end. */
    ghost predicate BackupOffered(e: Ending, answer: Option<Answer>)
      reads this, directory, main, backup, permission, permission.system, service`state
    {
      && Unpublished() && main == null && Ordered(log)
      && match e
         case Onward => Before() && Stopped() && !managed && answer == None
         case SetupCancelled => log == [] && !backupInDoubt && answer == None
         case Failed => log == [] && answer in {None, Some(PromptError)}
         case Returned(code) =>
           && code == 1 && backupInDoubt && answer in {Some(ExitRequested), Some(RestoreAll), Some(Cancel)}
           && (answer != Some(Cancel) && AllOk(log) ==> backup != null && !backup.replaced && Undone())
    }

    method TakeBackupBack()
      requires BackupPublished()
      modifies this`log, backup, directory, permission, permission.system, service, oracle
      ensures Onwards()
      ensures Unpublished() && Ordered(log) && (AllOk(log) ==> !backup.replaced && Undone())
    {
      var _ := RestoreCommittedState(backup);
    }

    /** The same dialogue for a backup restore that failed past its own commit. */
    method RecoverBackup() returns (e: Ending, ghost answer: Answer)
      requires BackupPublished()
      modifies this`log, backup, directory, permission, permission.system, service, oracle
      ensures Onwards()
      ensures BackupOffered(e, Some(answer)) && e in {Returned(1), Failed} && backupInDoubt
      ensures answer == Cancel ==> backup.replaced && log == []
    {
      ObserveServiceState();
      e, answer := BackupDialogue();
    }

    method BackupDialogue() returns (e: Ending, ghost answer: Answer)
      requires BackupPublished()
      modifies this`log, backup, directory, permission, permission.system, service, oracle
      ensures Onwards()
      ensures BackupOffered(e, Some(answer)) && e in {Returned(1), Failed} && backupInDoubt
      ensures answer == Cancel ==> backup.replaced && log == []
    {
      var patience: int := *;
      while true
        invariant BackupPublished() && Onwards()
        decreases patience
      {
        var a := ChoosePostCommitRecovery(if patience > 0 then patience else 0, false);
        if a !in {Retry, Unsupported} {
          e := FollowBackup(a);
          return e, a;
        }
        patience := patience - 1;
      }
    }

    method FollowBackup(a: Answer) returns (e: Ending)
      requires BackupPublished() && a !in {Retry, Unsupported}
      modifies this`log, backup, directory, permission, permission.system, service, oracle
      ensures Onwards()
      ensures BackupOffered(e, Some(a)) && e in {Returned(1), Failed} && backupInDoubt
      ensures a == Cancel ==> backup.replaced && log == []
    {
      match a {
        case ExitRequested | RestoreAll =>
          TakeBackupBack();
          e := Returned(1);
        case Cancel => e := Returned(1);
        case PromptError => e := Failed;
      }
    }

    // -- The steps of `run` ------------------------------------------------------------

    method LoadAndStop() returns (e: Ending)
      requires Fresh()
      modifies this`existed, this`serviceSnapshot, service, oracle`failures
      ensures Onwards()
      ensures e == Onward <==> Untroubled()
      ensures Unpublished() && main == null && log == [] && !backupInDoubt && !managed && !permission.prepared
      ensures e in {Onward, Failed} && !configCommitted && (e == Onward ==> Before() && Stopped())
    {
      var loaded := oracle.Try();
      if !loaded {
        return Failed;
      }
      existed := Files.Dest in directory.disk.entries;
      serviceSnapshot := service.Snapshot();
      if serviceSnapshot == None {
        return Failed;
      }
      var stopped := service.StopForSetup(serviceSnapshot.value);
      return if stopped then Onward else Failed;
    }

    /** Offer the backups; a restored one stays restored whatever happens later. */
    method RestoreABackup() returns (e: Ending, ghost answer: Option<Answer>)
      requires Before() && Stopped() && !managed && !permission.prepared && backup == null
      modifies this`backup, this`existed, this`current, this`backupInDoubt, this`hitched, this`log,
               directory, permission, permission.system, service,
               oracle, prompts`failures, prompts`cancellations, prompts`wanted
      ensures Onwards()
      ensures Untroubled() && !hitched ==> e == Onward
      ensures prompts.cancellations == old(prompts.cancellations) + (if e == SetupCancelled then 1 else 0)
      ensures BackupOffered(e, answer) && (e == Onward ==> !permission.prepared)
      ensures current == old(current) || (backup != null && backup.replaced)
      ensures current == old(current) || (backup != null && current == prompts.wanted)
      ensures e == Onward ==> LoadedAsAsked(old(current))
      ensures backup != null ==> prompts.wanted.Some?
      ensures e == Onward ==> oracle.failures == old(oracle.failures)
    {
      answer := None;
      var content;
      e, content := prompts.ChooseBackup();
      if e != Onward || content == None {
        return;
      }
      var available := oracle.Try();
      if !available {
        return Failed, None;
      }
      e, answer := UseBackup(content.value);
    }

    method UseBackup(content: Bytes) returns (e: Ending, ghost answer: Option<Answer>)
      requires Before() && Stopped() && !managed && !permission.prepared && backup == null
      modifies this`backup, this`existed, this`current, this`backupInDoubt, this`hitched, this`log,
               directory, permission, permission.system, service, oracle
      ensures Onwards()
      ensures (Untroubled() && !hitched ==> e == Onward) && e != SetupCancelled
      ensures BackupOffered(e, answer) && (e == Onward ==> !permission.prepared && current == Some(content))
      ensures current == old(current) || (backup != null && backup.replaced && current == Some(content))
      ensures e == Onward ==> oracle.failures == old(oracle.failures)
    {
      var ended := TryBackup(content);
      if ended.Some? {
        return ended.value, None;
      }
      ghost var a;
      e, a := RecoverBackup();
      answer := Some(a);
    }

    /** Put a backup in place and load it; None: it may be there although that failed. */
    method TryBackup(content: Bytes) returns (e: Option<Ending>)
      requires Before() && Stopped() && !managed && !permission.prepared && backup == null
      modifies this`backup, this`existed, this`current, this`backupInDoubt, this`hitched, directory,
               oracle`failures
      ensures Onwards() && (Untroubled() && !hitched ==> e == Some(Onward))
      ensures match e
              case None => BackupPublished()
              case Some(Onward) => Before() && Stopped() && current == Some(content)
              case Some(other) => other == Failed && Unpublished() && main == null && log == []
      ensures current == old(current) || (e.Some? && backup != null && backup.replaced && current == Some(content))
      ensures fresh(backup) && backup != null
      ensures e == Some(Onward) ==> oracle.failures == old(oracle.failures)
    {
      var r := CommitBackup(content);
      if r == CommitFailed(true) {
        return None;
      }
      var ending := ReloadBackup(r);
      e := Some(ending);
    }

    /** A restored backup is loaded. */
    method ReloadBackup(r: CommitResult) returns (e: Ending)
      requires ConfigKept() && main == null && !backupInDoubt
      requires r.Committed? && directory.quiet ==> DestSettled(directory.disk)
      modifies this`existed, oracle`failures
      ensures ConfigKept() && Onwards() && e in {Onward, Failed}
      ensures e == Onward ==> r.Committed? && Loaded()
      ensures r.Committed? && oracle.failures == old(oracle.failures) ==> e == Onward
      ensures e == Onward ==> oracle.failures == old(oracle.failures)
    {
      if !r.Committed? {
        return Failed;
      }
      var loaded := oracle.Try();
      existed := Files.Dest in directory.disk.entries;
      return if loaded then Onward else Failed;
    }

    /** Commit a transaction just begun. */
    method CommitOn(t: ConfigTransaction, content: Bytes) returns (r: CommitResult)
      requires BegunOn(t) && t.Pristine() && t.Untouched() && directory.history == []
      modifies t, directory, this`hitched, oracle`failures
      ensures Onwards()
      ensures hitched == (old(hitched) || !Smooth(directory.history, 0))
      ensures r.Committed? || oracle.failures > old(oracle.failures) || !Smooth(directory.history, 0)
      ensures BegunOn(t) && t.temporary == None
      ensures if r.Committed? then t.replaced else r == CommitFailed(t.replaced)
      ensures t.replaced ==> InPlace(content)
      ensures r.Committed? && directory.quiet ==> EntriesSynced(directory.disk) && DestSettled(directory.disk)
      ensures !t.replaced && directory.quiet ==> Configured(directory.disk, current)
      ensures r.Committed? ==> oracle.failures == old(oracle.failures)
    {
      var valid := oracle.Try();
      r := t.Commit(content, valid);
      hitched := hitched || !Smooth(directory.history, 0);
    }

    /** Put a backup's bytes at the destination. */
    method CommitBackup(content: Bytes) returns (r: CommitResult)
      requires ConfigKept() && Loaded() && main == null && !backupInDoubt
      modifies this`backup, this`backupInDoubt, this`current, this`hitched, directory, oracle`failures
      ensures Onwards()
      ensures oracle.failures == old(oracle.failures) && !hitched ==> r.Committed?
      ensures ConfigKept() && fresh(backup) && backup != null && (!r.Committed? ==> BegunOn(backup))
      ensures backupInDoubt == (r == CommitFailed(true))
      ensures if r.Committed? then backup.replaced else r == CommitFailed(backup.replaced)
      ensures current == if r.Committed? then Some(content) else old(current)
      ensures r.Committed? && directory.quiet ==> DestSettled(directory.disk)
      ensures r.Committed? ==> oracle.failures == old(oracle.failures)
    {
      backup := Begin();
      r := CommitOn(backup, content);
      backupInDoubt := !r.Committed? && r.potentiallyCommitted;
      if r.Committed? {
        current := Some(content);
      }
    }

    /** The staging directory holds files of the permission transaction. */
    ghost predicate Staged()
      reads permission.system
    {
      permission.system.room.staging != permission.others
    }

    /** A rule was installed only after its commands were confirmed, with its device being watched. */
    ghost predicate RuleAgreed()
      reads this`permissionInstalled, prompts`passed
    {
      permissionInstalled ==> {RuleConfirmed, Monitored} <= prompts.passed
    }

    /** Nothing was changed without consent, nor committed without the device seen under its new rule. */
    ghost predicate Agreed()
      reads this`permissionInstalled, this`backup, this`published, this`managed, prompts`passed, prompts`wanted
    {
      && RuleAgreed() && (backup != null ==> prompts.wanted.Some?)
      && (published ==> CommitAgreed())
    }

    ghost predicate CommitAgreed()
      reads this`managed, prompts`passed
    {
      ConfigConfirmed in prompts.passed && (managed ==> Reconnected in prompts.passed)
    }

    /** The service and the rule are as the person wanted them. */
    ghost predicate AsAsked()
      reads this`choice, this`managed, prompts`chosen, prompts`manage
    {
      choice == (if service.packaged then prompts.chosen else None) && managed == prompts.manage
    }

    /** Setup went on from the backup the person wanted, if any. */
    ghost predicate LoadedAsAsked(before: Option<Bytes>)
      reads this`current, prompts`wanted
    {
      current == if prompts.wanted.Some? then prompts.wanted else before
    }

    /** Show the commands, install the rule, and check the device that comes back. */
    method InstallPermission() returns (e: Ending)
      requires RulesKnown() && !managed && !permission.prepared && !permissionInstalled && !permission.rollbackTried
      modifies this`managed, this`permissionInstalled, permission, permission.system,
               prompts`failures, prompts`cancellations, prompts`passed
      ensures Onwards()
      ensures Untroubled() ==> e == Onward
      ensures prompts.cancellations == old(prompts.cancellations) + (if e == SetupCancelled then 1 else 0)
      ensures RulesKnown() && !permission.rollbackTried && e in {Onward, SetupCancelled, Failed}
      ensures e == Onward ==> managed && permissionInstalled && permission.installed
      ensures e == SetupCancelled && managed && !permissionInstalled ==> Staged()
      ensures RuleAgreed() && (e == Onward ==> Reconnected in prompts.passed)
    {
      e := prompts.Consult();
      if e != Onward {
        return;
      }
      managed := true;
      e := PrepareRule();
      if e != Onward {
        return;
      }
      e := InstallRule();
      if e != Onward {
        return;
      }
      e := prompts.Ask(Reconnected);
    }

    /** Stage the rule, have it confirmed, and start watching for the reconnect. */
    method PrepareRule() returns (e: Ending)
      requires RulesKnown() && managed && !permission.prepared && !permissionInstalled && !permission.rollbackTried
      modifies permission, permission.system, prompts`failures, prompts`cancellations, prompts`passed
      ensures Onwards()
      ensures Untroubled() ==> e == Onward
      ensures prompts.cancellations == old(prompts.cancellations) + (if e == SetupCancelled then 1 else 0)
      ensures RulesKnown() && !permission.rollbackTried && !permission.installed
      ensures e in {Onward, SetupCancelled, Failed}
      ensures e == SetupCancelled ==> Staged()
      ensures e == Onward ==> {RuleConfirmed, Monitored} <= prompts.passed
    {
      var prepared := permission.Prepare();
      if prepared.Err? {
        return Failed;
      }
      e := prompts.Ask(RuleConfirmed);
      if e != Onward {
        return;
      }
      var monitored := prompts.Monitor();
      return if monitored then Onward else Failed;
    }

    method InstallRule() returns (e: Ending)
      requires RulesKnown() && managed && !permissionInstalled && !permission.rollbackTried
      modifies this`permissionInstalled, permission, permission.system
      ensures Onwards()
      ensures permission.system.failures == old(permission.system.failures) ==> e == Onward
      ensures RulesKnown() && !permission.rollbackTried && e in {Onward, Failed}
      ensures e == Onward ==> permissionInstalled && permission.installed
    {
      var r := permission.Install();
      permissionInstalled := r.Ok? || permission.destinationChanged;
      return if r.Ok? then Onward else Failed;
    }

    /** Capture, validate, confirm, and choose what becomes of the service. */
    method Propose() returns (e: Ending)
      modifies this`choice, prompts`failures, prompts`cancellations, prompts`passed, prompts`chosen
      ensures Onwards()
      ensures e == Onward ==> choice == if service.packaged then prompts.chosen else None
      ensures (Untroubled() ==> e == Onward) && (choice == old(choice) || choice == None || service.packaged)
      ensures prompts.cancellations == old(prompts.cancellations) + (if e == SetupCancelled then 1 else 0)
      ensures e in {Onward, SetupCancelled, Failed} && (e == Onward ==> ConfigConfirmed in prompts.passed)
      ensures old(prompts.passed) <= prompts.passed
    {
      e := prompts.Ask(ConfigConfirmed);
      if e != Onward {
        return;
      }
      if service.packaged {
        var c;
        e, c := prompts.ChooseService();
        choice := Some(c);
      } else {
        choice := None;
      }
    }

    /** The commit of the main transaction. */
    method CommitMain(content: Bytes) returns (r: CommitResult)
      requires ConfigKept() && Loaded() && main == null && !backupInDoubt && !reloaded && !configCommitted
      modifies this`main, this`target, this`published, this`commitStarted, this`configCommitted, this`hitched,
               directory, oracle`failures
      ensures current == old(current) && backup == old(backup)
      ensures Onwards()
      ensures oracle.failures == old(oracle.failures) && !hitched ==> r.Committed?
      ensures commitStarted && main != null && fresh(main) && main.temporary == None && ConfigSound()
      ensures published == main.replaced == configCommitted
      ensures if r.Committed? then main.replaced else r == CommitFailed(main.replaced)
      ensures if main.replaced then NewConfiguration() else ConfigKept()
      ensures r.Committed? && directory.quiet ==> EntriesSynced(directory.disk)
    {
      BeginMain(content);
      r := CommitOn(main, content);
      NoteCommit();
    }

    method BeginMain(content: Bytes)
      requires directory.Valid() && Loaded()
      modifies this`main, this`target, this`commitStarted, directory`ledger, directory`history
      ensures fresh(main) && main != null && BegunOn(main) && main.Pristine() && main.Untouched()
      ensures commitStarted && target == content && directory.Valid() && directory.history == []
    {
      main := Begin();
      commitStarted := true;
      target := content;
    }

    method NoteCommit()
      requires ConfigSound() && main != null && !published && !configCommitted && !reloaded
      requires if main.replaced then InPlace(target) else directory.quiet ==> Configured(directory.disk, current)
      modifies this`published, this`configCommitted
      ensures published == main.replaced == configCommitted && ConfigSound()
      ensures if main.replaced then NewConfiguration() else ConfigKept()
    {
      published := main.replaced;
      configCommitted := main.replaced;
    }

    /** Operate the service as chosen, and finalize. */
    method OperateReloaded() returns (e: Ending, ghost answer: Option<Answer>)
      requires Committed() && reloaded
      modifies this`log, main, directory, permission, permission.system, service, oracle
      ensures Onwards()
      ensures Untroubled() ==> e == Returned(0)
      ensures AfterCommit(e, answer)
    {
      answer := None;
      var operated := ServiceOperation();
      if !operated {
        ghost var a;
        e, a := RecoverAfterCommit(true);
        return e, Some(a);
      }
      e := FinalizeSuccess();
    }

    /** Load what was committed, operate the service, and finalize. */
    method Operate() returns (e: Ending, ghost answer: Option<Answer>)
      requires Committed() && !reloaded && (directory.quiet ==> EntriesSynced(directory.disk))
      modifies this`reloaded, this`log, main, directory, permission, permission.system, service,
               oracle
      ensures Onwards()
      ensures Untroubled() ==> e == Returned(0)
      ensures AfterCommit(e, answer)
    {
      reloaded := oracle.Try();
      if !reloaded {
        ghost var a;
        e, a := RecoverAfterCommit(false);
        return e, Some(a);
      }
      e, answer := OperateReloaded();
    }

    /** Once the configuration may have been published. */
    method GoOn(r: CommitResult) returns (e: Ending, ghost answer: Option<Answer>)
      requires Committed() && !reloaded
      requires r.Committed? && directory.quiet ==> EntriesSynced(directory.disk)
      modifies this`reloaded, this`log, main, directory, permission, permission.system, service,
               oracle
      ensures current == old(current) && backup == old(backup)
      ensures Onwards()
      ensures Untroubled() && r.Committed? ==> e == Returned(0)
      ensures AfterCommit(e, answer)
    {
      if r.Committed? {
        e, answer := Operate();
      } else {
        ghost var a;
        e, a := RecoverAfterCommit(false);
        answer := Some(a);
      }
    }

    method CommitAndOperate() returns (e: Ending, ghost answer: Option<Answer>)
      requires Before() && Stopped() && managed == permissionInstalled && managed == permission.installed
      modifies this`main, this`target, this`published, this`commitStarted, this`configCommitted, this`reloaded,
               this`hitched, this`log, directory, permission, permission.system, service,
               oracle
      ensures current == old(current) && backup == old(backup)
      ensures Onwards()
      ensures Untroubled() && !hitched ==> e == Returned(0)
      ensures e != SetupCancelled
      ensures if configCommitted then published && AfterCommit(e, answer)
              else e == Failed && Unpublished() && log == [] && answer == None
      ensures main != null ==> fresh(main)
    {
      var r := CommitNow();
      if r == CommitFailed(false) {
        return Failed, None;
      }
      e, answer := GoOn(r);
    }

    method CommitNow() returns (r: CommitResult)
      requires Before() && Stopped() && managed == permissionInstalled && managed == permission.installed
      modifies this`main, this`target, this`published, this`commitStarted, this`configCommitted, this`hitched,
               directory, oracle`failures
      ensures current == old(current) && backup == old(backup)
      ensures Onwards() && main != null && fresh(main)
      ensures Untroubled() && !hitched ==> r.Committed?
      ensures r.Committed? && directory.quiet ==> EntriesSynced(directory.disk)
      ensures if r == CommitFailed(false) then Unpublished() && !configCommitted else Committed()
    {
      var content: Bytes := *;
      r := CommitMain(content);
    }

    /** The proposal ends before its commit, or once the configuration may have been published. */
    ghost predicate Proposed(e: Ending, answer: Option<Answer>)
      reads this, directory, main, permission, permission.system, service`state
    {
      if configCommitted then published && AfterCommit(e, answer)
      else
        && e in {SetupCancelled, Failed} && Unpublished() && log == [] && answer in {None, Some(PromptError)}
        && (e == SetupCancelled ==> !backupInDoubt && (managed && !permissionInstalled ==> Staged()))
    }

    /** Setup ends with the offer of the backups or with the proposal. */
    ghost predicate Attempted(e: Ending, answer: Option<Answer>)
      reads this, directory, main, backup, permission, permission.system, service`state
    {
      if !configCommitted && e.Returned? then BackupOffered(e, answer) else Proposed(e, answer)
    }

    /** Everything is in place to choose what to propose. */
    ghost predicate Ready()
      reads this, directory, main, permission, permission.system, service`state
    {
      Before() && Stopped() && !managed && !permission.prepared
    }

    lemma ProposalEnds(e: Ending)
      requires Unpublished() && log == [] && !configCommitted && !backupInDoubt && e in {SetupCancelled, Failed}
      requires e == SetupCancelled && managed && !permissionInstalled ==> Staged()
      ensures Proposed(e, None)
    {
    }

    lemma OfferEnds(e: Ending, answer: Option<Answer>)
      requires BackupOffered(e, answer) && e != Onward && !configCommitted && !(managed && !permissionInstalled)
      ensures Attempted(e, answer) && e != Returned(0)
    {
    }

    /** The body of `run` up to and including its commit. */
    method Attempt() returns (e: Ending, ghost answer: Option<Answer>)
      requires Fresh()
      modifies this, directory, permission, permission.system, service, oracle, prompts
      ensures Onwards()
      ensures Untroubled() ==> e == Returned(0)
      ensures e == Returned(0) ==> AsAsked() && LoadedAsAsked(configFound)
      ensures Agreed()
      ensures prompts.cancellations == old(prompts.cancellations) + (if e == SetupCancelled then 1 else 0)
      ensures Attempted(e, answer)
      ensures current == configFound || (backup != null && current == prompts.wanted)
      ensures main != null ==> fresh(main)
    {
      answer := None;
      e := LoadAndStop();
      if e != Onward {
        return;
      }
      e, answer := OfferAndPropose();
    }

    /** Everything once the service has been stopped. */
    method OfferAndPropose() returns (e: Ending, ghost answer: Option<Answer>)
      requires Before() && Stopped() && !managed && !permission.prepared && backup == null
      modifies this, directory, permission, permission.system, service, oracle, prompts
      ensures Onwards()
      ensures Untroubled() && !hitched ==> e == Returned(0)
      ensures e == Returned(0) ==> choice == (if service.packaged then prompts.chosen else None)
      ensures e == Returned(0) ==> managed == prompts.manage
      ensures e == Returned(0) ==> current == if prompts.wanted.Some? then prompts.wanted else old(current)
      ensures Agreed()
      ensures prompts.cancellations == old(prompts.cancellations) + (if e == SetupCancelled then 1 else 0)
      ensures Attempted(e, answer)
      ensures current == old(current) || (backup != null && current == prompts.wanted)
      ensures main != null ==> fresh(main)
    {
      e, answer := RestoreABackup();
      if e == Onward {
        e, answer := ProposeAndCommit();
      } else {
        OfferEnds(e, answer);
      }
    }

    method ProposeAndCommit() returns (e: Ending, ghost answer: Option<Answer>)
      requires Ready()
      modifies this`managed, this`permissionInstalled, this`choice, this`replacing, this`main, this`target,
               this`published, this`commitStarted, this`configCommitted, this`reloaded, this`hitched, this`log,
               directory, permission, permission.system, service, oracle, prompts
      ensures Onwards() && prompts.wanted == old(prompts.wanted)
      ensures current == old(current) && backup == old(backup)
      ensures Untroubled() && !hitched ==> e == Returned(0)
      ensures e == Returned(0) ==> choice == (if service.packaged then prompts.chosen else None)
      ensures e == Returned(0) ==> managed == prompts.manage
      ensures RuleAgreed() && (published ==> CommitAgreed())
      ensures prompts.cancellations == old(prompts.cancellations) + (if e == SetupCancelled then 1 else 0)
      ensures Proposed(e, answer) && (main != null ==> fresh(main))
    {
      answer := None;
      e := MakeReady();
      if e == Onward {
        e, answer := CommitAndOperate();
      }
    }

    /** What there is to commit is decided, or setup ends here. */
    method MakeReady() returns (e: Ending)
      requires Ready()
      modifies this`managed, this`permissionInstalled, this`choice, this`replacing, permission, permission.system,
               prompts
      ensures current == old(current) && backup == old(backup) && prompts.wanted == old(prompts.wanted)
      ensures Onwards() && (Untroubled() ==> e == Onward)
      ensures prompts.cancellations == old(prompts.cancellations) + (if e == SetupCancelled then 1 else 0)
      ensures e == Onward ==> choice == (if service.packaged then prompts.chosen else None)
      ensures RuleAgreed() && (e == Onward ==> managed == prompts.manage && CommitAgreed())
      ensures if e != Onward then Proposed(e, None)
              else Before() && Stopped() && managed == permissionInstalled && managed == permission.installed
    {
      e := ChooseAndConfirm();
      if e != Onward {
        ProposalEnds(e);
      }
    }

    /** Between the backups and the commit: the rule, if it is to be managed, and the proposal. */
    method ChooseAndConfirm() returns (e: Ending)
      requires RulesKnown() && !managed && !permission.prepared && !permissionInstalled && !permission.rollbackTried
      modifies this`managed, this`permissionInstalled, this`choice, this`replacing,
               permission, permission.system,
               prompts
      ensures current == old(current) && backup == old(backup) && prompts.wanted == old(prompts.wanted)
      ensures Onwards()
      ensures (Untroubled() ==> e == Onward) && (choice == old(choice) || choice == None || service.packaged)
      ensures prompts.cancellations == old(prompts.cancellations) + (if e == SetupCancelled then 1 else 0)
      ensures RulesKnown() && !permission.rollbackTried && e in {Onward, SetupCancelled, Failed}
      ensures e == Onward ==> managed == permissionInstalled && managed == permission.installed
      ensures RuleAgreed()
      ensures e == Onward ==> AsAsked() && CommitAgreed()
      ensures e == SetupCancelled && managed && !permissionInstalled ==> Staged()
    {
      var manage;
      e, replacing, manage := prompts.ChooseOperation();
      if e != Onward {
        return;
      }
      if manage {
        e := InstallPermission();
        if e != Onward {
          return;
        }
      }
      e := Propose();
    }

    /**
     Setup succeeds only by completing everything, or by a cancellation that left nothing changed.  Until the
     configuration was ever replaced, nothing is left changed unless a recovery operation itself failed or a
     backup restore was left in doubt.
     */
    method Run() returns (code: int, ghost ending: Ending, ghost answer: Option<Answer>)
      requires Fresh()
      modifies this, directory, permission, permission.system, service, oracle, prompts
      ensures code in {0, 1}
      ensures Untroubled() ==> ending == Returned(0) && Completed()
      ensures ending == Returned(0) ==>
                AsAsked() && LoadedAsAsked(configFound)
      ensures Agreed()
      ensures code == 0 <==> ending == Returned(0) || (ending == SetupCancelled && AllOk(log))
      ensures ending == SetupCancelled <==> prompts.cancellations > old(prompts.cancellations)
      ensures code == 0 ==> (ending == Returned(0) && Completed()) || (ending == SetupCancelled && Undone())
      ensures !published && AllOk(log) && !backupInDoubt ==> Undone()
      ensures code == 1 && answer in {Some(RestoreAll), Some(ExitRequested)} && AllOk(log) ==>
                if published then TakenBack() else backup != null && !backup.replaced && Undone()
      ensures Ordered(log)
      ensures current == configFound || (backup != null && current == prompts.wanted)
      ensures code == 0 && ending == SetupCancelled && permissionInstalled ==> PreviousSeen()
      ensures code == 0 && ending == SetupCancelled && managed ==> (Staged() <==> !permissionInstalled)
    {
      ghost var a;
      var e;
      e, a := Attempt();
      ending, answer := e, a;
      if e.Returned? {
        return e.code, e, a;
      }
      if configCommitted {
        return 1, e, a;
      }
      var recovered := RecoverBeforeCommit();
      code := if recovered && e == SetupCancelled then 0 else 1;
    }
  }
}
