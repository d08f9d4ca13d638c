# Input action controller: a verified model

Input action controller is a daemon that reads HID and evdev devices and runs an on command or an off
command for each configured action, together with a guided setup that writes its configuration. This
project models the program's state machines and transactions in Dafny and proves what they promise:
for every interleaving, every fault pattern and every input, not for chosen runs.

## What is modelled

| file | what it holds |
|---|---|
| `Actions.dfy`, `ActionProtocol.dfy` | The action controller: its await-free segments, every interleaving of them, the sequential reading its worker refines, and two models of the controlled application |
| `Files.dfy`, `ConfigTransactions.dfy` | One directory shared with another process, durable and volatile, and the transaction that publishes a configuration, backs up, rolls back and quarantines |
| `Runner.dfy`, `RunnerProtocol.dfy`, `RunnerHistory.dfy`, `RunnerShutdown.dfy`, `CommandRunner.dfy` | The command runner: launches, shared cleanups with shrinking deadlines, cancellation and shutdown; what each call answers, read off the events alone; how a shutdown reaches every process; the object whose methods are its steps |
| `Discovery.dfy`, `Selectors.dfy` | Resolving profiles to devices, and proposing the selectors by which a new profile knows its device |
| `Manager.dfy`, `ManagerProtocol.dfy`, `ManagerConvergence.dfy`, `ManagerTermination.dfy` | The device manager's reconcile loop: reader generations, where it comes to rest, and that it does |
| `Permissions.dfy`, `PermissionTransactions.dfy` | Installing a udev rule with commands of uncertain effect, and taking it back exactly |
| `Service.dfy`, `Session.dfy` | The setup session that orders configuration, permission and service around one commit point |
| `Capture.dfy`, `Hex.dfy`, `DeviceConfig.dfy`, `DeviceDraft.dfy`, `DocumentEdit.dfy` | Timed capture of hidraw reports, and the way of a captured device into the document and back through the parser |
| `Common.dfy` | Option, Result, bytes, lookups, the smaller of two instants |

Two forms recur. Where the program interleaves callbacks and tasks on an event loop, a value holds the
fields, one function gives each await-free segment, and `Run` plays any sequence of enabled events; the
class beside it has the program's fields, and its methods are proved to make exactly those steps. The action
controller's value is the object's `State()`; the runner's also holds where each call and task stands, which
in the program is their own local state, so its object `Represents` a world and each method takes it from
one world to the next. Where the program is one straight transaction over fallible operations, the class is
the model: each operation it calls may fail, other processes may act in between, and what happened is kept
in a ghost history that the contracts speak about. The session runs the transactions themselves, on one
directory.

## Assumptions

- A file operation that raises had no effect, inode identities are never reused, and no other process
  touches the random temporary and quarantine names or edits the published file in place. A directory is
  `quiet` when no other process changes it; claims about crashes and about restored bytes are made for
  quiet directories, where the destination is durable, or durably absent, when setup loads it.
- A privileged command and a service command may fail before or after its whole effect, which is in place
  when the command ends. Nobody else edits the managed rules, and staging files can be deleted.
- Process identities are not reused while they are tracked, and a cancellation is not delivered inside
  the spawn of a process. The two claims that a cleanup stops by its deadline assume a timely event loop:
  time passes only while no cleanup is ready to run.
- Profile names are distinct in the convergence and termination claims of the manager; the parser sees to it.
- In capture, time passes during reads and while waiting for the user. A read takes one tick at least,
  returns by its timeout, and gives nothing only when the timeout has passed.
- Candidates are as discovery leaves them: lower-case identifiers, two-digit interface numbers, and nodes
  under the standard prefixes of their subsystem.
- The user gives finitely many answers in a recovery dialogue.

## Where the code does less than one might expect

- The flags of the action controller are exact conditions: `ToggleOnlyNeedsBothSkips` and
  `IdempotentNeedsNoSkips` say for which flags which application is tracked, and show the runs that go wrong.
- A pair quarantined while a reconcile waits for an obsolete reader is started once more by that reconcile
  (`QuarantinedPairIsStarted`). It is started only then (`StartsNothingHeldBack`), which is why a pair can
  end unexpectedly twice.
- Restoring an existing configuration uses its backup up before the last sync. If that sync fails, which it
  can (`BackupCanBeUsedUp`), a retry raises an error although the bytes are back: with no further fault,
  `Restore` succeeds if and only if the backup is still recorded.
- If looking up the published file fails right after the link, which it can (`IdentityCanBeMissed`), no
  identity is recorded, and rollback moves the destination aside and refuses from then on.
- A permission transaction that was rolled back cannot be installed again: `Rollback` marks it as applied and
  `Install` then refuses.
- Finalizing a permission transaction asks only whether it was installed, and a rollback that failed half way
  leaves it so. `Finalize` then keeps what the rollback had left: the installed rules if and only if no path
  restored so far differed from them. Over every point at which the rollback can fail, that is so if and only
  if the installation had changed nothing (`FailedRollbackIsKept`).
- A setup that is cancelled after its rule was prepared and before it was installed leaves the staging files
  for the person to use; one cancelled later, and recovered, leaves none (`Run`).

## Model

| member | source | states |
|---|---|---|
| `ActionProtocol.RunKeepsInv` | src/input_action_controller/actions.py:82-321 | In every interleaving of submissions, worker turns, command ends, timer callbacks and shutdown: the state is uncertain exactly when a failed direction is remembered, timers, phases and the trace agree, and the worker's state is that of a sequential reading of its messages |
| `ActionProtocol.StateAndTimerAtEveryPoint` | src/input_action_controller/actions.py:116-268 | At every await point: UNCERTAIN iff a failed direction is set; at most one live timer; a live timer means ON, nothing in flight, intake open; never two commands in flight |
| `ActionProtocol.AcceptedExactly` | src/input_action_controller/actions.py:91-105 | Intake is open until the first shutdown, and the messages accepted are those asked for until then, in order, a fired timer asking for an automatic off |
| `ActionProtocol.TimersAreExact` | src/input_action_controller/actions.py:158-268 | A timer of a given delay is live exactly if an earlier event ended, with success and before any shutdown, the on command of a toggle with that positive timeout, and since then it has neither fired nor a message been taken nor a shutdown begun |
| `ActionProtocol.ToggleRetriesTheFailure` | src/input_action_controller/actions.py:219-245 | A toggle in UNCERTAIN starts the failed direction again whatever the skip flags say |
| `ActionProtocol.EachTimerFiresOnce` | src/input_action_controller/actions.py:251-268 | A timer handle fires at most once in a run |
| `ActionProtocol.WorkerIsASequentialFold` | src/input_action_controller/actions.py:146-217 | The worker's commands are those of handling a prefix of the accepted messages one after another, numbered from zero |
| `ActionProtocol.FoldIgnoresLaterOutcomes` | src/input_action_controller/actions.py:194-217 | A later command outcome never changes what was decided before it |
| `ActionProtocol.ClosedStep` | src/input_action_controller/actions.py:116-144 | After intake closes, a step takes no message and starts at most one command, an OFF in direction and carrying the shutdown deadline, with nothing in flight and the worker gone |
| `ActionProtocol.ShutdownIsABarrier` | src/input_action_controller/actions.py:116-144 | Over every continuation after the first shutdown: nothing queued is processed, and at most one more command starts, an OFF with that deadline |
| `ActionProtocol.ShutdownWaits` | src/input_action_controller/actions.py:116-144 | Shutdown winds down by the first deadline asked for, however often it is asked: the running command is cut off only once that has passed, and only then can shutdown go on incomplete, with the state uncertain |
| `ActionProtocol.ShutdownFinishes` | src/input_action_controller/actions.py:116-144 | Shutdown never gets stuck: with nothing in flight, or past its deadline, its own steps alone end it, but for the final off they may start; a command cut off by the deadline leaves the state uncertain with its direction to retry |
| `ActionProtocol.FinalOffExactly` | src/input_action_controller/actions.py:126-144 | The final off command starts exactly if it is configured, time is left and the action is not known or taken to be off; it is the next in number and carries the first shutdown deadline |
| `ActionProtocol.FinalOffEnds` | src/input_action_controller/actions.py:126-144 | Once it has ended the controller is closed and off, or uncertain with the off to retry, and no timer is live |
| `ActionProtocol.ToggleOnlyIsTracked` | src/input_action_controller/actions.py:158-249 | With both skip flags, ON and OFF equal the bit of a toggle-only application and UNCERTAIN(d) means the bit is the opposite of d |
| `ActionProtocol.ToggleOnlyNeedsBothSkips` | src/input_action_controller/actions.py:232-249 | Such an application is tracked on every run if and only if both skip flags are set |
| `ActionProtocol.RepeatedToggleIsWrong` | src/input_action_controller/actions.py:232-245 | The run that goes wrong when one of the flags is missing |
| `ActionProtocol.IdempotentIsTracked` | src/input_action_controller/actions.py:158-249 | With both flags off, a stable state equals the bit of an application whose commands are idempotent, whatever failed commands leave behind |
| `ActionProtocol.IdempotentNeedsNoSkips` | src/input_action_controller/actions.py:232-249 | That holds on every run if and only if both flags are off |
| `ActionProtocol.StableStateIsWrong` | src/input_action_controller/actions.py:232-249 | With a flag on, a run ends in a stable state that is not the application's bit |
| `Actions.ActionController.Submit` | src/input_action_controller/actions.py:91-105 | A message is queued under the next sequence number, or refused once intake is closed; the whole new state |
| `Actions.ActionController.BeginMessage` | src/input_action_controller/actions.py:158-217 | The object's half of handling a message before its command is the step the runs above are made of |
| `Actions.ActionController.CompleteMessage` | src/input_action_controller/actions.py:158-217 | The same for the half after the command has ended, with the timer it may arm |
| `Actions.ActionController.AutomaticOff` | src/input_action_controller/actions.py:257-262 | The timer callback forgets the timer and queues an automatic off |
| `Actions.ActionController.BeginShutdown` | src/input_action_controller/actions.py:116-126 | Intake closes, the queue is emptied and the timer cancelled in one await-free segment |
| `Files.ForeignFileStaysLinked` | src/input_action_controller/setup/config_editor.py:621-703 | Over every history in which each call is safe: a file of another process that was moved aside stays linked at its quarantine name until it has been linked back |
| `Files.CrashValue` | src/input_action_controller/setup/config_editor.py:618-619 | A crash that loses any subset of unsynced directory changes leaves a name as last synced or as one of the pending changes made it |
| `Files.SteadyIsCrashSafe` | src/input_action_controller/setup/config_editor.py:376-414 | In a steady disk state every crash leaves the old destination, or the complete new content with the old bytes durably backed up |
| `ConfigTransactions.EveryMomentIsCrashSafe` | src/input_action_controller/setup/config_editor.py:376-414 | So does a crash at every moment of a commit whose history is steady |
| `ConfigTransactions.ReplacePublishes` | src/input_action_controller/setup/config_editor.py:386-399 | Renaming the temporary file over the loaded one, after its backup is durable, keeps every crash point safe |
| `ConfigTransactions.LinkPublishes` | src/input_action_controller/setup/config_editor.py:400-413 | Publishing by a hard link at an absent destination does too |
| `ConfigTransactions.ConfigTransaction.Commit` | src/input_action_controller/setup/config_editor.py:376-428 | For every fault pattern and interference: an error that is not potentially committed means the destination was never changed; otherwise the history since the call shows the temporary file with exactly this content put at the destination and, for an existing one, what was read there saved in the backup; with nobody else at work success is durable and every moment crash-safe; a private name left behind is one whose removal the history shows to have failed, and a committed one leaves none when nobody else is at work or the destination was absent; a smooth run of valid content commits, and invalid content touches nothing |
| `ConfigTransactions.ConfigTransaction.Restore` | src/input_action_controller/setup/config_editor.py:430-463 | For every fault pattern and interference: a return without error shows the backup renamed over an existing destination, or the published file taken off an absent one or nothing there, and a sync, and that no call failed; with nobody else at work the destination is as it was loaded, durably; a foreign file reported as restored was linked back; a quarantine name left behind is the recorded one or one that could not be removed; a fault-free retry succeeds for an existing destination if and only if the backup has not been used up, and for an absent one whenever an identity was recorded and a free name is found; with no identity recorded it refuses |
| `ConfigTransactions.ConfigTransaction.WriteAll` | src/input_action_controller/setup/config_editor.py:726-732 | Short writes are continued until the file holds the whole content; a write of nothing is an error |
| `ConfigTransactions.ConfigTransaction.WriteTemporary` | src/input_action_controller/setup/config_editor.py:523-533 | A uniquely named file with the whole content, or none |
| `ConfigTransactions.ConfigTransaction.WriteBackup` | src/input_action_controller/setup/config_editor.py:535-550 | A finished copy of the bytes the history shows were read from the destination, under the first dated name that was free: every earlier name was refused as taken, and at most a hundred are tried; with nobody else at work those are the bytes that were loaded, synced |
| `ConfigTransactions.ConfigTransaction.Publish` | src/input_action_controller/setup/config_editor.py:376-413 | Everything between opening the directory and the last sync: what is published, and that nothing before it touches the destination |
| `ConfigTransactions.ConfigTransaction.RecordPublished` | src/input_action_controller/setup/config_editor.py:400-413 | The identity recorded is that of the file just linked if looking it up succeeded, and none if it failed, whatever happens to the temporary name |
| `ConfigTransactions.ConfigTransaction.DropTemporary` | src/input_action_controller/setup/config_editor.py:400-413 | After success the temporary name is no longer in the directory and no other private name has changed; after a failure it is still recorded |
| `ConfigTransactions.ConfigTransaction.ReserveQuarantineName` | src/input_action_controller/setup/config_editor.py:680-693 | An unused quarantine name is reserved with a placeholder of this transaction |
| `ConfigTransactions.ConfigTransaction.CleanupReservedQuarantine` | src/input_action_controller/setup/config_editor.py:695-703 | The unused placeholder's name is gone, or the failure to remove it is reported; the name is forgotten either way |
| `ConfigTransactions.ConfigTransaction.IdentifyQuarantined` | src/input_action_controller/setup/config_editor.py:640-656 | Whose file was moved aside is decided by identity, after a sync that the history shows; without a recorded identity rollback refuses |
| `ConfigTransactions.ConfigTransaction.ReturnForeign` | src/input_action_controller/setup/config_editor.py:657-678 | A file that is not the published one is linked back, which the history shows, before its quarantine name is dropped; if the destination exists again it stays aside under its recorded name |
| `ConfigTransactions.ConfigTransaction.RemovePublishedDestination` | src/input_action_controller/setup/config_editor.py:621-678 | Only the published file is removed for good; every other outcome is an error |
| `ConfigTransactions.ConfigTransaction.RenameBackup` | src/input_action_controller/setup/config_editor.py:434-447 | Success shows the backup renamed over the destination, and it is then used up; without one it refuses; a failure keeps it |
| `ConfigTransactions.BackupCanBeUsedUp` | src/input_action_controller/setup/config_editor.py:434-447 | From any disk with a backup there is a history in which it is renamed over the destination and the sync then fails: the state in which a retry of an existing destination refuses |
| `ConfigTransactions.IdentityCanBeMissed` | src/input_action_controller/setup/config_editor.py:400-411 | From any disk without a destination there is a history in which the temporary file is linked there and looking it up fails: the state in which rollback refuses |
| `ConfigTransactions.ConfigTransaction.CleanupTemporary` | src/input_action_controller/setup/config_editor.py:713-724 | Best-effort removal of the temporary file never undoes the publication; a name still there is one the history shows could not be removed |
| `ConfigTransactions.ConfigTransaction.RecoveryCommandsRestore` | src/input_action_controller/setup/config_editor.py:483-513 | With nobody else at work, the commands shown while a publication is not taken back restore the loaded destination durably; a file quarantined without an identity comes back as it was published |
| `Runner.AdoptIsEarlier` | src/input_action_controller/runner.py:34-39 | Adopting a deadline gives the earlier of the two, raises the flag exactly when it moves, and is idempotent |
| `CommandRunners.ProcessCleanup.AdoptDeadline` | src/input_action_controller/runner.py:34-39 | The record after a party asked for a deadline |
| `CommandRunners.ProcessCleanup.NextWait` | src/input_action_controller/runner.py:231-284 | One turn of the waiting loop: over, or armed with the deadline in force and the flag lowered |
| `CommandRunners.ProcessCleanup.Wait` | src/input_action_controller/runner.py:208-284 | The waiting loop from one phase until it suspends or the cleanup is done, with the kill phase behind the grace phase, is the turn the runs below are made of |
| `CommandRunners.CommandRunner.BeginRun` | src/input_action_controller/runner.py:52-69 | The call's segment up to the spawn is the protocol's `Call` step: refused once shutdown has a deadline, with the result the step gives, otherwise counted |
| `CommandRunners.CommandRunner.Launched` | src/input_action_controller/runner.py:64-94 | The segment after a successful spawn is the `LaunchSucceeds` step: into a cleanup under a shutdown, or tracked until the earlier of timeout and deadline, the event set when it was the last launch |
| `CommandRunners.CommandRunner.LaunchFailed` | src/input_action_controller/runner.py:72-89 | The segment after a failed spawn is the `LaunchFails` step, with its result |
| `CommandRunners.CommandRunner.Exited` | src/input_action_controller/runner.py:96-120 | A process that exits is forgotten: the `RunSeesExit` step, with its result |
| `CommandRunners.CommandRunner.HandToCleanup` | src/input_action_controller/runner.py:96-113 | A timeout or a cancellation hands the process to its one cleanup with the stricter of the two deadlines: the `RunTimesOut` and `CancelRun` steps |
| `CommandRunners.CommandRunner.GivenUp` | src/input_action_controller/runner.py:96-113 | The same two steps of the protocol are one step function |
| `CommandRunners.CommandRunner.Resume` | src/input_action_controller/runner.py:76-117 | After its cleanup the call forgets the process, or ends the late launch: the `RunResumes` step, with its result |
| `CommandRunners.CommandRunner.StartProcessCleanup` | src/input_action_controller/runner.py:188-206 | A process has one cleanup: the existing one, hurried, or a new one; no other is touched |
| `CommandRunners.CommandRunner.BeginTerminating` | src/input_action_controller/runner.py:208-215 | A cleanup task's first segment is the `CleanupStarts` step; one that is done at once has removed its process |
| `CommandRunners.CommandRunner.WakeUp` | src/input_action_controller/runner.py:208-284 | Its later segments are the steps in which it sees an exit, an update or its time: the phase over or another turn |
| `CommandRunners.CommandRunner.InstallShutdownDeadline` | src/input_action_controller/runner.py:122-131 | The shutdown deadline only comes forward and every cleanup adopts it, in the loop over all of them: the `Terminate` step |
| `CommandRunners.CommandRunner.BeginTermination` | src/input_action_controller/runner.py:132-149 | The terminating task waits while launches are pending and time is left, and gathers otherwise: the `TerminationStarts` step |
| `CommandRunners.CommandRunner.Gather` | src/input_action_controller/runner.py:142-149 | The loop over the active processes starts or hurries each one's cleanup and returns exactly the tasks the `Gathering` step waits for |
| `CommandRunners.CommandRunner.OtherSteps` | src/input_action_controller/runner.py:52-164 | Every other event leaves the object's fields alone |
| `CommandRunners.PendingIsCounted` | src/input_action_controller/runner.py:58-89 | A call still launching, or cleaning up a late launch, is counted, so the segments that end a launch can run in every reachable world |
| `CommandRunners.CommandRunner.AwaitCleanup` | src/input_action_controller/runner.py:151-164 | The wait ends only with the cleanup, consuming every cancellation before it, and raises one afterwards iff there was any |
| `RunnerProtocol.RunKeepsInv` | src/input_action_controller/runner.py:52-284 | The invariant of every interleaving of launches, exits, cancellations, cleanups and terminations |
| `RunnerProtocol.DrainedForever` | src/input_action_controller/runner.py:122-149 | Once a terminate call has returned, no process is active, then and after every continuation |
| `RunnerProtocol.LateLaunchIsCleanedUp` | src/input_action_controller/runner.py:64-89 | A process launched after the shutdown deadline is cleaned up, reported as a failed launch and never tracked |
| `RunnerProtocol.LaunchEventIsExact` | src/input_action_controller/runner.py:58-89 | The launch event is set iff no launch is pending |
| `RunnerProtocol.OneCleanupForEachProcess` | src/input_action_controller/runner.py:188-224 | At most one cleanup task and one terminating phase for each process, however many parties ask |
| `RunnerProtocol.RunOutlivesItsCleanup` | src/input_action_controller/runner.py:89-120 | A call of run that timed out, was cancelled or launched late ends after its cleanup |
| `RunnerProtocol.CancellationIsRaisedAgain` | src/input_action_controller/runner.py:96-164 | A cancellation that arrived during a cleanup is what the call ends with, over every continuation |
| `RunnerProtocol.DeadlinesOnlyShrink` | src/input_action_controller/runner.py:34-39 | Over every continuation a cleanup's deadline never moves later |
| `RunnerProtocol.NoUpdateIsLost` | src/input_action_controller/runner.py:231-284 | A waiting cleanup is armed no later than its deadline, or its flag is up |
| `RunnerProtocol.CleanupStopsByItsDeadline` | src/input_action_controller/runner.py:208-284 | With a timely event loop a cleanup with a deadline stops waiting by it |
| `RunnerProtocol.GatheredCleanupsStopInTime` | src/input_action_controller/runner.py:132-149 | So does every cleanup a shutdown gathers, by the deadline it passed on |
| `RunnerHistory.ResultIsTheVerdict` | src/input_action_controller/runner.py:52-120 | A call that ended has a result if and only if that is the verdict on its events: succeeded or failed by the exit code if its process exited before timeout and cancellation, not found or failed by how the spawn failed, refused or late by a shutdown, timed out, or cancelled, which wins over both |
| `RunnerHistory.ExitDecides` | src/input_action_controller/runner.py:91-120 | From every run, a running call whose process has not exited can end by its exit: success for code 0, a failure with the code for any other |
| `RunnerHistory.TimesOutInTime` | src/input_action_controller/runner.py:91-101 | A running call can time out exactly from the earlier of its timeout, counted from the launch, and the deadline it was given |
| `RunnerHistory.HandedOverInTime` | src/input_action_controller/runner.py:96-113 | A call that is given up hands its process to one cleanup, whose deadline is the earliest of the call's, the shutdown's and the one it had |
| `RunnerHistory.ShutdownIsTold` | src/input_action_controller/runner.py:122-131 | The shutdown deadline is the earliest one asked for, a request without one counting the configured timeout from its moment; there is one exactly if termination was ever asked for |
| `RunnerHistory.CleanupEndsForAReason` | src/input_action_controller/runner.py:208-284 | A cleanup is done only if its process has exited or its deadline has passed; it leaves its grace phase early only for those, and otherwise half a second after it began |
| `RunnerHistory.TerminationWaitsForLaunches` | src/input_action_controller/runner.py:132-149 | A terminate call goes on to gather only when no launch is pending or its deadline has passed, and can from then on; it has been cancelled exactly if a cancellation came |
| `RunnerShutdown.ShutdownHurriesAtOnce` | src/input_action_controller/runner.py:122-131 | A request for shutdown at once brings the cleanup of every process that still runs, whoever started it, to the earliest shutdown deadline or before |
| `RunnerShutdown.ShutdownReachesEveryProcess` | src/input_action_controller/runner.py:122-149 | Once every shutdown has gathered, each active process has a cleanup, and no cleanup of a process that still runs has a later deadline than the earliest any shutdown asked for, though a shutdown with a later one may gather last |
| `RunnerShutdown.ShutdownEndsEveryWait` | src/input_action_controller/runner.py:208-284 | With a timely event loop none of these cleanups then goes on waiting past that deadline |
| `Discovery.CountsHolders` | src/input_action_controller/devices/discovery.py:87-93 | A node is counted twice exactly when two resolutions hold it |
| `Discovery.NodesAreDistinct` | src/input_action_controller/devices/discovery.py:81-93 | No two profiles resolve to one node |
| `Discovery.AvailableExactly` | src/input_action_controller/devices/discovery.py:81-118 | A profile is available on a node exactly when it alone resolves to that node, readably |
| `Discovery.OnePotentialMatch` | src/input_action_controller/devices/discovery.py:96-118 | A profile with one candidate it could mean resolves to that one: available if it is readable, denied otherwise |
| `Discovery.AmbiguousExactly` | src/input_action_controller/devices/discovery.py:96-118 | A profile is ambiguous, without a node, exactly if it could mean two candidates, and unavailable exactly if it could mean none |
| `Discovery.ConflictExactly` | src/input_action_controller/devices/discovery.py:81-93 | A resolution becomes a conflict without a node exactly if another profile would have its node; every other one stands |
| `Manager.DeviceManager.BeginRun` | src/input_action_controller/devices/manager.py:113-136 | A second run is refused; a run begins with no quarantine and a reconcile due |
| `Manager.DeviceManager.HandleHotplugEvent` | src/input_action_controller/devices/manager.py:177-183 | Quarantine is lifted and, while running, a reconcile requested; what that brings about is `HotplugForgives` and `HotplugRevives` |
| `Manager.DeviceManager.DropObsolete` | src/input_action_controller/devices/manager.py:195-201 | The loop over a copy of the table removes exactly the readers not desired on their node |
| `Manager.DeviceManager.Sweep` | src/input_action_controller/devices/manager.py:195-205 | Those readers are gone and told to stop before the await |
| `Manager.DeviceManager.StartReaders` | src/input_action_controller/devices/manager.py:211-224 | The loop after the await starts exactly the desired readers whose node and name are free and whose source can be made |
| `Manager.DeviceManager.ReaderFinished` | src/input_action_controller/devices/manager.py:289-315 | The table drops the handle only if it is the registered one; an unexpected end while running quarantines its pair and requests a reconcile |
| `Manager.DeviceManager.SubmitInput` | src/input_action_controller/devices/manager.py:317-337 | An input is handed on iff its handle is registered and not stopped |
| `Manager.DeviceManager.StopAllReaders` | src/input_action_controller/devices/manager.py:339-347 | The table is emptied and every handle told to stop |
| `ManagerProtocol.RunKeepsInv` | src/input_action_controller/devices/manager.py:113-347 | The invariant of every interleaving of the loop, callbacks and queued inputs |
| `ManagerProtocol.ActiveReadersAtEveryPoint` | src/input_action_controller/devices/manager.py:195-224 | Keys are the handles' nodes, active handles are unstopped, profile names are distinct, and priority never has two readers |
| `ManagerProtocol.SubmissionsAreRegistered` | src/input_action_controller/devices/manager.py:317-337 | A step submits exactly when its input's handle is the one registered at that moment |
| `ManagerProtocol.LeftNeverSubmits` | src/input_action_controller/devices/manager.py:254-287 | A handle that has left the table never submits again, over every continuation |
| `ManagerConvergence.RestIsConverged` | src/input_action_controller/devices/manager.py:135-237 | Idle with nothing due after a reconcile nothing failed, the readers are exactly the desired resolutions of the last snapshot |
| `ManagerConvergence.RestMatchesTheDevices` | src/input_action_controller/devices/manager.py:171-237 | At rest, whatever ended before: the readers are the desired resolutions of the devices last enumerated, less those held back, which are the pairs that ended unexpectedly since the last hotplug, read off the events |
| `ManagerConvergence.HotplugForgives` | src/input_action_controller/devices/manager.py:177-193 | After a hotplug the next reconcile wants every available device, or the first under priority, whatever had ended before it |
| `ManagerConvergence.HotplugRevives` | src/input_action_controller/devices/manager.py:177-237 | If since a hotplug every source could be made and no reader ended unexpectedly, then at rest every available device, or the first, has its reader again |
| `ManagerConvergence.DesiredExactly` | src/input_action_controller/devices/manager.py:226-237 | What is desired: the available, unquarantined resolutions, or the first of them in config order under priority |
| `ManagerConvergence.SurvivorsStay` | src/input_action_controller/devices/manager.py:185-224 | A reader keeps its handle over a step iff it does not end, is still desired by a waking reconcile, and the manager does not stop |
| `ManagerConvergence.RequestsAreKept` | src/input_action_controller/devices/manager.py:135-183 | When a reconcile is due after a step, exactly: no request made during one is lost |
| `ManagerTermination.LoopComesToRest` | src/input_action_controller/devices/manager.py:171-237 | Since the last hotplug each pair has ended unexpectedly at most twice, and at most one more than twice profiles times nodes reconciles have begun |
| `ManagerTermination.SweepHoldsBack` | src/input_action_controller/devices/manager.py:185-205 | A pair quarantined when a reconcile begins is neither kept nor wanted by it |
| `ManagerTermination.StartsNothingHeldBack` | src/input_action_controller/devices/manager.py:207-224 | A started reader's pair was not quarantined when its reconcile began |
| `ManagerTermination.QuarantinedPairIsStarted` | src/input_action_controller/devices/manager.py:207-224 | The run in which a pair quarantined during the await is started all the same |
| `ManagerTermination.TwoKeyboards` | src/input_action_controller/devices/manager.py:207-224 | Two profiles and devices for which that run exists |
| `Selectors.NarrowingClassifier` | src/input_action_controller/setup/devices.py:138-151 | The loop over the classifiers computes the narrowing classifier |
| `Selectors.BestIsNarrowest` | src/input_action_controller/setup/devices.py:138-151 | No eligible classifier of the selected device leaves fewer matches, nor as few at an earlier place |
| `Selectors.NarrowingExactly` | src/input_action_controller/setup/devices.py:138-151 | There is a narrowing classifier exactly if some classifier of an input device leaves one of two or more matches out, and it is the narrowest |
| `Selectors.BothMatchersAccept` | src/input_action_controller/setup/permissions.py:600-635 | Profile matching and permission matching both mean the draft, for normalized candidates at standard nodes |
| `Selectors.AcceptedInTurn` | src/input_action_controller/setup/devices.py:34-83 | Narrowing step by step leaves exactly the candidates the draft accepts |
| `Selectors.DraftMatchesOnlySelected` | src/input_action_controller/setup/devices.py:23-93 | A proposed draft is matched by exactly one entry of the candidate list, the selected one, under both matchers |
| `Selectors.AmbiguityIsReal` | src/input_action_controller/setup/devices.py:61-83 | A proposal fails as ambiguous only if each draft the program tries is shared with another entry of the list |
| `Selectors.ProposalIsTheFirstUnshared` | src/input_action_controller/setup/devices.py:23-93 | For a device with identifiers: the proposal is the first draft no other entry shares, of the plain one, the one with the serial number and, where allowed, the one with the port, in this order; ambiguous exactly if there is none. Otherwise another error |
| `Selectors.NarrowestIsItsOwn` | src/input_action_controller/setup/devices.py:34-60 | The plain draft has the selected device's transport, identifiers and interface number and its narrowing classifier |
| `Selectors.ProposalIsNormal` | src/input_action_controller/setup/permissions.py:532-569 | The permission module accepts a proposal from normalized candidates unchanged, or refuses it exactly for what the device reports: a malformed identifier or interface number or a control character in serial or port, never its classifier |
| `Selectors.NormalFormIsStable` | src/input_action_controller/setup/permissions.py:532-569 | The permission module's normal form changes only the case of identifiers and interface number and pads the latter to two digits; it is four, four and two lower-case hex digits, and its own normal form |
| `Selectors.ProposalResolves` | src/input_action_controller/devices/discovery.py:81-149 | In every order of the candidates the new profile is available on the selected node iff the node is readable, has the code of every event its trigger names and no other profile resolves to it |
| `Permissions.RestoringOne` | src/input_action_controller/setup/permissions.py:486-507 | One restoring command gives its path back and keeps the other paths, also when it fails before or after its effect |
| `Permissions.RestoringRest` | src/input_action_controller/setup/permissions.py:486-507 | The restoring commands and the reload, run from any disk whose other paths are untouched, bring every rule back and load them |
| `Permissions.RemovingAll` | src/input_action_controller/setup/permissions.py:385-398 | The removing commands and the reload take exactly those paths away |
| `Permissions.FailedRollbackKeepsNothing` | src/input_action_controller/setup/permissions.py:400-412 | Stopped after any number of restoring commands the rules are the installed ones, at every such point, if and only if the installation had changed no rule |
| `PermissionTransactions.PermissionTransaction.constructor` | src/input_action_controller/setup/permissions.py:283-317 | The obsolete paths, each once and without the destination |
| `PermissionTransactions.PermissionTransaction.Prepare` | src/input_action_controller/setup/permissions.py:425-467 | Bytes and mode of every managed path are recorded and staged; a failure leaves no staging file and no rule changed; a second call does nothing |
| `PermissionTransactions.PermissionTransaction.Install` | src/input_action_controller/setup/permissions.py:385-398 | Success means the new rule is in place, the obsolete ones gone and the rules loaded; it is refused, touching nothing and each with its own error, exactly once finalized, provisional or rolled back; otherwise it fails only if an operation did |
| `PermissionTransactions.PermissionTransaction.Rollback` | src/input_action_controller/setup/permissions.py:400-412 | A normal return after a change leaves every path with its original bytes and mode, the rules loaded, no staging file, and the transaction not to be installed again; a failure leaves it installed if it was, and can be retried; without failures it succeeds |
| `PermissionTransactions.PermissionTransaction.Finalize` | src/input_action_controller/setup/permissions.py:414-423 | Succeeds iff installed; the rules are then those of the installation if and only if no path restored so far differs from them, always so without a rollback attempt; once a rollback was applied they are the original ones |
| `PermissionTransactions.PermissionTransaction.FailedRollbackIsKept` | src/input_action_controller/setup/permissions.py:400-423 | For an installed transaction whose rollback may fail after any command: the rules left to finalize are the installed ones in every case if and only if the installation had changed nothing |
| `PermissionTransactions.PermissionTransaction.RecoveryRestores` | src/input_action_controller/setup/permissions.py:341-349 | In every unfinalized changed state the recovery commands, run from the present disk, reach the original rules, loaded |
| `PermissionTransactions.PermissionTransaction.PreviewInstalls` | src/input_action_controller/setup/permissions.py:328-337 | The commands shown before installing run, and make of the prepared rules exactly what the installation would, loaded |
| `Service.ServiceManager.Apply` | src/input_action_controller/setup/service.py:73-86 | What each choice makes of the service, and that two of them need the packaged configuration; it fails only for that or a command that failed |
| `Service.ServiceManager.Restore` | src/input_action_controller/setup/service.py:88-90 | Success gives back the snapshot's enabled and active state; it fails only if a command did |
| `Session.SetupSession.Run` | src/input_action_controller/setup/session.py:391-655 | When nothing fails and nobody cancels, setup completes, with exit code 0, the service and the rule as the person chose and from the backup they wanted. For every course: nothing is done without consent (a rule is installed only after its commands were confirmed and with its device watched, the configuration published only after it was confirmed and the device seen under its new rule, a backup restored only if one was wanted); exit code 0 exactly if setup completed, or was cancelled and every recovery step succeeded; completed means that the main transaction put the new configuration in place, its re-load and the service operation succeeded and a permission transaction was finalized; cancelled and recovered means configuration, rules and service as found, and the device of a replaced profile seen again; until the configuration was ever replaced everything is undone unless a recovery step failed or a backup restore is in doubt; a choice to take everything back does so unless a recovery step failed; a service is restored only as the last step of a recovery whose other steps all succeeded; staging files stay after a cancellation exactly if the rule was prepared and not installed |
| `Session.SetupSession.RecoverBeforeCommit` | src/input_action_controller/setup/session.py:864-899 | Recovered exactly if every step of the recovery returned success, which it does when nothing fails, and then everything is as it was found unless a backup restore is in doubt; the configuration is restored exactly if its commit had begun, and the service is touched only after configuration and rules were restored with success |
| `Session.SetupSession.RestoreCommittedState` | src/input_action_controller/setup/session.py:901-927 | Configuration and rules first, each whether or not the other could be restored; the service only if both returned success, and otherwise left alone; what it undid is as found |
| `Session.SetupSession.RestoreFiles` | src/input_action_controller/setup/session.py:864-919 | The shared first half of both recoveries: configuration and rules, with the result of each |
| `Session.SetupSession.RecoverAfterCommit` | src/input_action_controller/setup/session.py:799-862 | However often the service operation is tried again, which is offered exactly once the configuration was loaded: success means all is completed, taking everything back does so unless a recovery step failed, and cancelling the dialogue keeps the new configuration and the rule in place |
| `Session.SetupSession.RollbackPermission` | src/input_action_controller/setup/session.py:929-947 | Success leaves the original rules loaded and, where a profile was to be replaced, means its device was watched before and seen again after; without the watch no rule is touched; it succeeds when nothing fails |
| `Session.SetupSession.FinalizeSuccess` | src/input_action_controller/setup/session.py:949-964 | Ends with success exactly if the service's state could be observed, and then all is completed and the permission finalized |
| `Session.SetupSession.CommitAndOperate` | src/input_action_controller/setup/session.py:575-655 | From the commit on: a failure that changed nothing still counts as before it; any other end is one of the ends after the commit |
| `Session.SetupSession.Operate` | src/input_action_controller/setup/session.py:595-633 | After a clean commit: success means all is completed, and is reached when nothing fails; an end by taking everything back means it was taken back unless a recovery operation failed |
| `Session.SetupSession.CommitMain` | src/input_action_controller/setup/session.py:566-594 | The commit of the main transaction on the configuration as last loaded: committed or potentially so exactly if its file was put at the destination; otherwise the configuration is as it was loaded; it commits when nothing fails |
| `Session.SetupSession.CommitBackup` | src/input_action_controller/setup/session.py:404-431 | The same for a backup's bytes, which are what setup then goes on from |
| `Session.SetupSession.RestoreABackup` | src/input_action_controller/setup/session.py:397-432 | Setup goes on with the wanted backup in place and loaded, or with the configuration as it was if none was wanted; a cancellation is the person's |
| `Session.SetupSession.InstallPermission` | src/input_action_controller/setup/session.py:485-535 | Only an installation that succeeded, of a rule that was confirmed, whose device was watched and seen again, goes on; the session knows whether rules may have changed; a cancellation before it leaves the staging files |
| `Session.SetupSession.RecoverBackup` | src/input_action_controller/setup/session.py:404-431 | A backup restore that failed past its own commit: taken back with the service restored, or left as the user chose |
| `Session.SetupSession.InstallRule` | src/input_action_controller/setup/session.py:519-526 | The session knows of an installation iff the rules may have changed |
| `Capture.CollectTrialReports` | src/input_action_controller/setup/capture.py:253-281 | Terminates; the result is decided by the last reading: the first report and exactly the candidates read before both deadlines, or noisy at the hard limit |
| `Capture.OutcomeMeans` | src/input_action_controller/setup/capture.py:253-281 | Accepted reports are followed by a full silence, or have no follow-up at the hard limit; a noisy trial has reached its limit with a candidate there or less than the silence before |
| `Capture.SilenceIsAGap` | src/input_action_controller/setup/capture.py:262-281 | No candidate came within the silence before its end |
| `Capture.ReportsAreCandidates` | src/input_action_controller/setup/capture.py:277-281 | The collected reports are the non-baseline reports read |
| `Capture.CaptureTrial` | src/input_action_controller/setup/capture.py:235-250 | The first candidate before its deadline starts the trial; otherwise it times out at the deadline |
| `Capture.CaptureTrials` | src/input_action_controller/setup/capture.py:127-133 | Three trials in each direction alternate, each by its own deadlines; the log is theirs and nothing else's, and the first error ends them |
| `Capture.CaptureBaseline` | src/input_action_controller/setup/capture.py:221-232 | Every report of the baseline period, and no other |
| `Capture.StableTrialReports` | src/input_action_controller/setup/capture.py:284-288 | The trials' common set, or an error if any differs |
| `Capture.CaptureHidraw` | src/input_action_controller/setup/capture.py:115-145 | Each direction gets what its three trials agree on without what both share: nonempty, sorted, disjoint and free of baseline reports; otherwise the capture is inconsistent; a trial that failed is the last one |
| `Capture.Sort` | src/input_action_controller/setup/capture.py:142-145 | Ascending, without repeats, the same reports |
| `Hex.DecodeEncode` | src/input_action_controller/config.py:341-344 | A printed report parses back; the empty report does not |
| `Hex.EncodeDecode` | src/input_action_controller/config.py:341-344 | Text the parser accepts is the printed report up to the case of its digits |
| `DeviceConfig.EventsExactly` | src/input_action_controller/config.py:305-324 | An event list is accepted exactly if it is a nonempty array of `KEY_` or `BTN_` names the event tables know as keys, no code twice, and then it is those names in order |
| `DeviceConfig.ParseEvents` | src/input_action_controller/config.py:305-324 | The loop with its set of codes computes that event list, or the first error |
| `DeviceConfig.ParseDevices` | src/input_action_controller/config.py:169-202 | The loop over the devices computes the parsed list: distinct names, existing actions, first error wins |
| `DeviceDraft.ValidExactly` | src/input_action_controller/setup/capture.py:69-70 | An evdev draft can be built iff it has one mode's events, disjoint and known, and nothing of the other mode |
| `DeviceDraft.HidrawReadsBack` | src/input_action_controller/setup/capture.py:178-197 | A captured hidraw device's table parses to the profile of its selectors and reports |
| `DeviceDraft.EvdevReadsBack` | src/input_action_controller/setup/capture.py:198-211 | So does an evdev device's |
| `DeviceDraft.CapturedDeviceReadsBack` | src/input_action_controller/setup/profiles.py:18-33 | The parsed profile has the same trigger and, read as a draft, the same selectors |
| `DeviceDraft.ParsedIsNormal` | src/input_action_controller/config.py:205-358 | Whatever the parser accepts has normal selectors and a valid trigger |
| `DeviceDraft.ParsedWritesBack` | src/input_action_controller/config.py:205-358 | A parsed device, written again as a table, parses to the same profile |
| `DocumentEdit.Document.ApplyDeviceDraft` | src/input_action_controller/setup/capture.py:148-218 | The device is appended, or takes the place of exactly one named device, nothing else moving; the exact condition for success |
| `DocumentEdit.GatherReplaced` | src/input_action_controller/config.py:169-202 | With another device in place i the list is accepted iff the name is free and the action exists, the others unchanged in place |
| `DocumentEdit.ReplacementReadsBack` | src/input_action_controller/setup/capture.py:148-218 | A document with a replaced device parses, iff the name is free, to the same profiles with the captured one in its place |
| `DocumentEdit.AdditionReadsBack` | src/input_action_controller/setup/capture.py:148-218 | The same for an added device |

## Left out

- Real input and output: spawning, signals and process groups, `select`, netlink, capability reads, `sudo`,
  `systemctl`, `getfacl`. Each is an operation that succeeds or fails.
- `daemon.py`, `cli.py`, `prompts.py`, `diagnostics.py`, `matchers.py` and `locking.py`: glue, user interface,
  one-step classification, and a guarantee of the kernel's.
- TOML text and comments, shell quoting, hashes, slugs and the names of rule files: documents are maps and
  rule destinations are distinct names. Only the `devices` part of the configuration parser is modelled.
- Path resolution, the refusal of `/etc`, descriptor bookkeeping, modes of configuration files, failures of
  `close`, and exceptions such as a keyboard interrupt that pass every handler.
- `ConfigTransactions.ConfigTransaction`: one commit for each transaction; the list of artifacts is not
  modelled, nor is `finalize`, which has nothing to do because a commit ends with no temporary name recorded; the
  directory is opened as it is, without the identity check along the way.
- `CommandRunners.CommandRunner.StartProcessCleanup`: the pid is the process's identity, so a reused pid, which the
  source tells apart by object, does not arise; signals are counted, not sent.
- `Manager.DeviceManager.StartReaders`: a thread that cannot be started, and an observer or a stop event that
  raises, are not modelled; the order of the table's entries is not kept.
- `PermissionTransactions.PermissionTransaction.constructor`: obsolete paths keep the order they were given
  in, where the source sorts them; the check of their names is left out.
- `Session.SetupSession.Run`: the permission transaction is the one above, handed to the session instead of
  made by its factory; loading a configuration is an operation that succeeds or fails, and what it loads is
  what the directory holds. A completed restore of a backup is not undone, and the recovery of a failed one
  is outside the claim about what is left unchanged, as in the source.
- `Capture.CaptureHidraw`: what arming a trial shows the user, and an error it raises, are not modelled, nor
  is the capture of evdev presses.
- `Selectors.ProposalResolves`: the session's own matching of a reconnected device, which reads a missing
  interface number as zero, is not part of it.
- `DeviceConfig.ParseDevices`: keys are a datatype with one case for each key the parser knows; error
  messages are not kept apart by their wording.
- The width of evdev codes, floating-point seconds (integers and reals instead) and the tables of event
  names, which are parameters.
