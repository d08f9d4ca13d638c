/** The packaged user service; a systemctl command may fail before or after taking effect. */
module Service {
  import opened Common

  datatype ServiceState = ServiceState(enabled: bool, active: bool)

  datatype Operation = Enable | Disable | Start | Stop | Restart

  datatype ServiceChoice = RestartNow | PreserveStopped | EnableAndStart | PreserveInactive

  function After(s: ServiceState, o: Operation): ServiceState {
    match o
    case Enable => s.(enabled := true)
    case Disable => s.(enabled := false)
    case Start => s.(active := true)
    case Stop => s.(active := false)
    case Restart => s.(active := true)
  }

  /** The state a choice asks for, of a service that was stopped for setup; None gives the snapshot back. */
  function Chosen(choice: Option<ServiceChoice>, snapshot: ServiceState): ServiceState {
    match choice
    case None => snapshot
    case Some(RestartNow) => snapshot.(active := true)
    case Some(EnableAndStart) => ServiceState(true, true)
    case Some(_) => snapshot.(active := false)
  }

  class ServiceManager {
    const packaged: bool   // the packaged service uses the selected configuration
    var state: ServiceState
    ghost var failures: nat   // how many commands and queries have failed

    constructor (packaged: bool, state: ServiceState)
      ensures this.packaged == packaged && this.state == state
    {
      this.packaged, this.state, failures := packaged, state, 0;
    }

    method Run(o: Operation) returns (ok: bool)
      modifies this
      ensures failures == old(failures) + (if ok then 0 else 1)
      ensures ok ==> state == After(old(state), o)
      ensures !ok ==> state == old(state) || state == After(old(state), o)
    {
      ok := *;
      var effective: bool := *;
      if ok || effective {
        state := After(state, o);
      }
      failures := failures + if ok then 0 else 1;
    }

    /** The two queries, either of which may fail. */
    method Snapshot() returns (r: Option<ServiceState>)
      modifies this`failures
      ensures r == (if failures == old(failures) then Some(state) else None) && failures >= old(failures)
    {
      var ok: bool := *;
      failures := failures + if ok then 0 else 1;
      return if ok then Some(state) else None;
    }

    method StopForSetup(snapshot: ServiceState) returns (ok: bool)
      requires state == snapshot
      modifies this
      ensures failures >= old(failures) && (ok <==> failures == old(failures))
      ensures ok ==> state == snapshot.(active := false)
      ensures state == snapshot || state == snapshot.(active := false)
    {
      ok := true;
      if snapshot.active {
        ok := Run(Stop);
      }
    }

    /** What a choice does; two of them need the packaged service to use the selected configuration. */
    method Apply(choice: ServiceChoice) returns (ok: bool)
      modifies this
      ensures failures >= old(failures)
      ensures ok <==> failures == old(failures) && (choice in {RestartNow, EnableAndStart} ==> packaged)
      ensures ok ==> match choice
                     case RestartNow => state == old(state).(active := true)
                     case EnableAndStart => state == ServiceState(true, true)
                     case _ => state == old(state)
      ensures choice != EnableAndStart ==> state.enabled == old(state).enabled
      ensures choice in {PreserveStopped, PreserveInactive} ==> ok
      ensures choice in {RestartNow, EnableAndStart} && !packaged ==> !ok && state == old(state)
    {
      if choice in {RestartNow, EnableAndStart} && !packaged {
        return false;
      }
      ok := true;
      if choice == RestartNow {
        ok := Run(Restart);
      } else if choice == EnableAndStart {
        ok := Run(Enable);
        if ok {
          ok := Run(Start);
        }
      }
    }

    method Restore(snapshot: ServiceState) returns (ok: bool)
      modifies this
      ensures failures >= old(failures) && (ok <==> failures == old(failures))
      ensures ok ==> state == snapshot
    {
      ok := Run(if snapshot.enabled then Enable else Disable);
      if ok {
        ok := Run(if snapshot.active then Start else Stop);
      }
    }
  }
}
