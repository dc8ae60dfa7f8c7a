/** The start/stop gate of every base context, and the sudo context built on it. */
module SudoAuthContexts {
  import opened Common
  import opened SudoLifecycle

  class BaseContext {
    var hasStarted: bool
    var stopRequested: bool
    var startFailDelivered: bool
    var latestError: int

    ghost function State(): Gate
      reads this
    {
      Gate(hasStarted, stopRequested, startFailDelivered, latestError)
    }

    constructor ()
      ensures State() == NewSudo().gate
    {
      hasStarted, stopRequested, startFailDelivered, latestError := false, false, false, GENERAL_ERROR;
    }

    method SetLatestError(code: int)
      modifies this`latestError
      ensures latestError == if code != SUCCESS then code else old(latestError)
    {
      if code != SUCCESS {
        latestError := code;
      }
    }

    /** The locked part of `Start`; OnStart() follows if it proceeds. */
    method Start() returns (proceeds: bool)
      modifies this
      ensures (proceeds, State()) == StartAsked(old(State()))
    {
      if hasStarted {
        return false;
      }
      if stopRequested {
        SetLatestError(CANCELED);
        return false;
      }
      hasStarted := true;
      return true;
    }

    /** The locked part of `Stop`. */
    method Stop() returns (answer: StopAnswer)
      modifies this
      ensures (answer, State()) == StopAsked(old(State()))
    {
      if !hasStarted {
        if stopRequested {
          return Repeated;
        }
        stopRequested := true;
        return BeforeStart;
      }
      return ToOnStop;
    }

    /** The locked part of `OnStartFailed`: whether the caller is still to be told. */
    method OnStartFailed() returns (tell: bool)
      modifies this
      ensures (tell, State()) == StartFailureReported(old(State()))
    {
      if startFailDelivered {
        return false;
      }
      startFailDelivered := true;
      return true;
    }
  }

  class SudoAuthContext {
    const base: BaseContext
    var phase: SudoPhase
    var dialogActive: bool
    var childContextId: Option<nat>
    var childIsWidget: bool
    var stopping: bool
    ghost var owed: seq<int>         // results decided and not yet handed to the caller
    ghost var delivered: seq<int>    // results handed to the caller
    ghost var asked: seq<PoolCall>   // what the pool was told and asked for around a launch
    ghost var poolCancels: seq<nat>  // cancellations asked of the pool
    ghost var poolDeletes: nat       // deletions asked of the pool

    ghost function State(): Sudo
      reads this, base
    {
      Sudo(base.State(), phase, dialogActive, childContextId, childIsWidget, stopping, owed, delivered,
           asked, poolCancels, poolDeletes)
    }

    constructor ()
      ensures State() == NewSudo() && fresh(base)
    {
      base := new BaseContext();
      phase, dialogActive, childContextId, childIsWidget, stopping := Query, false, None, false, false;
      owed, delivered, asked, poolCancels, poolDeletes := [], [], [], [], 0;
    }

    method EndWithResult(code: int)
      modifies this
      ensures State() == EndedWith(old(State()), code)
    {
      if phase == Ended {
        return;
      }
      phase := Ended;
      dialogActive := false;
      childContextId := None;
      owed := owed + [code];
    }

    /** The callback gives the caller its result and runs the cleaner. */
    method HandOver()
      requires owed != []
      modifies this
      ensures State() == HandedOver(old(State()))
    {
      delivered := delivered + [owed[0]];
      owed := owed[1..];
      poolDeletes := poolDeletes + 1;
    }

    /** OnStart() once the credential query has answered. */
    method OnStart(ret: int, profile: Profile, child: Child)
      modifies this
      ensures State() == Queried(old(State()), ret, profile, child)
    {
      if ret == NOT_ENROLLED {
        EndWithResult(NOT_ENROLLED);
        return;
      }
      if ret != SUCCESS {
        EndWithResult(GENERAL_ERROR);
        return;
      }
      DispatchByProfile(profile, child);
    }

    method DispatchByProfile(profile: Profile, child: Child)
      modifies this
      ensures State() == Dispatched(old(State()), profile, child)
    {
      if phase != Query {
        return;
      }
      if profile.freezingTime > 0 {
        EndWithResult(LOCKED);
        return;
      }
      if profile.remainTimes == 1 {
        childIsWidget := true;
        var shown := StartWidgetChild(child);
        if !shown {
          childIsWidget := false;
          EndWithResult(GENERAL_ERROR);
        }
        return;
      }
      var launched := StartSilentChild(child);
      if !launched {
        EndWithResult(GENERAL_ERROR);
      }
    }

    method StartSilentChild(child: Child) returns (ok: bool)
      modifies this
      ensures ok == (child.Built? && child.scheduled)
      ensures State() == if child.Built? then ChildLaunched(old(State()), child.id) else old(State())
    {
      if child == NotBuilt {
        return false;
      }
      ok := LaunchChild(child);
    }

    /** The dialog flag is up, and the pool told, before the child is launched. */
    method StartWidgetChild(child: Child) returns (ok: bool)
      modifies this
      ensures ok == (child.Built? && child.scheduled)
      ensures var shown := old(State()).(dialogActive := true, asked := old(asked) + [Notify(true)]);
              State() == if child.Built? then ChildLaunched(shown, child.id) else old(State())
    {
      if child == NotBuilt {
        return false;
      }
      dialogActive := true;
      asked := asked + [Notify(dialogActive)];
      ok := LaunchChild(child);
    }

    method LaunchChild(child: Child) returns (ok: bool)
      requires child.Built?
      modifies this
      ensures ok == child.scheduled && State() == ChildLaunched(old(State()), child.id)
    {
      childContextId := Some(child.id);
      phase := Running;
      asked := asked + [ScheduleChild(child.id, phase, childContextId, dialogActive)];
      return child.scheduled;
    }

    method OnChildResult(code: int, requery: Option<int>)
      modifies this
      ensures State() == ChildReported(old(State()), code, requery)
    {
      if phase != Running {
        return;
      }
      if stopping || code == CANCELED {
        EndWithResult(CANCELED);
        return;
      }
      if code == SUCCESS || !childIsWidget {
        EndWithResult(code);
        return;
      }
      if requery.Some? && requery.value > 0 {
        EndWithResult(LOCKED);
        return;
      }
      EndWithResult(code);
    }

    method OnStop()
      modifies this
      ensures State() == OnStopRun(old(State()))
    {
      if phase == Ended {
        return;
      }
      if phase != Running || childContextId == None {
        EndWithResult(CANCELED);
        return;
      }
      stopping := true;
      poolCancels := poolCancels + [childContextId.value];
    }

    method OnStartFailed(code: int)
      modifies this, base
      ensures State() == StartFailed(old(State()), code)
    {
      var tell := base.OnStartFailed();
      if tell {
        owed := owed + [code];
      }
    }

    /** `Stop` with nobody in between its sections. */
    method Stop()
      modifies this, base
      ensures var (answer, g) := StopAsked(old(State()).gate);
              var s := old(State()).(gate := g);
              State() == match answer
                         case BeforeStart => StartFailed(s, CANCELED)
                         case Repeated => s
                         case ToOnStop => OnStopRun(s)
    {
      var answer := base.Stop();
      if answer == BeforeStart {
        OnStartFailed(CANCELED);
      } else if answer == ToOnStop {
        OnStop();
      }
    }
  }
}
