/** The widget context object. Each method is one critical section, run to its end. */
module WidgetContexts {
  import opened Common
  import opened WidgetLifecycle

  class WidgetContext {
    var phase: Phase
    var activeChildCount: nat
    var scheduleReleased: bool
    var onTerminateTimerId: nat          // zero when no timer is registered
    var runTaskInfoList: seq<nat>
    const setup: Setup
    var info: AuthInfo
    var latestError: int
    ghost var delivered: seq<int>        // results handed to the caller
    ghost var poolDeletes: nat           // deletions asked of the pool
    ghost var poolCancels: seq<nat>      // cancellations asked of the pool
    ghost var notices: seq<Notice>       // what schedule and caller were told about child results

    ghost function State(): Widget
      reads this
    {
      Widget(setup, phase, activeChildCount, scheduleReleased, onTerminateTimerId != 0, runTaskInfoList, info,
             latestError, delivered, poolDeletes, poolCancels, notices)
    }

    constructor (setup: Setup)
      ensures State() == NewWidget(setup)
    {
      this.setup, info := setup, AuthInfo([], 0, 0, 0, 0);
      phase, activeChildCount, scheduleReleased, onTerminateTimerId := NotStarted, 0, false, 0;
      runTaskInfoList, latestError := [], GENERAL_ERROR;
      delivered, poolDeletes, poolCancels, notices := [], 0, [], [];
    }

    method AdvancePhaseLocked(next: Phase) returns (advanced: bool)
      modifies this`phase
      ensures advanced == old(phase).Before(next)
      ensures phase == if advanced then next else old(phase)
    {
      if next.Rank() <= phase.Rank() {
        return false;
      }
      phase := next;
      return true;
    }

    method DeliverResultLocked(code: int)
      modifies this`delivered
      ensures State() == Deliver(old(State()), code)
    {
      delivered := delivered + [code];
    }

    method SetLatestError(code: int)
      modifies this`latestError
      ensures State() == WithError(old(State()), code)
    {
      if code != SUCCESS {
        latestError := code;
      }
    }

    /** The timer service: any nonzero number would do. */
    static method RegisterTimer() returns (timerId: nat)
      ensures timerId != 0
    {
      timerId := 1;
    }

    method StartOnTerminateTimer()
      modifies this`onTerminateTimerId
      ensures State() == old(State()).(timerArmed := true)
    {
      if onTerminateTimerId != 0 {
        return;
      }
      onTerminateTimerId := RegisterTimer();
    }

    method StopOnTerminateTimer()
      modifies this`onTerminateTimerId
      ensures State() == old(State()).(timerArmed := false)
    {
      if onTerminateTimerId == 0 {
        return;
      }
      onTerminateTimerId := 0;
    }

    /** The locked part of `Start`; OnStart() follows if it proceeds. */
    method Start() returns (answer: StartAnswer)
      modifies this
      ensures (answer, State()) == StartAnswered(old(State()))
    {
      if phase != NotStarted {
        if !phase.Before(Stopping) {
          return Absorbed;
        }
        SetLatestError(GENERAL_ERROR);
        return Fails;
      }
      var advanced := AdvancePhaseLocked(Running);
      return if advanced then Proceeds else Fails;
    }

    method OnStartFailed(code: int)
      modifies this
      ensures State() == StartFailed(old(State()), code)
    {
      var advanced := AdvancePhaseLocked(ResultDelivered);
      if !advanced {
        return;
      }
      DeliverResultLocked(code);
      EndLocked();
    }

    /** `Stop` with nobody in between its sections. */
    method Stop(stored: bool)
      modifies this
      ensures var (seated, w) := StopSeated(old(State()));
              State() == if seated then StartFailed(w, CANCELED) else Ended(w, CANCELED, stored)
    {
      var stoppedBeforeStart := false;
      if phase == NotStarted {
        stoppedBeforeStart := AdvancePhaseLocked(Stopping);
      }
      if stoppedBeforeStart {
        OnStartFailed(CANCELED);
        return;
      }
      End(CANCELED, stored);
    }

    method End(code: int, stored: bool)
      modifies this
      ensures State() == Ended(old(State()), code, stored)
    {
      var advanced := AdvancePhaseLocked(Stopping);
      if !advanced {
        return;
      }
      StopAllRunTask();
      DeliverEndLocked(code, stored);
      TryEndLocked();
    }

    method StopAllRunTask()
      modifies this`runTaskInfoList, this`poolCancels
      ensures State() == old(State()).(cancels := old(poolCancels) + old(runTaskInfoList), runTasks := [])
    {
      var taskInfoList := runTaskInfoList;
      runTaskInfoList := [];
      for k := 0 to |taskInfoList|
        invariant poolCancels == old(poolCancels) + taskInfoList[..k]
      {
        poolCancels := poolCancels + [taskInfoList[k]];
      }
      assert taskInfoList[..|taskInfoList|] == taskInfoList;
    }

    method DeliverEndLocked(code: int, stored: bool)
      requires phase == Stopping
      modifies this`phase, this`delivered, this`onTerminateTimerId
      ensures State() == Deliver(old(State()), EndCode(old(State()), code, stored))
                           .(phase := ResultDelivered, timerArmed := true)
    {
      var advanced := AdvancePhaseLocked(ResultDelivered);
      if !advanced {
        return;
      }
      if code == SUCCESS || |info.token| != 0 {
        var handled := HandleAuthSuccessResult(stored);
        if !handled {
          StartOnTerminateTimer();
          return;
        }
      }
      DeliverResultLocked(code);
      StartOnTerminateTimer();
    }

    /** Fills in the attributes of a success; if one cannot be set it delivers the error itself. */
    method HandleAuthSuccessResult(stored: bool) returns (handled: bool)
      requires phase == ResultDelivered
      modifies this`phase, this`delivered
      ensures handled == stored
      ensures State() == if stored then old(State()) else Deliver(old(State()), GENERAL_ERROR)
    {
      if stored {
        return true;
      }
      var _ := AdvancePhaseLocked(ResultDelivered);
      DeliverResultLocked(GENERAL_ERROR);
      return false;
    }

    method TryEndLocked()
      modifies this
      ensures State() == WidgetLifecycle.TryEndLocked(old(State()))
    {
      if phase == Released || !scheduleReleased {
        return;
      }
      if activeChildCount > 0 && phase.Before(ResultDelivered) {
        StartOnTerminateTimer();
        return;
      }
      EndLocked();
    }

    method EndLocked()
      modifies this
      ensures State() == WidgetLifecycle.EndLocked(old(State()))
    {
      var reportWithoutResult := phase.Before(ResultDelivered);
      var advanced := AdvancePhaseLocked(Released);
      if !advanced {
        return;
      }
      StopOnTerminateTimer();
      if reportWithoutResult {
        DeliverResultLocked(CANCELED);
      }
      poolDeletes := poolDeletes + 1;
    }

    method OnChildTerminated()
      modifies this
      ensures State() == ChildTerminated(old(State()))
    {
      if activeChildCount > 0 {
        activeChildCount := activeChildCount - 1;
      }
      if activeChildCount != 0 {
        return;
      }
      TryEndLocked();
    }

    method OnChildAuthResult(r: ChildResult)
      modifies this
      ensures State() == ChildReported(old(State()), r)
    {
      if phase != Released {
        ProcAuthResult(r);
      }
      OnChildTerminated();
    }

    /** Tells the schedule, or the caller in the case of a tip. */
    method Tell(notice: Notice)
      modifies this`notices
      ensures notices == old(notices) + [notice]
    {
      notices := notices + [notice];
    }

    method ProcAuthResult(r: ChildResult)
      modifies this`info, this`latestError, this`notices
      ensures State() == ResultProcessed(old(State()), r)
    {
      if !r.scheduled {
        return;
      }
      if r.code == SUCCESS || r.code == COMPLEXITY_CHECK_FAILED {
        StoreResult(r);
        if r.code != SUCCESS {
          SetLatestError(r.code);
        }
        Tell(NotifyAuthSuccess(r.authType));
        if setup.directAuth {
          Tell(ReleaseSchedule);
        }
      } else {
        SetLatestError(r.code);
        if setup.directAuth {
          Tell(NotifyAuthFail(r.authType));
          Tell(ReleaseSchedule);
          return;
        }
        TellFailure(r);
      }
    }

    /** What a failed factor makes of the session when there may be other factors. */
    method TellFailure(r: ChildResult)
      requires !Passes(r.code) && !setup.directAuth
      modifies this`latestError, this`notices
      ensures notices == old(notices) + NoticesOf(setup, r)
      ensures latestError == if LocksOut(setup, r) then LOCKED else old(latestError)
    {
      hide AuthTipCode;
      if r.code != CANCELED {
        Tell(Tip(r.authType, AuthTipCode(r.code, r.freezingTime)));
      }
      if setup.skipLocked && r.freezingTime > 0 {
        if setup.singleBiometric {
          SetLatestError(LOCKED);
          Tell(NotifyAuthFail(r.authType));
        } else if setup.navigation {
          Tell(NaviPinAuth);
        } else {
          Tell(StopAuthList(r.authType));
        }
      } else {
        Tell(StopAuthList(r.authType));
      }
    }

    /** Takes over what the child attached and keeps the rest. */
    method StoreResult(r: ChildResult)
      modifies this`info
      ensures info == AuthInfo(OrElse(r.signature, old(info.token)), OrElse(r.digest, old(info.digest)),
                               OrElse(r.count, old(info.count)), r.authType, setup.userId)
    {
      if r.signature.Some? {
        info := info.(token := r.signature.value);
      }
      if r.digest.Some? {
        info := info.(digest := r.digest.value);
      }
      if r.count.Some? {
        info := info.(count := r.count.value);
      }
      info := info.(authType := r.authType, userId := setup.userId);
    }

    method OnScheduleAuthResult(r: ScheduleResult, stored: bool)
      modifies this
      ensures State() == ScheduleAnswered(old(State()), r, stored)
    {
      if r.code != SUCCESS {
        End(r.code, stored);
        return;
      }
      info := info.(token := r.token, authType := r.authType, userId := setup.userId);
      if r.enrolled != SUCCESS {
        End(r.enrolled, stored);
        return;
      }
      info := info.(count := r.count, digest := r.digest % 0x1_0000);
      End(SUCCESS, stored);
    }

    method ExecuteAuthList(launches: seq<Launch>, scheduled: bool)
      modifies this
      ensures State() == AuthListExecuted(old(State()), launches, scheduled)
    {
      if !phase.Before(Stopping) {
        return;
      }
      for k := 0 to |launches|
        invariant State() == ChildrenLaunched(old(State()), launches[..k], scheduled)
      {
        assert launches[..k + 1][..k] == launches[..k];
        activeChildCount := activeChildCount + 1;
        var task := BuildTask(launches[k], scheduled);
        if task.None? {
          continue;
        }
        runTaskInfoList := runTaskInfoList + [task.value];
      }
      assert launches[..|launches|] == launches;
    }

    /** Builds and schedules one child; if that fails at any point, the child is reported gone before
        the call returns. */
    method BuildTask(l: Launch, scheduled: bool) returns (task: Option<nat>)
      modifies this
      ensures l.Launched? ==> task == Some(l.taskId) && State() == old(State())
      ensures l.FailsWithReport? ==>
                && task == None
                && State() == ChildReported(old(State()), LaunchError(l.authType, scheduled))
      ensures l.FailsSilently? ==> task == None && State() == ChildTerminated(old(State()))
    {
      match l
      case Launched(id) => return Some(id);
      case FailsWithReport(authType) =>
        OnChildAuthResult(LaunchError(authType, scheduled));
        return None;
      case FailsSilently =>
        OnChildTerminated();
        return None;
    }

    method ClearSchedule()
      modifies this
      ensures State() == ScheduleCleared(old(State()))
    {
      if phase == Released {
        return;
      }
      scheduleReleased := true;
      TryEndLocked();
    }

    method OnTerminateTimerTimeOut()
      modifies this
      ensures State() == TimedOut(old(State()))
    {
      if phase == Released {
        return;
      }
      onTerminateTimerId := 0;
      activeChildCount := 0;
      EndLocked();
    }
  }
}
