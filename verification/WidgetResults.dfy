/**
 * Where the result of a widget context comes from, what becomes of its children, and what it tells its
 * schedule, over all interleavings of its critical sections.
 */
module WidgetResults {
  import opened Common
  import opened WidgetLifecycle

  // ----- What each section leaves alone -----

  /** The children, the stored result, and what was told: what the way to a release leaves alone. */
  predicate SameStory(w: Widget, w': Widget) {
    w'.cancels == w.cancels && w'.runTasks == w.runTasks && w'.info == w.info && w'.notices == w.notices
  }

  lemma TerminatedKeepsStory(w: Widget)
    ensures SameStory(w, ChildTerminated(w)) && ChildTerminated(w).latestError == w.latestError
    ensures forall code | code in ChildTerminated(w).delivered :: code in w.delivered || code == CANCELED
  {
  }

  lemma QuietStepKeepsStory(s: Session, step: Step)
    requires Enabled(s, step)
    requires !step.End? && !step.ScheduleEnds? && !step.ExecuteAuthList? && !step.Report?
    ensures SameStory(s.w, Next(s, step).w)
    ensures Next(s, step).w.latestError in {s.w.latestError, GENERAL_ERROR}
  {
  }

  lemma ProcessingKeepsChildren(w: Widget, r: ChildResult)
    ensures var w' := ResultProcessed(w, r);
            w'.cancels == w.cancels && w'.runTasks == w.runTasks && w'.delivered == w.delivered
  {
    hide NoticesOf;
  }

  /** Ending the session moves the children to the list of those to cancel, and stores and tells nothing. */
  lemma EndListsChildren(w: Widget, code: int, stored: bool)
    ensures var w' := Ended(w, code, stored);
            && w'.cancels + w'.runTasks == w.cancels + w.runTasks
            && w'.info == w.info && w'.notices == w.notices && w'.latestError == w.latestError
            && (w.phase.Before(Stopping) ==> w'.runTasks == [] && !w'.phase.Before(Stopping))
            && (!w.phase.Before(Stopping) ==> w' == w)
  {
  }

  lemma AnswerListsChildren(w: Widget, r: ScheduleResult, stored: bool)
    ensures var w' := ScheduleAnswered(w, r, stored);
            && w'.cancels + w'.runTasks == w.cancels + w.runTasks
            && w'.notices == w.notices && w'.latestError == w.latestError
            && w'.info.token == (if r.code == SUCCESS then r.token else w.info.token)
            && (w.phase.Before(Stopping) ==> w'.runTasks == [] && !w'.phase.Before(Stopping))
            && (!w.phase.Before(Stopping) ==> w'.cancels == w.cancels && w'.runTasks == w.runTasks)
  {
    hide Ended;
    if r.code != SUCCESS {
      EndListsChildren(w, r.code, stored);
    } else {
      var w1 := w.(info := w.info.(token := r.token, authType := r.authType, userId := w.setup.userId));
      EndListsChildren(w1, r.enrolled, stored);
      EndListsChildren(w1.(info := w1.info.(digest := r.digest % 0x1_0000, count := r.count)), SUCCESS, stored);
    }
  }

  // ----- The answer of the schedule -----

  /** An answer of the schedule that finds the context not yet stopping decides the result: its error, the
      error of the enrolled-state query, or success; unless something was to be attached and could not be. */
  lemma AnswerFixesOutcome(s: Session, r: ScheduleResult, stored: bool, after: seq<Step>)
    requires Reachable(s) && s.w.phase.Before(Stopping)
    requires Possible(Next(s, ScheduleEnds(r, stored)), after)
    ensures var code := if r.code != SUCCESS then r.code else r.enrolled;
            var token := if r.code != SUCCESS then s.w.info.token else r.token;
            var fails := (code == SUCCESS || token != []) && !stored;
            Run(Next(s, ScheduleEnds(r, stored)), after).w.delivered == if fails then [GENERAL_ERROR] else [code]
  {
    ReachableIsSound(s);
    StepIsSound(s, ScheduleEnds(r, stored));
    AnswerDelivers(s, r, stored);
    hide Next, Reachable, Sound;
    RunMovesForward(Next(s, ScheduleEnds(r, stored)), after);
  }

  lemma AnswerDelivers(s: Session, r: ScheduleResult, stored: bool)
    requires Sound(s) && s.w.phase.Before(Stopping)
    ensures var code := if r.code != SUCCESS then r.code else r.enrolled;
            var token := if r.code != SUCCESS then s.w.info.token else r.token;
            var fails := (code == SUCCESS || token != []) && !stored;
            Next(s, ScheduleEnds(r, stored)).w.delivered == if fails then [GENERAL_ERROR] else [code]
  {
  }

  /** What a successful answer is stored as. The credential digest is cut to its lower 16 bits. */
  lemma AnswerIsStored(s: Session, r: ScheduleResult, stored: bool)
    requires Reachable(s)
    ensures var info := Next(s, ScheduleEnds(r, stored)).w.info;
            && (r.code != SUCCESS ==> info == s.w.info)
            && (r.code == SUCCESS ==>
                  && info.token == r.token && info.authType == r.authType && info.userId == s.w.setup.userId
                  && info.digest == (if r.enrolled == SUCCESS then r.digest % 0x1_0000 else s.w.info.digest)
                  && info.count == (if r.enrolled == SUCCESS then r.count else s.w.info.count))
  {
    hide Ended;
    var w := s.w;
    if r.code != SUCCESS {
      EndListsChildren(w, r.code, stored);
    } else {
      var w1 := w.(info := w.info.(token := r.token, authType := r.authType, userId := w.setup.userId));
      EndListsChildren(w1, r.enrolled, stored);
      EndListsChildren(w1.(info := w1.info.(digest := r.digest % 0x1_0000, count := r.count)), SUCCESS, stored);
    }
  }

  // ----- Launched children -----

  function IdsOf(ls: seq<Launch>): seq<nat> {
    if ls == [] then []
    else IdsOf(ls[..|ls| - 1]) + if ls[|ls| - 1].Launched? then [ls[|ls| - 1].taskId] else []
  }

  /** The children launched over a run, in order. Nothing is launched once the context is stopping. */
  function LaunchedIn(s: Session, steps: seq<Step>): seq<nat>
    requires Possible(s, steps)
    decreases |steps|
  {
    if steps == [] then []
    else
      (if steps[0].ExecuteAuthList? && s.w.phase.Before(Stopping) then IdsOf(steps[0].launches) else [])
      + LaunchedIn(Next(s, steps[0]), steps[1..])
  }

  lemma OneLaunchIsListed(w: Widget, l: Launch, scheduled: bool)
    ensures var w' := ChildLaunched(w, l, scheduled);
            && w'.cancels == w.cancels && w'.info == w.info
            && w'.runTasks == w.runTasks + (if l.Launched? then [l.taskId] else [])
            && (forall t :: NotifyAuthSuccess(t) in w'.notices <==> NotifyAuthSuccess(t) in w.notices)
            && (w.latestError != SUCCESS ==> w'.latestError != SUCCESS)
  {
    hide ChildTerminated, ResultProcessed, NoticesOf;
    var more := w.(activeChildren := w.activeChildren + 1);
    TerminatedKeepsStory(more);
    if l.FailsWithReport? {
      var r := LaunchError(l.authType, scheduled);
      FailureStoresNothing(more, r);
      TerminatedKeepsStory(ResultProcessed(more, r));
    }
  }

  lemma FailureStoresNothing(w: Widget, r: ChildResult)
    requires r.code != SUCCESS && r.code != COMPLEXITY_CHECK_FAILED
    ensures var w' := ResultProcessed(w, r);
            && w'.cancels == w.cancels && w'.runTasks == w.runTasks && w'.info == w.info
            && (forall t :: NotifyAuthSuccess(t) in w'.notices <==> NotifyAuthSuccess(t) in w.notices)
            && (w.latestError != SUCCESS ==> w'.latestError != SUCCESS)
  {
    hide AuthTipCode;
    assert forall t :: NotifyAuthSuccess(t) !in NoticesOf(w.setup, r);
  }

  lemma {:induction false} LaunchesAreListed(w: Widget, ls: seq<Launch>, scheduled: bool)
    ensures var w' := ChildrenLaunched(w, ls, scheduled);
            && w'.cancels == w.cancels && w'.info == w.info && w'.runTasks == w.runTasks + IdsOf(ls)
            && (forall t :: NotifyAuthSuccess(t) in w'.notices <==> NotifyAuthSuccess(t) in w.notices)
            && (w.latestError != SUCCESS ==> w'.latestError != SUCCESS)
  {
    hide ChildLaunched;
    if ls != [] {
      var n := |ls| - 1;
      LaunchesAreListed(w, ls[..n], scheduled);
      OneLaunchIsListed(ChildrenLaunched(w, ls[..n], scheduled), ls[n], scheduled);
    }
  }

  lemma StepListsChildren(s: Session, step: Step)
    requires Enabled(s, step)
    ensures var w := Next(s, step).w;
            && w.cancels + w.runTasks == s.w.cancels + s.w.runTasks
                 + (if step.ExecuteAuthList? && s.w.phase.Before(Stopping) then IdsOf(step.launches) else [])
            && (s.w.phase.Before(Stopping) && w.phase.Before(Stopping) ==> w.cancels == s.w.cancels)
            && (!s.w.phase.Before(Stopping) ==> w.cancels == s.w.cancels && w.runTasks == s.w.runTasks)
  {
    hide Ended, ScheduleAnswered, ResultProcessed, ChildTerminated;
    match step
    case ExecuteAuthList(ls, scheduled) =>
      LaunchesAreListed(s.w, ls, scheduled);
      assert s.w.cancels + s.w.runTasks + IdsOf(ls) == s.w.cancels + (s.w.runTasks + IdsOf(ls));
    case ScheduleEnds(r, stored) => AnswerListsChildren(s.w, r, stored);
    case End(code, stored) => EndListsChildren(s.w, code, stored);
    case Report(r) => ReportKeepsChildren(s.w, r);
    case _ => QuietStepKeepsStory(s, step);
  }

  lemma ReportKeepsChildren(w: Widget, r: ChildResult)
    ensures ChildReported(w, r).cancels == w.cancels && ChildReported(w, r).runTasks == w.runTasks
    ensures forall code | code in ChildReported(w, r).delivered :: code in w.delivered || code == CANCELED
  {
    hide ChildTerminated, ResultProcessed;
    ProcessingKeepsChildren(w, r);
    TerminatedKeepsStory(w);
    TerminatedKeepsStory(ResultProcessed(w, r));
  }

  lemma {:induction false} RunListsChildren(s: Session, steps: seq<Step>)
    requires Sound(s) && Possible(s, steps)
    ensures var w := Run(s, steps).w;
            && w.cancels + w.runTasks == s.w.cancels + s.w.runTasks + LaunchedIn(s, steps)
            && (s.w.phase.Before(Stopping) && w.phase.Before(Stopping) ==> w.cancels == s.w.cancels)
    decreases |steps|
  {
    hide Next, Enabled, Sound;
    if steps != [] {
      var t := Next(s, steps[0]);
      StepIsSound(s, steps[0]);
      StepListsChildren(s, steps[0]);
      RunListsChildren(t, steps[1..]);
      RunMovesForward(t, steps[1..]);
    }
  }

  /** The call that ends the session asks the pool to cancel every child launched so far, each once and in
      the order of their launch; before it none was cancelled, and after it none is launched. */
  lemma EndCancelsChildren(setup: Setup, steps: seq<Step>, code: int, stored: bool, after: seq<Step>)
    requires Possible(NewSession(setup), steps)
    requires var s := Run(NewSession(setup), steps);
             s.w.phase.Before(Stopping) && Possible(Next(s, End(code, stored)), after)
    ensures var s := Run(NewSession(setup), steps);
            var t := Run(Next(s, End(code, stored)), after);
            s.w.cancels == [] && t.w.cancels == LaunchedIn(NewSession(setup), steps) && t.w.runTasks == []
  {
    var s := Run(NewSession(setup), steps);
    var u := Next(s, End(code, stored));
    RunIsSound(NewSession(setup), steps);
    RunListsChildren(NewSession(setup), steps);
    EndListsChildren(s.w, code, stored);
    EndIsSound(s, code, stored);
    hide Next, Enabled, Sound, Run, Possible;
    NothingMoreIsListed(u, after);
  }

  lemma {:induction false} NothingMoreIsListed(s: Session, steps: seq<Step>)
    requires Sound(s) && !s.w.phase.Before(Stopping) && Possible(s, steps)
    ensures s.w.runTasks == [] ==> Run(s, steps).w.cancels == s.w.cancels && Run(s, steps).w.runTasks == []
    decreases |steps|
  {
    hide Next, Enabled, Sound;
    if steps != [] {
      var t := Next(s, steps[0]);
      StepIsSound(s, steps[0]);
      StepListsChildren(s, steps[0]);
      NothingMoreIsListed(t, steps[1..]);
    }
  }

  // ----- Where a result comes from -----

  /** The step gives reason for that result. */
  predicate Causes(step: Step, code: int) {
    match step
    case FailStart(reported) => code == reported
    case FinishStop => code == CANCELED
    case End(asked, stored) => (code == asked && (code == SUCCESS ==> stored)) || (code == GENERAL_ERROR && !stored)
    case ScheduleEnds(r, stored) =>
      || (code == (if r.code != SUCCESS then r.code else r.enrolled) && (code == SUCCESS ==> stored))
      || (code == GENERAL_ERROR && !stored)
    case Report(_) => code == CANCELED
    case ClearSchedule => code == CANCELED
    case Timeout => code == CANCELED
    case _ => false
  }

  lemma StepHasCause(s: Session, step: Step, code: int)
    requires Sound(s) && Enabled(s, step) && code in Next(s, step).w.delivered
    ensures code in s.w.delivered || Causes(step, code)
  {
    hide Ended, ScheduleAnswered, ResultProcessed, ChildTerminated;
    match step
    case ExecuteAuthList(ls, scheduled) =>
      if s.w.phase.Before(Stopping) {
        LaunchingKeepsPhase(s.w, ls, scheduled);
      }
    case Report(r) => ReportKeepsChildren(s.w, r);
    case End(_, _) => EndHasCause(s, step, code);
    case ScheduleEnds(_, _) => EndHasCause(s, step, code);
    case _ =>
  }

  lemma EndHasCause(s: Session, step: Step, code: int)
    requires Sound(s) && (step.End? || step.ScheduleEnds?) && code in Next(s, step).w.delivered
    ensures code in s.w.delivered || Causes(step, code)
  {
    if s.w.phase.Before(Stopping) {
      if step.End? {
        EndDelivers(s, step.code, step.stored);
      } else {
        AnswerDelivers(s, step.answer, step.stored);
      }
    } else {
      LateEndDelivers(s, step);
    }
  }

  lemma LateEndDelivers(s: Session, step: Step)
    requires (step.End? || step.ScheduleEnds?) && !s.w.phase.Before(Stopping)
    ensures Next(s, step).w.delivered == s.w.delivered
  {
  }

  // ----- Where a token comes from -----

  predicate Earns(step: Step, token: seq<nat>) {
    || (step.Report? && step.result.scheduled && step.result.signature == Some(token)
        && (step.result.code == SUCCESS || step.result.code == COMPLEXITY_CHECK_FAILED))
    || (step.ScheduleEnds? && step.answer.code == SUCCESS && step.answer.token == token)
  }

  predicate Passed(step: Step, authType: int) {
    step.Report? && step.result.scheduled && step.result.authType == authType
    && (step.result.code == SUCCESS || step.result.code == COMPLEXITY_CHECK_FAILED)
  }

  lemma StepEarnsToken(s: Session, step: Step)
    requires Enabled(s, step) && Next(s, step).w.info.token != []
    ensures Next(s, step).w.info.token == s.w.info.token || Earns(step, Next(s, step).w.info.token)
  {
    hide Ended, ScheduleAnswered, ResultProcessed, ChildTerminated;
    match step
    case ExecuteAuthList(ls, scheduled) => LaunchesAreListed(s.w, ls, scheduled);
    case ScheduleEnds(r, stored) => AnswerListsChildren(s.w, r, stored);
    case End(code, stored) => EndListsChildren(s.w, code, stored);
    case Report(r) =>
      if s.w.phase != Released && r.scheduled {
        ReportIsStored(s.w, r);
      } else {
        IgnoredReport(s.w, r);
      }
    case _ => QuietStepKeepsStory(s, step);
  }

  /** Once the context is released, or without a schedule, a report stores and tells nothing. */
  lemma IgnoredReport(w: Widget, r: ChildResult)
    requires w.phase == Released || !r.scheduled
    ensures ChildReported(w, r).info == w.info && ChildReported(w, r).notices == w.notices
    ensures ChildReported(w, r).latestError == w.latestError
  {
    hide ChildTerminated;
    TerminatedKeepsStory(w);
  }

  lemma StepReportsSuccess(s: Session, step: Step, authType: int)
    requires Enabled(s, step) && NotifyAuthSuccess(authType) in Next(s, step).w.notices
    ensures NotifyAuthSuccess(authType) in s.w.notices || Passed(step, authType)
  {
    hide Ended, ScheduleAnswered, ResultProcessed, ChildTerminated;
    match step
    case ExecuteAuthList(ls, scheduled) => LaunchesAreListed(s.w, ls, scheduled);
    case ScheduleEnds(r, stored) => AnswerListsChildren(s.w, r, stored);
    case End(code, stored) => EndListsChildren(s.w, code, stored);
    case Report(r) =>
      if s.w.phase != Released && r.scheduled {
        ReportTells(s.w, r, NotifyAuthSuccess(authType));
        var told := ChildReported(s.w, r).notices;
        assert told == s.w.notices + told[|s.w.notices|..];
      } else {
        IgnoredReport(s.w, r);
      }
    case _ => QuietStepKeepsStory(s, step);
  }

  lemma StepKeepsError(s: Session, step: Step)
    requires Enabled(s, step) && s.w.latestError != SUCCESS
    ensures Next(s, step).w.latestError != SUCCESS
  {
    hide Ended, ScheduleAnswered, ResultProcessed, ChildTerminated;
    match step
    case ExecuteAuthList(ls, scheduled) => LaunchesAreListed(s.w, ls, scheduled);
    case ScheduleEnds(r, stored) => AnswerListsChildren(s.w, r, stored);
    case End(code, stored) => EndListsChildren(s.w, code, stored);
    case Report(r) =>
      if s.w.phase != Released && r.scheduled {
        ReportIsStored(s.w, r);
      } else {
        IgnoredReport(s.w, r);
      }
    case _ => QuietStepKeepsStory(s, step);
  }

  // ----- Over whole lives -----

  /** What has happened so far accounts for results, token, and factors reported as passed. */
  ghost predicate Accounted(s: Session, past: seq<Step>) {
    && (forall code | code in s.w.delivered :: exists step | step in past :: Causes(step, code))
    && (s.w.info.token != [] ==> exists step | step in past :: Earns(step, s.w.info.token))
    && (forall t | NotifyAuthSuccess(t) in s.w.notices :: exists step | step in past :: Passed(step, t))
    && s.w.latestError != SUCCESS
  }

  lemma StepIsAccounted(s: Session, past: seq<Step>, step: Step)
    requires Sound(s) && Enabled(s, step) && Accounted(s, past)
    ensures Accounted(Next(s, step), past + [step])
  {
    hide Next, Enabled, Sound, Causes, Earns, Passed;
    var t, more := Next(s, step), past + [step];
    assert step in more && forall x | x in past :: x in more;
    forall code | code in t.w.delivered
      ensures exists cause | cause in more :: Causes(cause, code)
    {
      StepHasCause(s, step, code);
    }
    if t.w.info.token != [] {
      StepEarnsToken(s, step);
    }
    forall a | NotifyAuthSuccess(a) in t.w.notices
      ensures exists cause | cause in more :: Passed(cause, a)
    {
      StepReportsSuccess(s, step, a);
    }
    StepKeepsError(s, step);
  }

  lemma {:induction false} RunIsAccounted(s: Session, past: seq<Step>, steps: seq<Step>)
    requires Sound(s) && Possible(s, steps) && Accounted(s, past)
    ensures Accounted(Run(s, steps), past + steps)
    decreases |steps|
  {
    hide Next, Enabled, Sound, Accounted;
    if steps == [] {
      assert past + steps == past;
    } else {
      StepIsSound(s, steps[0]);
      StepIsAccounted(s, past, steps[0]);
      RunIsAccounted(Next(s, steps[0]), past + [steps[0]], steps[1..]);
      assert past + [steps[0]] + steps[1..] == past + steps;
    }
  }

  lemma LifeIsAccounted(setup: Setup, steps: seq<Step>)
    requires Possible(NewSession(setup), steps)
    ensures Accounted(Run(NewSession(setup), steps), steps)
  {
    RunIsAccounted(NewSession(setup), [], steps);
    assert [] + steps == steps;
  }

  /** Every result of every life has its reason among the steps taken. */
  lemma ResultHasCause(setup: Setup, steps: seq<Step>, code: int) returns (cause: Step)
    requires Possible(NewSession(setup), steps) && code in Run(NewSession(setup), steps).w.delivered
    ensures cause in steps && Causes(cause, code)
  {
    LifeIsAccounted(setup, steps);
    hide Possible, Run, Causes;
    cause :| cause in steps && Causes(cause, code);
  }

  /** The caller is told of a success only after somebody ended the session with one, the schedule answered
      with one that the enrolled state bears out, or a failed start was reported with that code; and for the
      first two only with its attributes set. */
  lemma SuccessIsEarned(setup: Setup, steps: seq<Step>)
    requires Possible(NewSession(setup), steps) && SUCCESS in Run(NewSession(setup), steps).w.delivered
    ensures || End(SUCCESS, true) in steps || FailStart(SUCCESS) in steps
            || exists r: ScheduleResult | r.code == SUCCESS && r.enrolled == SUCCESS :: ScheduleEnds(r, true) in steps
  {
    var cause := ResultHasCause(setup, steps, SUCCESS);
    hide Possible, Run;
    if cause.ScheduleEnds? {
      assert ScheduleEnds(cause.answer, true) in steps;
    }
  }

  /** A session has a token only from a child that passed, or from a success of the schedule; and reports to
      the schedule only factors that passed as such. */
  lemma TokensAreEarned(setup: Setup, steps: seq<Step>)
    requires Possible(NewSession(setup), steps)
    ensures var w := Run(NewSession(setup), steps).w;
            && (w.info.token != [] ==> exists step | step in steps :: Earns(step, w.info.token))
            && (forall t | NotifyAuthSuccess(t) in w.notices :: exists step | step in steps :: Passed(step, t))
  {
    LifeIsAccounted(setup, steps);
  }

  /** The error that a failed start is reported with is never SUCCESS. */
  lemma LatestErrorIsError(setup: Setup, steps: seq<Step>)
    requires Possible(NewSession(setup), steps)
    ensures Run(NewSession(setup), steps).w.latestError != SUCCESS
  {
    LifeIsAccounted(setup, steps);
  }

  // ----- What a report leads to -----

  /** What schedule and caller are told about the result of a child, and when: the schedule of every factor
      that passed; of a failed one if the context is decided by it, and otherwise to go on without it, or to
      turn to the PIN. */
  lemma ReportTells(w: Widget, r: ChildResult, n: Notice)
    requires w.phase != Released && r.scheduled
    ensures var passes := r.code == SUCCESS || r.code == COMPLEXITY_CHECK_FAILED;
            var frozen := w.setup.skipLocked && r.freezingTime > 0;
            var told := ChildReported(w, r).notices;
            w.notices <= told &&
            (n in told[|w.notices|..] <==>
              match n
              case NotifyAuthSuccess(t) => passes && t == r.authType
              case ReleaseSchedule => w.setup.directAuth
              case NotifyAuthFail(t) =>
                !passes && t == r.authType && (w.setup.directAuth || (frozen && w.setup.singleBiometric))
              case NaviPinAuth =>
                !passes && !w.setup.directAuth && frozen && !w.setup.singleBiometric && w.setup.navigation
              case StopAuthList(t) =>
                !passes && !w.setup.directAuth && t == r.authType
                && !(frozen && (w.setup.singleBiometric || w.setup.navigation))
              case Tip(t, tip) =>
                !passes && !w.setup.directAuth && t == r.authType && r.code != CANCELED
                && tip == AuthTipCode(r.code, r.freezingTime))
  {
    hide AuthTipCode, NoticesOf, ChildReported;
    ToldOfReport(w, r);
    assert ChildReported(w, r).notices[|w.notices|..] == NoticesOf(w.setup, r);
    NoticesAre(w.setup, r, n);
  }

  lemma NoticesAre(setup: Setup, r: ChildResult, n: Notice)
    ensures Passes(r.code) ==>
              (n in NoticesOf(setup, r) <==>
                 n == NotifyAuthSuccess(r.authType) || (setup.directAuth && n == ReleaseSchedule))
    ensures !Passes(r.code) && setup.directAuth ==>
              (n in NoticesOf(setup, r) <==> n == NotifyAuthFail(r.authType) || n == ReleaseSchedule)
    ensures !Passes(r.code) && !setup.directAuth ==>
              (n in NoticesOf(setup, r) <==>
                 || (r.code != CANCELED && n == Tip(r.authType, AuthTipCode(r.code, r.freezingTime)))
                 || n == if !setup.skipLocked || r.freezingTime <= 0 then StopAuthList(r.authType)
                         else if setup.singleBiometric then NotifyAuthFail(r.authType)
                         else if setup.navigation then NaviPinAuth else StopAuthList(r.authType))
  {
    hide AuthTipCode;
    if !Passes(r.code) && !setup.directAuth {
      FailureNotices(setup, r, n);
    }
  }

  lemma FailureNotices(setup: Setup, r: ChildResult, n: Notice)
    requires !Passes(r.code) && !setup.directAuth
    ensures var all := NoticesOf(setup, r);
            var last := all[|all| - 1];
            && (n in all <==>
                  n == last || (r.code != CANCELED && n == Tip(r.authType, AuthTipCode(r.code, r.freezingTime))))
            && last == if !setup.skipLocked || r.freezingTime <= 0 then StopAuthList(r.authType)
                       else if setup.singleBiometric then NotifyAuthFail(r.authType)
                       else if setup.navigation then NaviPinAuth else StopAuthList(r.authType)
  {
    hide AuthTipCode;
  }

  /** In which order: the tip first, the release of the schedule last. */
  lemma ReportTellsInOrder(w: Widget, r: ChildResult)
    requires w.phase != Released && r.scheduled
    ensures var told, n := ChildReported(w, r).notices, |w.notices|;
            && n < |told| <= n + 2
            && (forall k | n <= k < |told| && told[k].Tip? :: k == n)
            && (forall k | n <= k < |told| && told[k].ReleaseSchedule? :: k == n + 1)
  {
    hide AuthTipCode;
    ToldOfReport(w, r);
    hide ChildReported;
  }

  lemma ToldOfReport(w: Widget, r: ChildResult)
    requires w.phase != Released && r.scheduled
    ensures ChildReported(w, r).notices == w.notices + NoticesOf(w.setup, r)
  {
    hide NoticesOf, ChildTerminated;
    TerminatedKeepsStory(ResultProcessed(w, r));
  }

  /** The tip for a failed factor. */
  lemma TipIsFor(code: int, freezingTime: int)
    ensures var tip := AuthTipCode(code, freezingTime);
            && (tip == 2 <==> code == TIMEOUT)
            && (tip == 4 <==> code == LOCKED && freezingTime == 0x7fff_ffff)
            && (tip == 3 <==> code == LOCKED && freezingTime != 0x7fff_ffff)
            && (tip == 7 <==> code != TIMEOUT && code != LOCKED && freezingTime > 0)
            && (tip == 1 <==> code != TIMEOUT && code != LOCKED && freezingTime <= 0)
  {
  }

  /** What a report is stored as: a factor that passed leaves its type, its user, and whatever it attached;
      a failed one leaves its code as the latest error, or LOCKED if it was the only factor and is frozen. */
  lemma ReportIsStored(w: Widget, r: ChildResult)
    requires w.phase != Released && r.scheduled
    ensures var passes := r.code == SUCCESS || r.code == COMPLEXITY_CHECK_FAILED;
            var w' := ChildReported(w, r);
            && (!passes ==> w'.info == w.info)
            && (passes ==>
                  && w'.info.authType == r.authType && w'.info.userId == w.setup.userId
                  && w'.info.token == (if r.signature.Some? then r.signature.value else w.info.token)
                  && w'.info.digest == (if r.digest.Some? then r.digest.value else w.info.digest)
                  && w'.info.count == (if r.count.Some? then r.count.value else w.info.count))
            && (r.code == SUCCESS ==> w'.latestError == w.latestError)
            && (r.code != SUCCESS ==>
                  var lockedOut := && !passes && !w.setup.directAuth && w.setup.skipLocked && r.freezingTime > 0
                                   && w.setup.singleBiometric;
                  w'.latestError == if lockedOut then LOCKED else r.code)
  {
    hide NoticesOf, ChildTerminated;
    TerminatedKeepsStory(ResultProcessed(w, r));
  }
}
