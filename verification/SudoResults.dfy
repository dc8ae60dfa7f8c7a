/**
 * Where the result of a sudo context comes from, over all interleavings of its critical sections, those with
 * a start of a context that has started included.
 */
module SudoResults {
  import opened Common
  import opened SudoLifecycle

  /** Every step may be taken, restarts as well. */
  predicate MayRun(x: Session, steps: seq<Step>)
    decreases |steps|
  {
    steps != [] ==> Enabled(x, steps[0]) && MayRun(Next(x, steps[0]), steps[1..])
  }

  function After(x: Session, steps: seq<Step>): Session
    requires MayRun(x, steps)
    decreases |steps|
  {
    if steps == [] then x else After(Next(x, steps[0]), steps[1..])
  }

  /** The runs without a restart are among these. */
  lemma {:induction false} RunIsAfter(x: Session, steps: seq<Step>)
    requires Possible(x, steps)
    ensures MayRun(x, steps) && After(x, steps) == Run(x, steps)
    decreases |steps|
  {
    hide Next, Enabled;
    if steps != [] {
      RunIsAfter(Next(x, steps[0]), steps[1..]);
    }
  }

  /** The step gives reason for that result. */
  predicate Causes(step: Step, code: int) {
    match step
    case QueryReturns(ret, profile, child) =>
      if ret == NOT_ENROLLED then code == NOT_ENROLLED
      else if ret != SUCCESS then code == GENERAL_ERROR
      else if profile.freezingTime > 0 then code == LOCKED
      else code == GENERAL_ERROR && (child.NotBuilt? || !child.scheduled)
    case ChildResult(reported, requery) =>
      || code == reported
      || (code == LOCKED && reported != SUCCESS && reported != CANCELED && requery.Some? && requery.value > 0)
    case Stop => code == CANCELED
    case _ => false
  }

  /** Some step gives reason for it; or it is the error of a start after another start. */
  ghost predicate Explained(steps: seq<Step>, code: int) {
    || (exists step | step in steps :: Causes(step, code))
    || (code == GENERAL_ERROR && multiset(steps)[Start] >= 2)
  }

  /** A stop has left a trace in the context. */
  predicate StopSeen(x: Session) {
    x.s.gate.stopRequested || x.s.stopping || x.stoppingCalls > 0 || x.refusing > 0
  }

  lemma ChildResultHasCause(x: Session, step: Step, code: int)
    requires step.ChildResult? && code in Results(Next(x, step).s)
    ensures code in Results(x.s) || Causes(step, code) || (code == CANCELED && StopSeen(x))
  {
  }

  lemma QueryHasCause(x: Session, step: Step, code: int)
    requires Enabled(x, step) && step.QueryReturns? && code in Results(Next(x, step).s)
    ensures code in Results(x.s) || Causes(step, code)
  {
  }

  lemma StepHasCause(x: Session, step: Step, code: int)
    requires Enabled(x, step) && code in Results(Next(x, step).s)
    ensures || code in Results(x.s) || Causes(step, code) || (code == CANCELED && StopSeen(x))
            || (x.failing > 0 && code == x.s.gate.latestError)
  {
    if step.ChildResult? {
      ChildResultHasCause(x, step, code);
    } else if step.QueryReturns? {
      QueryHasCause(x, step, code);
    } else if step.HandOver? {
      HandingOverKeeps(x.s);
    }
  }

  lemma TracesAreLeft(x: Session, step: Step)
    requires Enabled(x, step)
    ensures StopSeen(Next(x, step)) ==> StopSeen(x) || step == Stop
    ensures Next(x, step).s.gate.hasStarted ==> x.s.gate.hasStarted || step == Start
    ensures Next(x, step).s.gate.latestError == x.s.gate.latestError
            || (Next(x, step).s.gate.latestError == CANCELED && StopSeen(x))
    ensures Next(x, step).failing > x.failing ==>
              step == Start && (x.s.gate.hasStarted || Next(x, step).s.gate.latestError == CANCELED)
  {
  }

  /** What has happened so far accounts for every result, and for every trace. */
  ghost predicate Accounted(x: Session, past: seq<Step>) {
    && (StopSeen(x) ==> Stop in past)
    && (x.s.gate.hasStarted ==> Start in past)
    && (x.failing > 0 && x.s.gate.latestError != CANCELED ==> multiset(past)[Start] >= 2)
    && (x.s.gate.latestError == GENERAL_ERROR || (x.s.gate.latestError == CANCELED && Stop in past))
    && forall code | code in Results(x.s) :: Explained(past, code)
  }

  lemma MoreExplains(past: seq<Step>, step: Step, code: int)
    ensures Explained(past, code) || Causes(step, code) ==> Explained(past + [step], code)
  {
    hide Causes;
    assert step in past + [step] && forall other | other in past :: other in past + [step];
  }

  lemma StepIsAccounted(x: Session, past: seq<Step>, step: Step)
    requires Enabled(x, step) && Accounted(x, past)
    ensures Accounted(Next(x, step), past + [step])
  {
    hide Next, Enabled, Results, StopSeen, Explained;
    TracesAreLeft(x, step);
    forall code | code in Results(Next(x, step).s)
      ensures Explained(past + [step], code)
    {
      StepHasCause(x, step, code);
      MoreExplains(past, step, code);
      if code !in Results(x.s) && !Causes(step, code) {
        RefusalExplains(past + [step], code);
      }
    }
  }

  lemma RefusalExplains(past: seq<Step>, code: int)
    requires (code == CANCELED && Stop in past) || (code == GENERAL_ERROR && multiset(past)[Start] >= 2)
    ensures Explained(past, code)
  {
    assert Causes(Stop, CANCELED);
  }

  lemma {:induction false} RunIsAccounted(x: Session, past: seq<Step>, steps: seq<Step>)
    requires MayRun(x, steps) && Accounted(x, past)
    ensures Accounted(After(x, steps), past + steps)
    decreases |steps|
  {
    hide Next, Enabled, Accounted;
    if steps == [] {
      assert past + steps == past;
    } else {
      StepIsAccounted(x, past, steps[0]);
      RunIsAccounted(Next(x, steps[0]), past + [steps[0]], steps[1..]);
      assert past + [steps[0]] + steps[1..] == past + steps;
    }
  }

  /** Every result of every life has its reason: the caller gets what a child reported, LOCKED for a frozen
      factor, an error of the query or the launch, CANCELED because somebody called Stop(), or the error of
      a start after another start. */
  lemma ResultHasCause(steps: seq<Step>, code: int)
    requires MayRun(NewSession(), steps) && code in Results(After(NewSession(), steps).s)
    ensures || (exists step | step in steps :: Causes(step, code))
            || (code == GENERAL_ERROR && multiset(steps)[Start] >= 2)
  {
    RunIsAccounted(NewSession(), [], steps);
    assert [] + steps == steps;
    hide MayRun, After, Causes;
    assert Explained(steps, code);
  }

  /** A sudo request succeeds only if its child has reported success. */
  lemma SuccessIsEarned(steps: seq<Step>)
    requires MayRun(NewSession(), steps) && SUCCESS in Results(After(NewSession(), steps).s)
    ensures exists requery :: ChildResult(SUCCESS, requery) in steps
  {
    ResultHasCause(steps, SUCCESS);
    hide MayRun, After;
    var cause :| cause in steps && Causes(cause, SUCCESS);
    assert cause.ChildResult? && cause == ChildResult(SUCCESS, cause.requery);
  }
}
