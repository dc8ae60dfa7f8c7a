/**
 * A sudo context and the pool that drives it: its Start() and Stop() are called by the pool's tasks and
 * by nobody else, its result makes the cleaner delete it from the pool, and its stop cancels its child.
 */
module SudoInPool {
  import Common
  import opened Contexts
  import opened Promotion
  import PoolCancellation
  import opened PoolOperations
  import opened PoolRestarts
  import opened PoolStarts
  import P = PoolRuns
  import L = SudoLifecycle

  datatype System = System(pool: P.System, session: L.Session)

  datatype Step = PoolStep(step: P.Step) | ContextStep(call: L.Step)

  /** Between its Start() and Stop(), the context goes through the sections of its own. */
  predicate Enabled(j: System, step: Step) {
    match step
    case PoolStep(st) => P.Enabled(j.pool, st)
    case ContextStep(call) => !call.Start? && !call.Stop? && L.Enabled(j.session, call)
  }

  function Next(j: System, c: Context, step: Step): System
    requires Enabled(j, step)
  {
    match step
    case PoolStep(st) => System(P.Next(j.pool, st), Called(j, c, st))
    case ContextStep(call) => System(Asked(j, c, call), L.Next(j.session, call))
  }

  /** What a step of the pool calls on the context. */
  function Called(j: System, c: Context, st: P.Step): L.Session {
    if st.Finish? && j.pool.executor == P.Starting(c) then L.Next(j.session, L.Start)
    else if st.Finish? && j.pool.executor == P.Halting(c) then L.Next(j.session, L.Stop)
    else j.session
  }

  /** What a section of the context asks of the pool. */
  function Asked(j: System, c: Context, call: L.Step): P.System {
    if call.HandOver? then P.Next(j.pool, P.Delete(c.id))
    else if call.OnStop? && j.session.s.phase == L.Running && j.session.s.childId.Some? then
      P.Next(j.pool, P.Cancel(j.session.s.childId.value))
    else j.pool
  }

  predicate Possible(j: System, c: Context, steps: seq<Step>)
    decreases |steps|
  {
    steps != [] ==> Enabled(j, steps[0]) && Possible(Next(j, c, steps[0]), c, steps[1..])
  }

  function Run(j: System, c: Context, steps: seq<Step>): System
    requires Possible(j, c, steps)
    decreases |steps|
  {
    if steps == [] then j else Run(Next(j, c, steps[0]), c, steps[1..])
  }

  /** The context as the pool, in state `s`, takes it in. */
  function TakenIn(s: P.System, c: Context): System
    requires P.Enabled(s, P.Schedule(c))
  {
    System(P.Next(s, P.Schedule(c)), L.NewSession())
  }

  // ----- At most one result -----

  /** What the pool's runs say of the context's start and stop is what its gate says. */
  ghost predicate GateAgrees(j: System, c: Context) {
    && (c in j.pool.started <==> j.session.s.gate.hasStarted)
    && (c in j.pool.refused <==> j.session.s.gate.stopRequested)
  }

  ghost predicate Joined(j: System, c: Context) {
    && Settled(j.pool, c) && L.Sound(j.session) && GateAgrees(j, c)
    && (j.session.s.deletes > 0 ==> c !in Pooled(j.pool.pool))
  }

  lemma PoolStepKeepsPool(s: P.System, step: P.Step, c: Context)
    requires Settled(s, c) && P.Enabled(s, step)
    ensures Settled(P.Next(s, step), c)
    ensures c !in Pooled(s.pool) ==> c !in Pooled(P.Next(s, step).pool)
  {
    hide P.Next, P.Sound, OnceOnly, PoolCancellation.Doomed;
    StepIsSettled(s, step, c);
    SettledStartsOnce(s, c);
    if c !in Pooled(s.pool) {
      GoneStaysGone(s, step, c);
    }
  }

  lemma PoolStepJoins(j: System, c: Context, st: P.Step)
    requires Joined(j, c) && c.kind == SudoAuth && P.Enabled(j.pool, st)
    ensures Joined(Next(j, c, PoolStep(st)), c)
  {
    hide Settled;
    var s, x := j.pool, j.session;
    PoolStepKeepsPool(s, st, c);
    SettledStartsOnce(s, c);
    if st.Finish? && s.executor == P.Starting(c) {
      L.StepIsSound(x, L.Start);
    } else if st.Finish? && s.executor == P.Halting(c) {
      L.StepIsSound(x, L.Stop);
    }
    PoolStepAgrees(j, c, st);
  }

  lemma PoolStepAgrees(j: System, c: Context, st: P.Step)
    requires GateAgrees(j, c) && c.kind == SudoAuth && P.Enabled(j.pool, st)
    ensures var k := Next(j, c, PoolStep(st));
            GateAgrees(k, c) && k.session.s.deletes == j.session.s.deletes
  {
  }

  lemma ContextStepJoins(j: System, c: Context, call: L.Step)
    requires Joined(j, c) && Enabled(j, ContextStep(call))
    ensures Joined(Next(j, c, ContextStep(call)), c)
  {
    hide Settled;
    var s, x := j.pool, j.session;
    L.StepIsSound(x, call);
    if call.HandOver? {
      PoolStepKeepsPool(s, P.Delete(c.id), c);
      SettledIsWellFormed(s, c);
      DeleteRemovesOne(s.pool, c.id, s.dialogs);
    } else if Asked(j, c, call) != s {
      PoolStepKeepsPool(s, P.Cancel(x.s.childId.value), c);
    }
    ContextStepAgrees(j, c, call);
  }

  lemma SettledIsWellFormed(s: P.System, c: Context)
    requires Settled(s, c)
    ensures WellFormed(s.pool)
  {
  }

  lemma ContextStepAgrees(j: System, c: Context, call: L.Step)
    requires GateAgrees(j, c) && Enabled(j, ContextStep(call))
    ensures var k := Next(j, c, ContextStep(call));
            && GateAgrees(k, c)
            && (!call.HandOver? ==> k.session.s.deletes == j.session.s.deletes)
  {
    hide Asked;
    AskingCallsNobody(j, c, call);
    SectionsKeepGate(j.session, call);
  }

  lemma AskingCallsNobody(j: System, c: Context, call: L.Step)
    ensures Asked(j, c, call).started == j.pool.started && Asked(j, c, call).refused == j.pool.refused
  {
  }

  lemma SectionsKeepGate(x: L.Session, call: L.Step)
    requires !call.Start? && !call.Stop? && L.Enabled(x, call)
    ensures var y := L.Next(x, call);
            && y.s.gate.hasStarted == x.s.gate.hasStarted && y.s.gate.stopRequested == x.s.gate.stopRequested
            && (!call.HandOver? ==> y.s.deletes == x.s.deletes)
  {
    hide L.Queried;
    if call.QueryReturns? {
      QueryKeepsGate(x.s, call.ret, call.profile, call.child);
    }
  }

  lemma QueryKeepsGate(s: L.Sudo, ret: int, profile: L.Profile, child: L.Child)
    ensures var q := L.Queried(s, ret, profile, child);
            q.gate == s.gate && q.deletes == s.deletes
  {
  }

  lemma {:induction false} RunJoins(j: System, c: Context, steps: seq<Step>)
    requires Joined(j, c) && c.kind == SudoAuth && Possible(j, c, steps)
    ensures Joined(Run(j, c, steps), c)
    decreases |steps|
  {
    if steps != [] {
      hide Next, Joined;
      match steps[0] {
        case PoolStep(st) => PoolStepJoins(j, c, st);
        case ContextStep(call) => ContextStepJoins(j, c, call);
      }
      RunJoins(Next(j, c, steps[0]), c, steps[1..]);
    }
  }

  lemma NewcomerJoins(s: P.System, c: Context)
    requires P.Reachable(s) && P.Enabled(s, P.Schedule(c)) && Scheduled(s.pool, c, s.dialogs).ok
    requires c.kind == SudoAuth && !StaleStart(s, c)
    ensures Joined(TakenIn(s, c), c)
  {
    hide P.Next, P.Reachable, Settled, StaleStart, Scheduled;
    NewcomerIsSettled(s, c);
    ReachableIsTidy(s);
    ScheduleCallsNobody(s, c);
  }

  /** A sudo context taken in without a stale start: whatever callers, tasks and its own sections do, it
      decides at most one result, it is out of the pool once the result is handed over, and what the pool's
      runs say of its start and stop is what its gate says. */
  lemma PoolGivesOneResult(s: P.System, c: Context, steps: seq<Step>)
    requires P.Reachable(s) && P.Enabled(s, P.Schedule(c)) && Scheduled(s.pool, c, s.dialogs).ok
    requires c.kind == SudoAuth && !StaleStart(s, c) && Possible(TakenIn(s, c), c, steps)
    ensures var j := Run(TakenIn(s, c), c, steps);
            && |L.Results(j.session.s)| <= 1
            && (j.session.s.delivered != [] ==> c !in Pooled(j.pool.pool))
            && GateAgrees(j, c)
  {
    hide P.Next, P.Reachable, Scheduled, StaleStart, Next, TakenIn;
    NewcomerJoins(s, c);
    RunJoins(TakenIn(s, c), c, steps);
  }

  // ----- Stops -----

  /** A stop task that has found a started context gets through to its OnStop(). */
  lemma StopReachesContext(j: System, c: Context)
    requires j.pool.executor == P.Halting(c) && j.session.s.gate.hasStarted
    ensures var k := Next(j, c, PoolStep(P.Finish));
            Enabled(k, ContextStep(L.OnStop)) && c in k.pool.stopped && k.session.s == j.session.s
  {
  }

  /** OnStop() with a live child has the pool cancel exactly that child. */
  lemma StopCancelsChild(j: System, c: Context)
    requires Enabled(j, ContextStep(L.OnStop)) && j.session.s.phase == L.Running && j.session.s.childId.Some?
    ensures var k, child := Next(j, c, ContextStep(L.OnStop)), j.session.s.childId.value;
            && k.session.s.stopping
            && k.pool.pool == j.pool.pool.(cancelRequested := j.pool.pool.cancelRequested + {child})
            && k.pool.posting == j.pool.posting + [[Stop(child)]]
  {
  }

  // ----- Two results -----

  /** Some run gives the caller a second result. */
  ghost predicate MayGiveTwo(j: System, c: Context) {
    exists steps | Possible(j, c, steps) :: |L.Results(Run(j, c, steps).session.s)| >= 2
  }

  /** The context has only been called by the pool. */
  ghost predicate Untouched(j: System, c: Context) {
    var x := j.session;
    && GateAgrees(j, c)
    && x.s.phase == L.Query && x.s.owed == x.s.delivered == [] && !x.s.gate.startFailDelivered
    && (x.s.gate.hasStarted ==> x.querying > 0)
  }

  lemma StepFirst(j: System, c: Context, step: Step)
    requires Enabled(j, step) && MayGiveTwo(Next(j, c, step), c)
    ensures MayGiveTwo(j, c)
  {
    hide L.Results;
    var rest :| Possible(Next(j, c, step), c, rest) && |L.Results(Run(Next(j, c, step), c, rest).session.s)| >= 2;
    hide Next, Enabled;
    var steps := [step] + rest;
    assert steps[1..] == rest;
    assert Possible(j, c, steps) && Run(j, c, steps) == Run(Next(j, c, step), c, rest);
  }

  lemma UntouchedStays(j: System, c: Context, st: P.Step)
    requires Untouched(j, c) && c.kind == SudoAuth && P.Enabled(j.pool, st)
    ensures Untouched(Next(j, c, PoolStep(st)), c)
  {
    PoolStepAgrees(j, c, st);
    hide P.Next;
  }

  /** The start is refused and reported; and the query of the first start ends with a result as well. */
  lemma RestartGivesTwo(j: System, c: Context)
    requires Untouched(j, c) && Restarts(j.pool, c)
    ensures MayGiveTwo(j, c)
  {
    var finish := PoolStep(P.Finish);
    var fail := ContextStep(L.FailStart);
    var query := ContextStep(L.QueryReturns(Common.NOT_ENROLLED, L.Profile(0, 0), L.NotBuilt));
    var j1 := Next(j, c, finish);
    var j2 := Next(j1, c, fail);
    var j3 := Next(j2, c, query);
    assert |L.Results(j3.session.s)| == 2;
    assert Possible(j3, c, []) && Run(j3, c, []) == j3;
    hide Next, Run, Possible, L.Results;
    StepFirst(j2, c, query);
    StepFirst(j1, c, fail);
    StepFirst(j, c, finish);
  }

  lemma {:induction false} PoolRunGivesTwo(j: System, c: Context, steps: seq<P.Step>)
    requires Untouched(j, c) && c.kind == SudoAuth
    requires P.Possible(j.pool, steps) && Restarts(P.Run(j.pool, steps), c)
    ensures MayGiveTwo(j, c)
    decreases |steps|
  {
    hide MayGiveTwo, Untouched, Restarts, P.Next, P.Enabled;
    if steps == [] {
      RestartGivesTwo(j, c);
    } else {
      UntouchedStays(j, c, steps[0]);
      PoolRunGivesTwo(Next(j, c, PoolStep(steps[0])), c, steps[1..]);
      StepFirst(j, c, PoolStep(steps[0]));
    }
  }

  // ----- The exact condition -----

  /** A sudo context that the pool takes in can give its caller two results if and only if a start task for
      an earlier holder of its id is on its way, its id is not on the list of requested cancellations, and
      no stop task for it is about to look into the pool. */
  lemma TwoResultsIffStale(s: P.System, c: Context)
    requires P.Reachable(s) && P.Enabled(s, P.Schedule(c)) && Scheduled(s.pool, c, s.dialogs).ok
    requires c.kind == SudoAuth
    ensures MayGiveTwo(TakenIn(s, c), c) <==> StaleStart(s, c)
  {
    hide P.Next, Scheduled, L.Results, P.Run, P.Possible;
    var j := TakenIn(s, c);
    if StaleStart(s, c) {
      ReachableIsTidy(s);
      ScheduleCallsNobody(s, c);
      RestartsIffStale(s, c);
      var steps :| P.Possible(j.pool, steps) && Restarts(P.Run(j.pool, steps), c);
      PoolRunGivesTwo(j, c, steps);
    } else {
      forall steps | Possible(j, c, steps)
        ensures |L.Results(Run(j, c, steps).session.s)| < 2
      {
        PoolGivesOneResult(s, c, steps);
      }
    }
  }
}
