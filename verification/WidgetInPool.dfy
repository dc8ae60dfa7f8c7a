/**
 * A widget context and the pool that drives it: its Start() and Stop() are called by the pool's tasks, it
 * cancels its children there when it ends, and deletes itself from there when it is released.
 */
module WidgetInPool {
  import Common
  import opened Contexts
  import opened Promotion
  import opened PoolOperations
  import opened PoolRestarts
  import opened PoolStarts
  import P = PoolRuns
  import W = WidgetLifecycle

  datatype System = System(pool: P.System, session: W.Session)

  /** `stored` is for a stop that ends the session: whether its attributes could all be set. */
  datatype Step = PoolStep(step: P.Step, stored: bool) | ContextStep(call: W.Step)

  predicate Enabled(j: System, step: Step) {
    match step
    case PoolStep(st, _) => P.Enabled(j.pool, st)
    case ContextStep(call) => !call.Start? && !call.Stop? && W.Enabled(j.session, call)
  }

  /** What a step of the pool calls on the context. A stop of a context that has started ends it. */
  function Called(j: System, c: Context, st: P.Step, stored: bool): W.Session {
    if st.Finish? && j.pool.executor == P.Starting(c) then W.Next(j.session, W.Start)
    else if st.Finish? && j.pool.executor == P.Halting(c) then
      if j.session.w.phase == W.NotStarted then W.Next(j.session, W.Stop)
      else W.Next(j.session, W.End(Common.CANCELED, stored))
    else j.session
  }

  function CancelEach(s: P.System, ids: seq<nat>): P.System
    decreases |ids|
  {
    if ids == [] then s else CancelEach(P.Next(s, P.Cancel(ids[0])), ids[1..])
  }

  /** What the context has asked of the pool on the way from `w` to `w'`. */
  function Asked(s: P.System, c: Context, w: W.Widget, w': W.Widget): P.System {
    var s1 := if w.cancels <= w'.cancels then CancelEach(s, w'.cancels[|w.cancels|..]) else s;
    if w'.deletes > w.deletes then P.Next(s1, P.Delete(c.id)) else s1
  }

  function Next(j: System, c: Context, step: Step): System
    requires Enabled(j, step)
  {
    match step
    case PoolStep(st, stored) =>
      var session := Called(j, c, st, stored);
      System(Asked(P.Next(j.pool, st), c, j.session.w, session.w), session)
    case ContextStep(call) =>
      var session := W.Next(j.session, call);
      System(Asked(j.pool, c, j.session.w, session.w), session)
  }

  predicate Possible(j: System, c: Context, steps: seq<Step>)
    decreases |steps|
  {
    steps != [] ==> Enabled(j, steps[0]) && Possible(Next(j, c, steps[0]), c, steps[1..])
  }

  function Run(j: System, c: Context, steps: seq<Step>): System
    requires Possible(j, c, steps)
    decreases |steps|
  {
    if steps == [] then j else Run(Next(j, c, steps[0]), c, steps[1..])
  }

  /** The context as the pool, in state `s`, takes it in. */
  function TakenIn(s: P.System, c: Context, setup: W.Setup): System
    requires P.Enabled(s, P.Schedule(c))
  {
    System(P.Next(s, P.Schedule(c)), W.NewSession(setup))
  }

  // ----- What every run keeps -----

  /** Who runs was started, and who was started or refused its start is past it. */
  ghost predicate PhaseAgrees(s: P.System, w: W.Widget, c: Context) {
    && (w.phase == W.Running ==> c in s.started)
    && (c in s.started || c in s.refused ==> w.phase != W.NotStarted)
  }

  ghost predicate Joined(j: System, c: Context) {
    && Tidy(j.pool) && c in j.pool.known && W.Sound(j.session) && PhaseAgrees(j.pool, j.session.w, c)
    && (j.session.w.deletes > 0 ==> c !in Pooled(j.pool.pool))
  }

  lemma PoolStepKeepsPool(s: P.System, step: P.Step, c: Context)
    requires Tidy(s) && P.Enabled(s, step) && c in s.known
    ensures Tidy(P.Next(s, step)) && c in P.Next(s, step).known
    ensures c !in Pooled(s.pool) ==> c !in Pooled(P.Next(s, step).pool)
  {
    StepIsTidy(s, step);
    if c !in Pooled(s.pool) {
      GoneStaysGone(s, step, c);
    }
  }

  /** What a context asks of the pool calls nobody, and a deletion takes it out. */
  lemma AskingKeepsPool(s: P.System, c: Context, w: W.Widget, w': W.Widget)
    requires Tidy(s) && c in s.known
    ensures var t := Asked(s, c, w, w');
            && Tidy(t) && c in t.known && t.started == s.started && t.refused == s.refused && t.executor == s.executor
            && (c !in Pooled(s.pool) || w'.deletes > w.deletes ==> c !in Pooled(t.pool))
            && (Settled(s, c) ==> Settled(t, c))
  {
    var s1 := s;
    if w.cancels <= w'.cancels {
      CancellingKeepsPool(s, c, w'.cancels[|w.cancels|..]);
      s1 := CancelEach(s, w'.cancels[|w.cancels|..]);
    }
    if w'.deletes > w.deletes {
      PoolStepKeepsPool(s1, P.Delete(c.id), c);
      DeleteRemovesOne(s1.pool, c.id, s1.dialogs);
      DeletingCallsNobody(s1, c.id);
      if Settled(s, c) {
        StepIsSettled(s1, P.Delete(c.id), c);
      }
    }
  }

  lemma DeletingCallsNobody(s: P.System, id: ContextId)
    ensures var t := P.Next(s, P.Delete(id));
            t.started == s.started && t.refused == s.refused && t.executor == s.executor
  {
  }

  lemma {:induction false} CancellingKeepsPool(s: P.System, c: Context, ids: seq<nat>)
    requires Tidy(s) && c in s.known
    ensures var t := CancelEach(s, ids);
            && Tidy(t) && c in t.known && t.started == s.started && t.refused == s.refused && t.executor == s.executor
            && (c !in Pooled(s.pool) ==> c !in Pooled(t.pool))
            && (Settled(s, c) ==> Settled(t, c))
    decreases |ids|
  {
    hide Settled, Tidy;
    if ids != [] {
      PoolStepKeepsPool(s, P.Cancel(ids[0]), c);
      if Settled(s, c) {
        StepIsSettled(s, P.Cancel(ids[0]), c);
      }
      CancellingKeepsPool(P.Next(s, P.Cancel(ids[0])), c, ids[1..]);
    }
  }

  /** No section of the context but Start() makes it run. */
  lemma OnlyStartRuns(x: W.Session, call: W.Step)
    requires W.Sound(x) && W.Enabled(x, call) && !call.Start?
    ensures W.Next(x, call).w.phase == W.Running ==> x.w.phase == W.Running
    ensures x.w.phase != W.NotStarted ==> W.Next(x, call).w.phase != W.NotStarted
  {
    hide W.ResultProcessed, W.ScheduleAnswered;
    if call.ExecuteAuthList? && x.w.phase.Before(W.Stopping) {
      W.LaunchingKeepsPhase(x.w, call.launches, call.scheduled);
    } else if call.Report? {
      W.ProcessingKeepsPhase(x.w, call.result);
    } else if call.ScheduleEnds? {
      W.AnswerEnds(x.w, call.answer, call.stored);
    }
  }

  lemma CallAgrees(j: System, c: Context, st: P.Step, stored: bool)
    requires W.Sound(j.session) && PhaseAgrees(j.pool, j.session.w, c) && P.Enabled(j.pool, st)
    requires c.kind == WidgetAuth
    ensures var x := Called(j, c, st, stored);
            W.Sound(x) && PhaseAgrees(P.Next(j.pool, st), x.w, c)
  {
    var x := j.session;
    if st.Finish? && j.pool.executor == P.Starting(c) {
      W.StepIsSound(x, W.Start);
    } else if st.Finish? && j.pool.executor == P.Halting(c) {
      var call := if x.w.phase == W.NotStarted then W.Stop else W.End(Common.CANCELED, stored);
      W.StepIsSound(x, call);
      OnlyStartRuns(x, call);
    }
  }

  lemma DeletesOnce(x: W.Session, y: W.Session)
    requires W.Sound(x) && W.Sound(y)
    ensures y.w.deletes > 0 ==> x.w.deletes > 0 || y.w.deletes > x.w.deletes
  {
  }

  lemma StepJoins(j: System, c: Context, step: Step)
    requires Joined(j, c) && c.kind == WidgetAuth && Enabled(j, step)
    ensures Joined(Next(j, c, step), c)
    ensures Settled(j.pool, c) ==> Settled(Next(j, c, step).pool, c)
  {
    hide W.Next, W.Sound, P.Next, Asked, Called, Tidy, Settled, W.Enabled, P.Enabled;
    var x := j.session;
    match step
    case PoolStep(st, stored) =>
      var y, s := Called(j, c, st, stored), P.Next(j.pool, st);
      CallAgrees(j, c, st, stored);
      PoolStepKeepsPool(j.pool, st, c);
      if Settled(j.pool, c) {
        StepIsSettled(j.pool, st, c);
      }
      AskingKeepsPool(s, c, x.w, y.w);
      DeletesOnce(x, y);
    case ContextStep(call) =>
      var y := W.Next(x, call);
      W.StepIsSound(x, call);
      OnlyStartRuns(x, call);
      AskingKeepsPool(j.pool, c, x.w, y.w);
      DeletesOnce(x, y);
  }

  lemma {:induction false} RunJoins(j: System, c: Context, steps: seq<Step>)
    requires Joined(j, c) && c.kind == WidgetAuth && Possible(j, c, steps)
    ensures Joined(Run(j, c, steps), c)
    ensures Settled(j.pool, c) ==> Settled(Run(j, c, steps).pool, c)
    decreases |steps|
  {
    hide Next, Joined, Settled;
    if steps != [] {
      StepJoins(j, c, steps[0]);
      RunJoins(Next(j, c, steps[0]), c, steps[1..]);
    }
  }

  lemma NewcomerJoins(s: P.System, c: Context, setup: W.Setup)
    requires P.Reachable(s) && P.Enabled(s, P.Schedule(c)) && Scheduled(s.pool, c, s.dialogs).ok
    ensures Joined(TakenIn(s, c, setup), c)
  {
    hide P.Next, P.Reachable, Tidy, Scheduled;
    ReachableIsTidy(s);
    StepIsTidy(s, P.Schedule(c));
    ScheduleCallsNobody(s, c);
    NewcomerIsKnown(s, c);
  }

  lemma NewcomerIsKnown(s: P.System, c: Context)
    requires P.Enabled(s, P.Schedule(c)) && Scheduled(s.pool, c, s.dialogs).ok
    ensures c in P.Next(s, P.Schedule(c)).known
  {
  }

  /** However the pool calls a widget context, stale starts included, the caller gets at most one result,
      and one exactly if the phase says so; and it is out of the pool once it asked to be deleted. */
  lemma PoolGivesOneResult(s: P.System, c: Context, setup: W.Setup, steps: seq<Step>)
    requires P.Reachable(s) && P.Enabled(s, P.Schedule(c)) && Scheduled(s.pool, c, s.dialogs).ok
    requires c.kind == WidgetAuth && Possible(TakenIn(s, c, setup), c, steps)
    ensures var j := Run(TakenIn(s, c, setup), c, steps);
            && |j.session.w.delivered| == (if j.session.w.phase.Before(W.ResultDelivered) then 0 else 1)
            && (j.session.w.phase == W.Released ==> c !in Pooled(j.pool.pool))
  {
    hide P.Next, P.Reachable, Scheduled, Next, TakenIn;
    NewcomerJoins(s, c, setup);
    RunJoins(TakenIn(s, c, setup), c, steps);
  }

  // ----- Stops -----

  lemma {:induction false} CancelEachRequests(s: P.System, ids: seq<nat>)
    ensures var t := CancelEach(s, ids);
            && t.pool == s.pool.(cancelRequested := s.pool.cancelRequested + set id | id in ids)
            && (forall id | id in ids :: [Stop(id)] in t.posting)
            && (forall tasks | tasks in s.posting :: tasks in t.posting)
    decreases |ids|
  {
    if ids == [] {
      assert s.pool == s.pool.(cancelRequested := s.pool.cancelRequested + {});
    } else {
      var s1 := P.Next(s, P.Cancel(ids[0]));
      assert s1.posting[|s.posting|] == [Stop(ids[0])];
      assert ids == [ids[0]] + ids[1..];
      CancelEachRequests(s1, ids[1..]);
    }
  }

  /** A stop task that has found a session not yet over ends it: the caller is told CANCELED, or an error if
      there is a token that could not be attached, and the pool is asked to cancel each of its children. */
  lemma StopEndsSession(j: System, c: Context, stored: bool)
    requires Joined(j, c) && j.pool.executor == P.Halting(c) && j.session.w.phase == W.Running
    ensures var w, k := j.session.w, Next(j, c, PoolStep(P.Finish, stored));
            && k.session.w.delivered ==
               [if w.info.token != [] && !stored then Common.GENERAL_ERROR else Common.CANCELED]
            && (forall id | id in w.runTasks :: id in k.pool.pool.cancelRequested && [Stop(id)] in k.pool.posting)
  {
    hide P.Next, Asked, W.Ended;
    var x, s := j.session, P.Next(j.pool, P.Finish);
    var y := W.Next(x, W.End(Common.CANCELED, stored));
    assert Called(j, c, P.Finish, stored) == y;
    W.EndDelivers(x, Common.CANCELED, stored);
    StoppedCancels(x.w, stored);
    assert y.w.cancels[|x.w.cancels|..] == x.w.runTasks;
    AskedRequests(s, c, x.w, y.w);
  }

  /** The pool is asked to cancel whom the context has listed since. */
  lemma AskedRequests(s: P.System, c: Context, w: W.Widget, w': W.Widget)
    requires w.cancels <= w'.cancels
    ensures var t := Asked(s, c, w, w');
            forall id | id in w'.cancels[|w.cancels|..] :: id in t.pool.cancelRequested && [Stop(id)] in t.posting
  {
    var ids := w'.cancels[|w.cancels|..];
    CancelEachRequests(s, ids);
    DeletingKeepsRequests(CancelEach(s, ids), c.id);
    hide P.Next, CancelEach;
  }

  lemma StoppedCancels(w: W.Widget, stored: bool)
    requires w.phase == W.Running
    ensures W.Ended(w, Common.CANCELED, stored).cancels == w.cancels + w.runTasks
  {
  }

  lemma DeletingKeepsRequests(s: P.System, id: ContextId)
    ensures var t := P.Next(s, P.Delete(id));
            t.pool.cancelRequested == s.pool.cancelRequested && forall tasks | tasks in s.posting :: tasks in t.posting
  {
  }

  // ----- A start of a session that runs -----

  /** A start task is about to call Start() on the running session. */
  predicate BreaksIn(j: System, c: Context) {
    j.pool.executor == P.Starting(c) && j.session.w.phase == W.Running
  }

  ghost predicate MayBreakIn(j: System, c: Context) {
    exists steps | Possible(j, c, steps) :: BreaksIn(Run(j, c, steps), c)
  }

  /** What comes of it: the start fails, and once that is reported back the session is over, with an error
      for its result and its place in the pool given up. */
  lemma BreakingInEnds(j: System, c: Context, stored: bool, code: int)
    requires Joined(j, c) && c.kind == WidgetAuth && BreaksIn(j, c)
    ensures Enabled(j, PoolStep(P.Finish, stored))
    ensures var j1 := Next(j, c, PoolStep(P.Finish, stored));
            && Enabled(j1, ContextStep(W.FailStart(code)))
            && j1.session.w.phase == W.Running && j1.session.w.latestError == Common.GENERAL_ERROR
            && var j2 := Next(j1, c, ContextStep(W.FailStart(code)));
               && j2.session.w.delivered == [code] && j2.session.w.phase == W.Released
               && c !in Pooled(j2.pool.pool)
  {
    var finish, fail := PoolStep(P.Finish, stored), ContextStep(W.FailStart(code));
    var j1 := Next(j, c, finish);
    FailedStartReported(j.session, code);
    StepJoins(j, c, finish);
    StepJoins(j1, c, fail);
    hide P.Next, Asked;
  }

  lemma FailedStartReported(x: W.Session, code: int)
    requires W.Sound(x) && x.w.phase == W.Running
    ensures var y := W.Next(x, W.Start);
            && W.Enabled(y, W.FailStart(code)) && y.w.phase == W.Running && y.w.latestError == Common.GENERAL_ERROR
            && var z := W.Next(y, W.FailStart(code));
               z.w.delivered == [code] && z.w.phase == W.Released && z.w.deletes == 1
  {
  }

  lemma StepFirst(j: System, c: Context, step: Step)
    requires Enabled(j, step) && MayBreakIn(Next(j, c, step), c)
    ensures MayBreakIn(j, c)
  {
    var rest :| Possible(Next(j, c, step), c, rest) && BreaksIn(Run(Next(j, c, step), c, rest), c);
    hide Next, Enabled, BreaksIn;
    var steps := [step] + rest;
    assert steps[1..] == rest;
    assert Possible(j, c, steps) && Run(j, c, steps) == Run(Next(j, c, step), c, rest);
  }

  /** The context has only been called by start tasks, as long as it has not been stopped. */
  ghost predicate OnlyStarted(j: System, c: Context) {
    && j.pool.refused <= j.pool.stopped
    && (c !in j.pool.stopped ==>
          j.session.w.phase == if c in j.pool.started then W.Running else W.NotStarted)
  }

  /** A step of the pool that asks nothing of the context but to start. */
  lemma OnlyStartedStays(j: System, c: Context, st: P.Step)
    requires OnlyStarted(j, c) && P.Enabled(j.pool, st)
    requires c !in P.Next(j.pool, st).stopped
    ensures var k := Next(j, c, PoolStep(st, true));
            OnlyStarted(k, c) && k.pool == P.Next(j.pool, st)
  {
  }

  lemma {:induction false} StoppedGrows(s: P.System, steps: seq<P.Step>)
    requires P.Possible(s, steps)
    ensures s.stopped <= P.Run(s, steps).stopped
    decreases |steps|
  {
    if steps != [] {
      StoppedGrows(P.Next(s, steps[0]), steps[1..]);
    }
  }

  lemma {:induction false} PoolRunBreaksIn(j: System, c: Context, steps: seq<P.Step>)
    requires OnlyStarted(j, c) && P.Possible(j.pool, steps) && Restarts(P.Run(j.pool, steps), c)
    ensures MayBreakIn(j, c)
    decreases |steps|
  {
    hide P.Next, P.Enabled, Next;
    if steps == [] {
      assert Possible(j, c, []) && Run(j, c, []) == j;
    } else {
      var step := PoolStep(steps[0], true);
      StoppedGrows(P.Next(j.pool, steps[0]), steps[1..]);
      OnlyStartedStays(j, c, steps[0]);
      PoolRunBreaksIn(Next(j, c, step), c, steps[1..]);
      StepFirst(j, c, step);
    }
  }

  /** A start task may call Start() on the running session of a widget context that the pool takes in if
      and only if a start task for an earlier holder of its id is on its way, its id is not on the list of
      requested cancellations, and no stop task for it is about to look into the pool. */
  lemma BreaksInIffStale(s: P.System, c: Context, setup: W.Setup)
    requires P.Reachable(s) && P.Enabled(s, P.Schedule(c)) && Scheduled(s.pool, c, s.dialogs).ok
    requires c.kind == WidgetAuth
    ensures MayBreakIn(TakenIn(s, c, setup), c) <==> StaleStart(s, c)
  {
    hide P.Next, Scheduled, P.Run, P.Possible, StaleStart, Joined;
    var j := TakenIn(s, c, setup);
    if StaleStart(s, c) {
      RestartsIffStale(s, c);
      NewcomerIsUntouched(s, c, setup);
      var steps :| P.Possible(j.pool, steps) && Restarts(P.Run(j.pool, steps), c);
      PoolRunBreaksIn(j, c, steps);
    } else {
      NewcomerIsSettled(s, c);
      NewcomerJoins(s, c, setup);
      forall steps | Possible(j, c, steps)
        ensures !BreaksIn(Run(j, c, steps), c)
      {
        RunJoins(j, c, steps);
        SettledIsNotBrokenIn(Run(j, c, steps), c);
      }
    }
  }

  lemma NewcomerIsUntouched(s: P.System, c: Context, setup: W.Setup)
    requires P.Reachable(s) && P.Enabled(s, P.Schedule(c))
    ensures OnlyStarted(TakenIn(s, c, setup), c)
  {
    ReachableIsTidy(s);
    StepIsTidy(s, P.Schedule(c));
    ScheduleCallsNobody(s, c);
    hide P.Reachable;
  }

  lemma SettledIsNotBrokenIn(j: System, c: Context)
    requires Joined(j, c) && Settled(j.pool, c)
    ensures !BreaksIn(j, c)
  {
    SettledStartsOnce(j.pool, c);
  }
}
