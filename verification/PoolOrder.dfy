/**
 * Stops before starts. On an executor that runs its tasks first in, first out, a context is not started
 * before those it displaces were told to stop, as long as every list of tasks has their stops in front of
 * its starts.
 */
module PoolOrder {
  import opened Contexts
  import opened Selection
  import opened Promotion
  import opened PoolOperations
  import opened PoolCancellation
  import opened PoolRuns
  import opened PoolStarts

  /** `a` conflicts with the running context `w` and was admitted before it. */
  ghost predicate InWay(running: seq<Context>, a: Context, w: Context) {
    Conflicts(a, w) && exists i, j | 0 <= i < j < |running| :: running[i] == a && running[j] == w
  }

  /** Everyone in the way of `w` who is still running has received Stop(). */
  ghost predicate StoppedBefore(s: System, w: Context) {
    forall a | InWay(s.pool.running, a, w) :: a in s.stopped
  }

  /** In this list every start of `w` comes after a stop of `a`. */
  ghost predicate StopFirst(tasks: seq<Task>, a: ContextId, w: ContextId) {
    forall k | 0 <= k < |tasks| && tasks[k] == Start(w) :: Stop(a) in tasks[..k]
  }

  /** No list of tasks brings a start of `w` in front of all stops of `a`. */
  ghost predicate TasksCover(s: System, a: ContextId, w: ContextId) {
    && StopFirst(s.queue, a, w)
    && forall l | 0 <= l < |s.posting| :: Stop(a) in s.queue || StopFirst(s.posting[l], a, w)
  }

  /** `a` has been stopped, or will be before anything starts `w`. */
  ghost predicate Covered(s: System, a: Context, w: Context) {
    || a in s.stopped
    || (s.executor != Starting(w) &&
        (s.executor == Stopping(a.id) || s.executor == Halting(a) || TasksCover(s, a.id, w.id)))
  }

  /** `a` is ahead of the waiter `w`. */
  ghost predicate Ahead(p: Pool, a: Context, w: Context) {
    exists i | 0 <= i < |p.waiting| :: p.waiting[i] == w && a in Predecessors(p, i)
  }

  /** `a` is in the way of `w`, or may be once `w` is admitted: only an older sudo context ahead of `w`
      can conflict with it and still be told to make room. */
  ghost predicate Threat(p: Pool, a: Context, w: Context) {
    || InWay(p.running, a, w)
    || (Conflicts(a, w) && a.kind == SudoAuth && a.createTime < w.createTime && Ahead(p, a, w))
  }

  lemma NoStartIsCovered(s: System, a: ContextId, w: ContextId)
    requires Start(w) !in Outstanding(s)
    ensures TasksCover(s, a, w)
  {
    forall l | 0 <= l < |s.posting|
      ensures StopFirst(s.posting[l], a, w)
    {
      if Start(w) in s.posting[l] {
        UnpostedHas(s.posting, l, Start(w));
      }
    }
  }

  lemma PlanStopsFirst(plan: Plan, a: ContextId, w: ContextId)
    requires a in plan.toStop || !Holds(plan.toStart, w)
    ensures StopFirst(PlanTasks(plan), a, w)
  {
    var order := Ascending(plan.toStop);
    AscendingListsAll(plan.toStop);
    var tasks := PlanTasks(plan);
    forall k | 0 <= k < |tasks| && tasks[k] == Start(w)
      ensures Stop(a) in tasks[..k]
    {
      assert k >= |order|;
      assert plan.toStart[k - |order|].id == w;
      var i :| 0 <= i < |order| && order[i] == a;
      assert tasks[..k][i] == Stop(a);
    }
  }

  // ----- Covered contexts stay covered -----

  /** Every threat to `w` is covered, and no task is about to start it while it waits. */
  ghost predicate Orderly(s: System, w: Context) {
    && w in s.known
    && (w in s.pool.waiting ==> s.executor != Starting(w))
    && forall a | Threat(s.pool, a, w) :: Covered(s, a, w)
  }

  lemma RunningIsNotWaiting(p: Pool, w: Context)
    requires DistinctIds(p.running + p.waiting) && w in p.running
    ensures w !in p.waiting
  {
    DistinctParts(p.running, p.waiting);
  }

  /** Whom a waiter tells to stop although it conflicts with it is an older sudo context. */
  lemma CollectedConflictIsThreat(p: Pool, dialogs: set<Context>, a: Context, w: Context)
    requires Ahead(p, a, w) && Conflicts(a, w) && Collects(w, a, dialogs)
    ensures Threat(p, a, w)
  {
    YieldsIff(w, a, a in dialogs);
  }

  lemma InWayBefore(p: Pool, dialogs: set<Context>, a: Context, w: Context)
    requires DistinctIds(p.running + p.waiting) && InWay(Promoted(p, dialogs).running, a, w)
    ensures Threat(p, a, w)
    ensures a in Collected(p, dialogs) || !Holds(Admitted(p, dialogs), w.id)
  {
    hide Conflicts, Collects;
    var run := Promoted(p, dialogs).running;
    var i, j :| 0 <= i < j < |run| && run[i] == a && run[j] == w;
    AdmittedAreDistinct(p, dialogs);
    if w in p.running {
      assert w in p.running + Promoted(p, dialogs).waiting;
      assert forall k | |p.running| <= k < |run| :: run[k] in Admitted(p, dialogs);
      assert p.running[i] == a && p.running[j] == w;
    } else {
      assert j >= |p.running|;
      AdmittedIsAhead(p, dialogs, i, j);
      CollectedConflictIsThreat(p, dialogs, a, w);
    }
  }

  /** What `PoolRuns.AdmittedCollects` says, with the place of the newly admitted context. */
  lemma AdmittedIsAhead(p: Pool, dialogs: set<Context>, i: nat, j: nat)
    requires i < j < |Promoted(p, dialogs).running| && |p.running| <= j
    requires Conflicts(Promoted(p, dialogs).running[i], Promoted(p, dialogs).running[j])
    ensures var a, w := Promoted(p, dialogs).running[i], Promoted(p, dialogs).running[j];
            Ahead(p, a, w) && Collects(w, a, dialogs) && a in Collected(p, dialogs)
  {
    hide Conflicts, Collects;
    var run := Promoted(p, dialogs).running;
    var a, x := run[i], j - |p.running|;
    var k := SelectedFrom(p.waiting, Verdicts(p, dialogs), |p.waiting|, true, x);
    ConflictIsSymmetric(a, run[j]);
    if i >= |p.running| {
      assert a == Admitted(p, dialogs)[..x][i - |p.running|];
      assert a in Elems(Admitted(p, dialogs)[..x]);
    }
    assert a in Predecessors(p, k);
    assert Admits(p, dialogs, k);
    assert a in Victims(p, dialogs, k);
  }

  lemma AheadBefore(p: Pool, dialogs: set<Context>, a: Context, w: Context)
    requires DistinctIds(p.running + p.waiting) && Ahead(Promoted(p, dialogs), a, w)
    requires Conflicts(a, w) && a.createTime < w.createTime
    ensures Ahead(p, a, w) && !Holds(Admitted(p, dialogs), w.id)
  {
    hide Conflicts;
    var q, v := Promoted(p, dialogs), Verdicts(p, dialogs);
    var x :| 0 <= x < |q.waiting| && q.waiting[x] == w && a in Predecessors(q, x);
    var i := SelectedFrom(p.waiting, v, |p.waiting|, false, x);
    AdmittedAreDistinct(p, dialogs);
    assert w in p.running + q.waiting;
    if a in Admitted(p, dialogs) {
      var y :| 0 <= y < |Admitted(p, dialogs)| && Admitted(p, dialogs)[y] == a;
      var k := SelectedFrom(p.waiting, v, |p.waiting|, true, y);
      assert Admits(p, dialogs, k) && p.waiting[k] == a;
      if i < k {
        OvertakerIsYounger(p, dialogs, i, k);
      }
      assert k < i;
      assert p.waiting[..i][k] == a;
    }
    assert a in Predecessors(p, i);
  }

  lemma OvertakerIsYounger(p: Pool, dialogs: set<Context>, i: nat, k: nat)
    requires i < k < |p.waiting| && Admits(p, dialogs, k) && Conflicts(p.waiting[k], p.waiting[i])
    ensures p.waiting[k].createTime > p.waiting[i].createTime
  {
    assert p.waiting[..k][i] == p.waiting[i];
    assert p.waiting[i] in Predecessors(p, k);
  }

  lemma ThreatBefore(p: Pool, dialogs: set<Context>, a: Context, w: Context)
    requires DistinctIds(p.running + p.waiting) && Threat(Promoted(p, dialogs), a, w)
    ensures Threat(p, a, w)
    ensures a.id in PromotionPlan(p, dialogs).toStop || !Holds(Admitted(p, dialogs), w.id)
  {
    hide Conflicts, Collects, Ahead, InWay;
    if InWay(Promoted(p, dialogs).running, a, w) {
      InWayBefore(p, dialogs, a, w);
    } else {
      AheadBefore(p, dialogs, a, w);
    }
  }

  lemma PromoteIsOrderly(s: System, p: Pool, w: Context)
    requires DistinctIds(p.running + p.waiting) && Orderly(s.(pool := p), w)
    ensures Orderly(Promote(s, p), w)
  {
    hide Covered, Threat;
    var s' := Promote(s, p);
    AdmittedAreDistinct(p, s.dialogs);
    forall a | Threat(s'.pool, a, w)
      ensures Covered(s', a, w)
    {
      ThreatBefore(p, s.dialogs, a, w);
      assert Covered(s.(pool := p), a, w);
      PromoteCovers(s, p, a, w);
    }
  }

  lemma PromoteCovers(s: System, p: Pool, a: Context, w: Context)
    requires a.id in PromotionPlan(p, s.dialogs).toStop || !Holds(Admitted(p, s.dialogs), w.id)
    ensures Covered(Promote(s, p), a, w) <==> Covered(s.(pool := p), a, w)
  {
    var s' := Promote(s, p);
    PlanStopsFirst(PromotionPlan(p, s.dialogs), a.id, w.id);
    assert forall l | 0 <= l < |s.posting| :: s'.posting[l] == s.posting[l];
  }

  lemma ScheduleIsOrderly(s: System, c: Context, w: Context)
    requires Sound(s) && Orderly(s, w) && Enabled(s, Schedule(c))
    ensures Orderly(Next(s, Schedule(c)), w)
  {
    if Scheduled(s.pool, c, s.dialogs).ok {
      var s0, p := s.(known := s.known + {c}), s.pool.(waiting := s.pool.waiting + [c]);
      NewcomerIsDistinct(s.pool, c);
      forall a | Threat(p, a, w)
        ensures Threat(s.pool, a, w)
      {
        NewcomerThreatensNobody(s.pool, c, a, w);
      }
      SameIsOrderly(s, s0.(pool := p), w);
      PromoteIsOrderly(s0, p, w);
    }
  }

  lemma NewcomerThreatensNobody(p: Pool, c: Context, a: Context, w: Context)
    requires c != w && Threat(p.(waiting := p.waiting + [c]), a, w)
    ensures Threat(p, a, w)
  {
    if !InWay(p.running, a, w) {
      var q := p.(waiting := p.waiting + [c]);
      var i :| 0 <= i < |q.waiting| && q.waiting[i] == w && a in Predecessors(q, i);
      assert q.waiting[..i] == p.waiting[..i];
      assert p.waiting[i] == w && a in Predecessors(p, i);
    }
  }

  lemma RemovedThreat(p: Pool, id: ContextId, a: Context, w: Context)
    requires DistinctIds(p.running + p.waiting) && Threat(Removed(p, id), a, w)
    ensures Threat(p, a, w)
  {
    hide Conflicts;
    var q := Removed(p, id);
    if InWay(q.running, a, w) {
      var x, y :| 0 <= x < y < |q.running| && q.running[x] == a && q.running[y] == w;
      var i, j := RemovedInOrder(p.running, id, x, y);
    } else {
      RemovedAhead(p, id, a, w);
    }
  }

  lemma RemovedAhead(p: Pool, id: ContextId, a: Context, w: Context)
    requires DistinctIds(p.running + p.waiting) && Ahead(Removed(p, id), a, w)
    ensures Ahead(p, a, w)
  {
    var q := Removed(p, id);
    var y :| 0 <= y < |q.waiting| && q.waiting[y] == w && a in Predecessors(q, y);
    var j := RemovedFrom(p.waiting, id, y);
    if a in q.running {
      StaysInPlace(p, id, a);
      assert a in Predecessors(p, j);
    } else {
      var x :| 0 <= x < y && q.waiting[x] == a;
      var i, k := RemovedInOrder(p.waiting, id, x, y);
      assert p.waiting[..k][i] == a;
      assert a in Predecessors(p, k);
    }
  }

  lemma DeleteIsOrderly(s: System, id: ContextId, w: Context)
    requires Sound(s) && Orderly(s, w)
    ensures Orderly(Next(s, Delete(id)), w)
  {
    hide Threat, Covered;
    if Deleted(s.pool, id, s.dialogs).ok {
      RemovedKeepsIdsDistinct(s.pool, id);
      StaysInPlace(s.pool, id, w);
      forall a | Threat(Removed(s.pool, id), a, w)
        ensures Threat(s.pool, a, w)
      {
        RemovedThreat(s.pool, id, a, w);
      }
      SameIsOrderly(s, s.(pool := Removed(s.pool, id)), w);
      PromoteIsOrderly(s, Removed(s.pool, id), w);
    }
  }

  /** No new threats, and the tasks are where they were. */
  lemma SameIsOrderly(s: System, s': System, w: Context)
    requires Orderly(s, w) && s.known <= s'.known
    requires w in s'.pool.waiting ==> w in s.pool.waiting
    requires forall a | Threat(s'.pool, a, w) :: Threat(s.pool, a, w)
    requires s'.stopped == s.stopped && s'.executor == s.executor
    requires s'.queue == s.queue && s'.posting == s.posting
    ensures Orderly(s', w)
  {
    hide Threat;
    forall a | Threat(s'.pool, a, w)
      ensures Covered(s', a, w)
    {
      assert Covered(s, a, w);
    }
  }

  lemma HeadIsNoStart(tasks: seq<Task>, a: ContextId, w: ContextId)
    requires tasks != [] && StopFirst(tasks, a, w)
    ensures tasks[0] != Start(w)
  {
    assert Stop(a) !in tasks[..0];
  }

  lemma TailStopsFirst(tasks: seq<Task>, a: ContextId, w: ContextId)
    requires tasks != [] && tasks[0] != Stop(a) && StopFirst(tasks, a, w)
    ensures StopFirst(tasks[1..], a, w)
  {
    forall k | 0 <= k < |tasks[1..]| && tasks[1..][k] == Start(w)
      ensures Stop(a) in tasks[1..][..k]
    {
      assert Stop(a) in tasks[..k + 1];
      assert tasks[..k + 1] == [tasks[0]] + tasks[1..][..k];
    }
  }

  lemma PostCovers(s: System, k: nat, a: ContextId, w: ContextId)
    requires k < |s.posting| && s.posting[k] != [] && TasksCover(s, a, w)
    ensures TasksCover(PostOne(s, k), a, w)
  {
    var s', t := PostOne(s, k), s.posting[k][0];
    if Stop(a) !in s.queue {
      HeadIsNoStart(s.posting[k], a, w);
    }
    forall j | 0 <= j < |s'.queue| && s'.queue[j] == Start(w)
      ensures Stop(a) in s'.queue[..j]
    {
      assert s'.queue[..j] == if j < |s.queue| then s.queue[..j] else s.queue;
    }
    forall l | 0 <= l < |s'.posting|
      ensures Stop(a) in s'.queue || StopFirst(s'.posting[l], a, w)
    {
      if l == k && t != Stop(a) && Stop(a) !in s.queue {
        TailStopsFirst(s.posting[k], a, w);
      } else if t == Stop(a) {
        assert s'.queue[|s.queue|] == Stop(a);
      } else {
        assert Stop(a) in s.queue ==> Stop(a) in s'.queue;
      }
    }
  }

  lemma BeginCovers(s: System, a: Context, w: Context)
    requires Enabled(s, Begin(0)) && Covered(s, a, w)
    ensures Covered(Next(s, Begin(0)), a, w)
  {
    var s' := Next(s, Begin(0));
    assert s'.queue == s.queue[1..];
    if a !in s.stopped && s.queue[0] != Stop(a.id) {
      TailStopsFirst(s.queue, a.id, w.id);
      assert Stop(a.id) in s.queue ==> Stop(a.id) in s'.queue;
      HeadIsNoStart(s.queue, a.id, w.id);
    }
  }

  lemma LookCovers(s: System, a: Context, w: Context)
    requires Sound(s) && s.executor.Stopping? && a in Pooled(s.pool) && Covered(s, a, w)
    ensures Covered(Next(s, Look), a, w)
  {
    if s.executor == Stopping(a.id) {
      SoleHolder(s.pool, a, Find(s.pool, a.id));
    }
  }

  /** The steps that move tasks but no contexts. */
  predicate MovesTasks(step: Step) {
    step.Cancel? || step.Post? || step == Begin(0) || step.Look? || step.Finish?
  }

  lemma TaskStepCovers(s: System, step: Step, a: Context, w: Context)
    requires Sound(s) && a in Pooled(s.pool) && Covered(s, a, w)
    requires MovesTasks(step) && Enabled(s, step)
    ensures Covered(Next(s, step), a, w)
  {
    match step
    case Post(k) =>
      if TasksCover(s, a.id, w.id) {
        PostCovers(s, k, a.id, w.id);
      }
    case Begin(_) => BeginCovers(s, a, w);
    case Look => LookCovers(s, a, w);
    case _ =>
  }

  lemma TaskStepIsOrderly(s: System, step: Step, w: Context)
    requires Sound(s) && Orderly(s, w) && MovesTasks(step) && Enabled(s, step)
    ensures Orderly(Next(s, step), w)
  {
    hide Covered;
    var s' := Next(s, step);
    TaskStepKeepsWaiter(s, step, w);
    forall a | Threat(s'.pool, a, w)
      ensures Covered(s', a, w)
    {
      SameThreat(s.pool, s'.pool, a, w);
      assert Covered(s, a, w);
      ThreatIsPooled(s.pool, a, w);
      TaskStepCovers(s, step, a, w);
    }
  }

  lemma SameThreat(p: Pool, q: Pool, a: Context, w: Context)
    requires p.running == q.running && p.waiting == q.waiting
    ensures Threat(p, a, w) == Threat(q, a, w)
  {
    assert forall i | 0 <= i < |p.waiting| :: Predecessors(p, i) == Predecessors(q, i);
  }

  lemma ThreatIsPooled(p: Pool, a: Context, w: Context)
    requires Threat(p, a, w)
    ensures a in Pooled(p) && w in Pooled(p)
  {
  }

  lemma TaskStepKeepsWaiter(s: System, step: Step, w: Context)
    requires Sound(s) && MovesTasks(step) && Enabled(s, step)
    requires w in s.pool.waiting ==> s.executor != Starting(w)
    ensures w in Next(s, step).pool.waiting ==> Next(s, step).executor != Starting(w)
  {
    if w in s.pool.waiting && w in s.pool.running {
      RunningIsNotWaiting(s.pool, w);
    }
  }

  lemma StepIsOrderly(s: System, step: Step, w: Context)
    requires Sound(s) && Orderly(s, w) && Enabled(s, step) && (step.Begin? ==> step.place == 0)
    ensures Orderly(Next(s, step), w)
  {
    match step
    case Schedule(c) => ScheduleIsOrderly(s, c, w);
    case Delete(id) => DeleteIsOrderly(s, id, w);
    case Notify => PromoteIsOrderly(s, s.pool, w);
    case Dialogs(_) => SameIsOrderly(s, Next(s, step), w);
    case _ => TaskStepIsOrderly(s, step, w);
  }

  predicate FifoRun(steps: seq<Step>) {
    forall step | step in steps && step.Begin? :: step.place == 0
  }

  lemma {:induction false} RunIsOrderly(s: System, steps: seq<Step>, w: Context)
    requires Sound(s) && Orderly(s, w) && Possible(s, steps) && FifoRun(steps)
    ensures Orderly(Run(s, steps), w)
    decreases |steps|
  {
    if steps != [] {
      StepIsSound(s, steps[0]);
      StepIsOrderly(s, steps[0], w);
      RunIsOrderly(Next(s, steps[0]), steps[1..], w);
    }
  }

  /** Some first-in-first-out continuation is about to start `w` with somebody in its way not stopped. */
  ghost predicate MayOvertake(s: System, w: Context) {
    exists steps | Possible(s, steps) ::
      FifoRun(steps) && Run(s, steps).executor == Starting(w) && !StoppedBefore(Run(s, steps), w)
  }

  lemma OrderlyIsNotOvertaken(s: System, w: Context)
    requires Sound(s) && Orderly(s, w)
    ensures !MayOvertake(s, w)
  {
    hide Covered, Threat, InWay;
    forall steps | Possible(s, steps) && FifoRun(steps) && Run(s, steps).executor == Starting(w)
      ensures StoppedBefore(Run(s, steps), w)
    {
      RunIsOrderly(s, steps, w);
      CoveredAtStart(Run(s, steps), w);
    }
  }

  lemma CoveredAtStart(s: System, w: Context)
    requires Orderly(s, w) && s.executor == Starting(w)
    ensures StoppedBefore(s, w)
  {
    forall a | InWay(s.pool.running, a, w)
      ensures a in s.stopped
    {
      assert Threat(s.pool, a, w);
    }
  }

  lemma ReachableNewcomer(s: System, w: Context)
    requires Reachable(s) && Enabled(s, Schedule(w)) && Scheduled(s.pool, w, s.dialogs).ok
    ensures var s' := Next(s, Schedule(w));
            && Tidy(s') && w in s'.known && w in Pooled(s'.pool) && s'.executor != Starting(w)
            && s'.pool.cancelRequested == s.pool.cancelRequested
  {
    ReachableIsTidy(s);
    StepIsTidy(s, Schedule(w));
    ScheduleAddsOne(s.pool, w, s.dialogs);
  }

  /** Of whom a newcomer threatens to overtake, the tasks posted for it change nothing. */
  lemma NewcomerCovers(s: System, a: Context, w: Context)
    requires Tidy(s) && Enabled(s, Schedule(w)) && Scheduled(s.pool, w, s.dialogs).ok
    requires Threat(Next(s, Schedule(w)).pool, a, w)
    ensures Covered(Next(s, Schedule(w)), a, w) <==> Covered(s, a, w)
  {
    hide Threat;
    var s0, p := s.(known := s.known + {w}), s.pool.(waiting := s.pool.waiting + [w]);
    NewcomerIsDistinct(s.pool, w);
    ThreatBefore(p, s.dialogs, a, w);
    PromoteCovers(s0, p, a, w);
  }

  /** A newcomer whose id no start task on its way refers to is never started too early: on a
      first-in-first-out executor, whenever a task is about to call its Start(), every conflicting context
      admitted before it that is still running has received Stop(). It does not matter which other ids
      are taken again. */
  lemma StartsAfterStops(s: System, w: Context)
    requires Reachable(s) && Enabled(s, Schedule(w)) && Scheduled(s.pool, w, s.dialogs).ok
    requires Start(w.id) !in Outstanding(s)
    ensures !MayOvertake(Next(s, Schedule(w)), w)
  {
    hide Next, Enabled, Scheduled, Threat;
    var s' := Next(s, Schedule(w));
    ReachableIsTidy(s);
    ReachableNewcomer(s, w);
    forall a | Threat(s'.pool, a, w)
      ensures Covered(s', a, w)
    {
      NoStartIsCovered(s, a.id, w.id);
      NotStarting(s, w);
      NewcomerCovers(s, a, w);
    }
    OrderlyIsNotOvertaken(s', w);
  }

  lemma NotStarting(s: System, w: Context)
    requires Tidy(s) && Enabled(s, Schedule(w))
    ensures s.executor != Starting(w)
  {
  }
}
