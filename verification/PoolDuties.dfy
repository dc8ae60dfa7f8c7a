/**
 * That what is decided is carried out: every operation posts the tasks that its promotion calls for, and in
 * every run whoever is in a stop plan is stopped, and whoever is let in is started or stopped.
 */
module PoolDuties {
  import opened Contexts
  import opened Selection
  import opened Promotion
  import opened PoolOperations
  import opened PoolRuns
  import opened PoolCancellation
  import opened PoolStarts

  // ----- The tasks an operation posts -----

  lemma {:induction false} AscendingIsAsLong(ids: set<ContextId>)
    ensures |Ascending(ids)| == |ids|
  {
    if ids != {} {
      AscendingIsAsLong(ids - {Ascending(ids)[0]});
    }
  }

  /** The tasks of a plan: first a stop for each planned id, once each and ascending, and then a start for
      each admitted context, in the order of admission. Nothing is posted only if nothing is planned. */
  lemma PlanTasksListPlan(plan: Plan)
    ensures var tasks, n := PlanTasks(plan), |plan.toStop|;
            && |tasks| == n + |plan.toStart|
            && (forall id | id in plan.toStop :: Stop(id) in tasks[..n])
            && (forall k | 0 <= k < n :: tasks[k].Stop? && tasks[k].id in plan.toStop)
            && (forall i, j | 0 <= i < j < n :: tasks[i].id < tasks[j].id)
            && (forall k | 0 <= k < |plan.toStart| :: tasks[n + k] == Start(plan.toStart[k].id))
  {
    var order, tasks := Ascending(plan.toStop), PlanTasks(plan);
    AscendingIsAsLong(plan.toStop);
    AscendingListsAll(plan.toStop);
    hide Ascending;
    forall id | id in plan.toStop
      ensures Stop(id) in tasks[..|order|]
    {
      var k :| 0 <= k < |order| && order[k] == id;
      assert tasks[..|order|][k] == Stop(id);
    }
    assert forall k | 0 <= k < |order| :: tasks[k] == Stop(order[k]);
  }

  lemma {:induction false} CountStops(order: seq<ContextId>, id: ContextId)
    requires forall i, j | 0 <= i < j < |order| :: order[i] < order[j]
    ensures multiset(Stops(order))[Stop(id)] == if id in order then 1 else 0
  {
    if order != [] {
      var n := |order| - 1;
      CountStops(order[..n], id);
      assert Stops(order) == Stops(order[..n]) + [Stop(order[n])];
      assert order == order[..n] + [order[n]];
    }
  }

  lemma CountPlannedStops(plan: Plan, id: ContextId)
    ensures multiset(PlanTasks(plan))[Stop(id)] == if id in plan.toStop then 1 else 0
  {
    AscendingListsAll(plan.toStop);
    CountStops(Ascending(plan.toStop), id);
    assert Stop(id) !in Starts(plan.toStart);
  }

  /** Some waiter may displace a context of that id that runs or is ahead of it in the queue. */
  ghost predicate Displaced(p: Pool, dialogs: set<Context>, id: ContextId) {
    exists i, m | 0 <= i < |p.waiting| && (m in p.running || m in p.waiting[..i]) ::
      m.id == id && Collects(p.waiting[i], m, dialogs)
  }

  /** First stops, by ascending id, and then a start for each context behind the old running ones, in order. */
  ghost predicate StopsThenStarts(tasks: seq<Task>, before: seq<Context>, after: seq<Context>) {
    var n := |tasks| - (|after| - |before|);
    && before <= after && 0 <= n
    && (forall i | 0 <= i < n :: tasks[i].Stop?)
    && (forall i, j | 0 <= i < j < n :: tasks[i].id < tasks[j].id)
    && (forall k | |before| <= k < |after| :: tasks[n + (k - |before|)] == Start(after[k].id))
  }

  /** The tasks that turn `p` into `q`: one start for everybody who runs now and did not before, and for
      nobody else; and one stop for every id that is displaced, and for no other. */
  ghost predicate Tells(tasks: seq<Task>, p: Pool, q: Pool, dialogs: set<Context>) {
    && StopsThenStarts(tasks, p.running, q.running)
    && (forall m | m in q.running :: multiset(tasks)[Start(m.id)] == if m in p.running then 0 else 1)
    && (forall id | Start(id) in tasks :: exists m | m in q.running && m !in p.running :: m.id == id)
    && (forall id :: multiset(tasks)[Stop(id)] == if Displaced(p, dialogs, id) then 1 else 0)
  }

  lemma DisplacedIffPlanned(p: Pool, dialogs: set<Context>, id: ContextId)
    ensures Displaced(p, dialogs, id) <==> id in PromotionPlan(p, dialogs).toStop
  {
    hide Collects;
    if id in PromotionPlan(p, dialogs).toStop {
      var m :| m in Collected(p, dialogs) && m.id == id;
      var i :| 0 <= i < |p.waiting| && m in Victims(p, dialogs, i);
    }
    if Displaced(p, dialogs, id) {
      var i, m :| 0 <= i < |p.waiting| && (m in p.running || m in p.waiting[..i])
                  && m.id == id && Collects(p.waiting[i], m, dialogs);
      assert m in Victims(p, dialogs, i);
      assert m in Collected(p, dialogs);
    }
  }

  lemma PromotionTells(p: Pool, dialogs: set<Context>)
    requires DistinctIds(p.running + p.waiting)
    ensures Tells(PlanTasks(PromotionPlan(p, dialogs)), p, Promoted(p, dialogs), dialogs)
  {
    hide PlanTasks, Displaced, PromotionPlan, Promoted, StopsThenStarts;
    var q, plan := Promoted(p, dialogs), PromotionPlan(p, dialogs);
    PromotionTellsInOrder(p, dialogs);
    forall id
      ensures Start(id) in PlanTasks(plan) ==> exists m | m in q.running && m !in p.running :: m.id == id
      ensures forall m | m in q.running && m.id == id ::
                multiset(PlanTasks(plan))[Start(id)] == if m in p.running then 0 else 1
    {
      PromotionTellsStart(p, dialogs, id);
    }
    forall id
      ensures multiset(PlanTasks(plan))[Stop(id)] == if Displaced(p, dialogs, id) then 1 else 0
    {
      CountPlannedStops(plan, id);
      DisplacedIffPlanned(p, dialogs, id);
    }
  }

  lemma PromotionTellsInOrder(p: Pool, dialogs: set<Context>)
    ensures StopsThenStarts(PlanTasks(PromotionPlan(p, dialogs)), p.running, Promoted(p, dialogs).running)
  {
    hide PlanTasks, Collected, Admitted, Blocked;
    PlanTasksListPlan(PromotionPlan(p, dialogs));
  }

  lemma PromotionTellsStart(p: Pool, dialogs: set<Context>, id: ContextId)
    requires DistinctIds(p.running + p.waiting)
    ensures var q, tasks := Promoted(p, dialogs), PlanTasks(PromotionPlan(p, dialogs));
            && (Start(id) in tasks ==> exists m | m in q.running && m !in p.running :: m.id == id)
            && forall m | m in q.running && m.id == id ::
                 multiset(tasks)[Start(id)] == if m in p.running then 0 else 1
  {
    hide PlanTasks, Collected;
    AdmittedAreDistinct(p, dialogs);
    CountPlan(PromotionPlan(p, dialogs), id);
    hide Admitted, Blocked;
    DistinctParts(p.running, p.waiting);
    if m :| m in Admitted(p, dialogs) && m.id == id {
      assert m in Promoted(p, dialogs).running && m !in p.running;
    }
    forall m | m in Promoted(p, dialogs).running && m.id == id
      ensures m in p.running <==> !Holds(Admitted(p, dialogs), id)
    {
      assert m in p.running + Promoted(p, dialogs).waiting || m in Admitted(p, dialogs);
    }
  }

  /** An accepted `Schedule` posts the tasks that let in whom it lets in, the newcomer being last in the
      queue; a refused one posts none. */
  lemma ScheduleTells(p: Pool, c: Context, dialogs: set<Context>)
    requires WellFormed(p)
    ensures var r := Scheduled(p, c, dialogs);
            && (r.ok ==> Tells(PlanTasks(r.plan), p.(waiting := p.waiting + [c]), r.pool, dialogs))
            && (!r.ok ==> PlanTasks(r.plan) == [])
  {
    if Scheduled(p, c, dialogs).ok {
      NewcomerIsDistinct(p, c);
      PromotionTells(p.(waiting := p.waiting + [c]), dialogs);
    }
  }

  /** The newcomer is let in at once exactly if it conflicts with nobody pooled whom it cannot displace;
      it is then the last to be let in, and otherwise the last of the queue. */
  lemma NewcomerIsLast(p: Pool, c: Context, dialogs: set<Context>)
    requires WellFormed(p) && Scheduled(p, c, dialogs).ok
    ensures var q := Scheduled(p, c, dialogs).pool;
            && (c in q.running <==> forall m | m in Pooled(p) && Conflicts(c, m) :: Collects(c, m, dialogs))
            && (c in q.running ==> q.running[|q.running| - 1] == c)
            && (c !in q.running ==> q.waiting != [] && q.waiting[|q.waiting| - 1] == c)
  {
    hide Conflicts, Collects;
    var p1 := p.(waiting := p.waiting + [c]);
    NewcomerIsDistinct(p, c);
    AdmittedIff(p1, dialogs, |p.waiting|);
    assert p1.waiting[..|p.waiting|] == p.waiting;
    assert Verdicts(p1, dialogs)[|p.waiting|] == Admits(p1, dialogs, |p.waiting|);
  }

  /** An accepted `Delete` posts the tasks that let in whom it lets in; a refused one posts none. */
  lemma DeleteTells(p: Pool, id: ContextId, dialogs: set<Context>)
    requires WellFormed(p)
    ensures var r := Deleted(p, id, dialogs);
            && (r.ok ==> Tells(PlanTasks(r.plan), Removed(p, id), r.pool, dialogs))
            && (!r.ok ==> PlanTasks(r.plan) == [])
  {
    if Deleted(p, id, dialogs).ok {
      RemovedKeepsIdsDistinct(p, id);
      PromotionTells(Removed(p, id), dialogs);
    }
  }

  /** In the runs of the pool each operation leaves that pool and has those tasks to post. */
  lemma StepsPostOutcome(s: System, c: Context, id: ContextId)
    ensures Enabled(s, Schedule(c)) ==>
              var r, s' := Scheduled(s.pool, c, s.dialogs), Next(s, Schedule(c));
              s'.pool == r.pool && s'.posting == s.posting + if r.ok then [PlanTasks(r.plan)] else []
    ensures var r, s' := Deleted(s.pool, id, s.dialogs), Next(s, Delete(id));
            s'.pool == r.pool && s'.posting == s.posting + if r.ok then [PlanTasks(r.plan)] else []
    ensures var s' := Next(s, Notify);
            s'.pool == Promoted(s.pool, s.dialogs)
            && s'.posting == s.posting + [PlanTasks(PromotionPlan(s.pool, s.dialogs))]
  {
  }

  // ----- What every run carries out -----

  /** `m` was stopped, is being stopped, or has a stop task on its way. */
  ghost predicate StopComes(s: System, m: Context) {
    || m in s.stopped
    || s.executor == Stopping(m.id) || s.executor == Halting(m)
    || Stop(m.id) in Outstanding(s)
  }

  /** Start() of `m` was called, is about to be, or has a start task on its way. */
  ghost predicate StartComes(s: System, m: Context) {
    m in s.called || s.executor == Starting(m) || Start(m.id) in Outstanding(s)
  }

  ghost predicate Dutiful(s: System) {
    && s.marked <= s.known
    && (forall m | m in s.marked && m in Pooled(s.pool) :: StopComes(s, m))
    && (forall m | m in s.pool.running :: StartComes(s, m) || StopComes(s, m))
  }

  lemma CollectedAreTold(p: Pool, dialogs: set<Context>, m: Context)
    requires m in Collected(p, dialogs)
    ensures Stop(m.id) in PlanTasks(PromotionPlan(p, dialogs))
  {
    hide PlanTasks;
    CountPlannedStops(PromotionPlan(p, dialogs), m.id);
  }

  lemma {:induction false} AdmittedAreTold(p: Pool, dialogs: set<Context>, m: Context)
    requires m in Admitted(p, dialogs)
    ensures Start(m.id) in PlanTasks(PromotionPlan(p, dialogs))
  {
    var plan := PromotionPlan(p, dialogs);
    PlanTasksListPlan(plan);
    hide PlanTasks;
    var k :| 0 <= k < |plan.toStart| && plan.toStart[k] == m;
    assert PlanTasks(plan)[|plan.toStop| + k] == Start(m.id);
  }

  lemma CollectedWerePooled(p: Pool, dialogs: set<Context>)
    ensures Collected(p, dialogs) <= Pooled(p)
  {
  }

  lemma PromoteIsDutiful(s: System, p: Pool)
    requires Dutiful(s) && s.pool.cancelRequested == p.cancelRequested
    requires Pooled(p) <= s.known && Elems(p.running) <= Elems(s.pool.running)
    requires forall m | m in Pooled(p) && m in s.marked :: m in Pooled(s.pool)
    ensures Dutiful(Promote(s, p))
  {
    var s', plan := Promote(s, p), PromotionPlan(p, s.dialogs);
    OneMoreList(s, PlanTasks(plan));
    CollectedWerePooled(p, s.dialogs);
    PromotionConserves(p, s.dialogs);
    assert forall t | t in Outstanding(s) :: t in Outstanding(s');
    forall m | m in s'.marked && m in Pooled(s'.pool)
      ensures StopComes(s', m)
    {
      if m in Collected(p, s.dialogs) {
        CollectedAreTold(p, s.dialogs, m);
      } else {
        assert StopComes(s, m);
      }
    }
    forall m | m in s'.pool.running
      ensures StartComes(s', m) || StopComes(s', m)
    {
      if m in Admitted(p, s.dialogs) {
        AdmittedAreTold(p, s.dialogs, m);
      } else {
        assert m in Elems(p.running);
        assert StartComes(s, m) || StopComes(s, m);
      }
    }
  }

  lemma ScheduleIsDutiful(s: System, c: Context)
    requires Tidy(s) && Dutiful(s) && Enabled(s, Schedule(c))
    ensures Dutiful(Next(s, Schedule(c)))
  {
    if Scheduled(s.pool, c, s.dialogs).ok {
      var s0, p := s.(known := s.known + {c}), s.pool.(waiting := s.pool.waiting + [c]);
      ElemsOfConcat(s.pool.waiting, [c]);
      assert forall m :: StopComes(s, m) <==> StopComes(s0, m);
      assert forall m :: StartComes(s, m) <==> StartComes(s0, m);
      hide StopComes, StartComes;
      PromoteIsDutiful(s0, p);
    }
  }

  lemma DeleteIsDutiful(s: System, id: ContextId)
    requires Tidy(s) && Dutiful(s)
    ensures Dutiful(Next(s, Delete(id)))
  {
    if Deleted(s.pool, id, s.dialogs).ok {
      hide StopComes, StartComes, DistinctIds;
      SoundIsDistinct(s);
      RemovedKeepsIdsDistinct(s.pool, id);
      forall m | m in Elems(Removed(s.pool, id).running)
        ensures m in Elems(s.pool.running)
      {
        StaysInPlace(s.pool, id, m);
      }
      PromoteIsDutiful(s, Removed(s.pool, id));
    }
  }

  lemma RequestIsOutstanding(s: System, id: ContextId)
    requires HasStop(s, id)
    ensures Stop(id) in Outstanding(s)
  {
    if Stop(id) !in s.queue {
      var l :| 0 <= l < |s.posting| && Stop(id) in s.posting[l];
      UnpostedHas(s.posting, l, Stop(id));
    }
  }

  /** Taking up a task serves whom it is for; a start that is dropped is for somebody with a stop to come. */
  lemma BeginIsDutiful(s: System, k: nat)
    requires Tidy(s) && Dutiful(s) && Enabled(s, Begin(k))
    ensures Dutiful(Next(s, Begin(k)))
  {
    hide Tidy, StopComes, StartComes;
    var s' := Next(s, Begin(k));
    forall m | StopComes(s, m)
      ensures StopComes(s', m)
    {
      StopStillComes(s, k, m);
    }
    forall m | m in s.pool.running
      ensures StartComes(s', m) || StopComes(s', m)
    {
      StartStillComes(s, k, m);
    }
  }

  lemma StopStillComes(s: System, k: nat, m: Context)
    requires Enabled(s, Begin(k)) && StopComes(s, m)
    ensures StopComes(Next(s, Begin(k)), m)
  {
    BeginTakesOne(s, k);
    BeginLeavesRest(s, k);
    hide Outstanding;
  }

  lemma StartStillComes(s: System, k: nat, m: Context)
    requires Tidy(s) && Enabled(s, Begin(k)) && m in s.pool.running && (StartComes(s, m) || StopComes(s, m))
    ensures StartComes(Next(s, Begin(k)), m) || StopComes(Next(s, Begin(k)), m)
  {
    hide Tidy;
    if StopComes(s, m) {
      StopStillComes(s, k, m);
    } else if s.queue[k] == Start(m.id) {
      StartIsTakenUp(s, k, m);
    } else {
      BeginTakesOne(s, k);
      BeginLeavesRest(s, k);
      hide Outstanding;
    }
  }

  lemma StartIsTakenUp(s: System, k: nat, m: Context)
    requires Tidy(s) && Enabled(s, Begin(k)) && s.queue[k] == Start(m.id) && m in s.pool.running
    ensures Next(s, Begin(k)).executor == Starting(m) || Stop(m.id) in Outstanding(Next(s, Begin(k)))
  {
    BeginTakesOne(s, k);
    BeginLeavesRest(s, k);
    if m.id in s.pool.cancelRequested {
      RequestIsOutstanding(s, m.id);
    } else {
      hide Outstanding, DistinctIds;
      SoundIsDistinct(s);
      SameRunner(s.pool, m, Next(s, Begin(k)).executor.context);
    }
  }

  lemma LookIsDutiful(s: System)
    requires Tidy(s) && Dutiful(s) && Enabled(s, Look)
    ensures Dutiful(Next(s, Look))
  {
    hide Outstanding;
    var s' := Next(s, Look);
    OutstandingOfTasks(s, s');
    forall m | m in Pooled(s.pool) && StopComes(s, m)
      ensures StopComes(s', m)
    {
      if s.executor == Stopping(m.id) {
        SoleHolder(s.pool, m, Find(s.pool, m.id));
      }
    }
    forall m | m in s.pool.running
      ensures StartComes(s', m) || StopComes(s', m)
    {
      assert m in Pooled(s.pool);
    }
  }

  lemma PostIsDutiful(s: System, k: nat)
    requires Dutiful(s) && Enabled(s, Post(k))
    ensures Dutiful(Next(s, Post(k)))
  {
    PostingMovesOne(s.posting, k);
    assert Outstanding(Next(s, Post(k))) == Outstanding(s);
    hide Outstanding;
    assert forall m :: StopComes(s, m) <==> StopComes(Next(s, Post(k)), m);
  }

  lemma CancelIsDutiful(s: System, id: ContextId)
    requires Dutiful(s)
    ensures Dutiful(Next(s, Cancel(id)))
  {
    OneMoreList(s, [Stop(id)]);
    var s' := Next(s, Cancel(id));
    assert forall t | t in Outstanding(s) :: t in Outstanding(s');
    hide Outstanding;
    assert forall m | StopComes(s, m) :: StopComes(s', m);
    assert forall m | StartComes(s, m) :: StartComes(s', m);
  }

  lemma QuietStepIsDutiful(s: System, step: Step)
    requires Dutiful(s) && Enabled(s, step) && (step.Dialogs? || step.Finish?)
    ensures Dutiful(Next(s, step))
  {
    hide Outstanding;
    var s' := Next(s, step);
    assert Outstanding(s') == Outstanding(s) by { OutstandingOfTasks(s, s'); }
    assert forall m | StopComes(s, m) :: StopComes(s', m);
    assert forall m | StartComes(s, m) :: StartComes(s', m);
  }

  lemma OutstandingOfTasks(s: System, s': System)
    requires s.queue == s'.queue && s.posting == s'.posting
    ensures Outstanding(s) == Outstanding(s')
  {
  }

  lemma StepIsDutiful(s: System, step: Step)
    requires Tidy(s) && Dutiful(s) && Enabled(s, step)
    ensures Dutiful(Next(s, step))
  {
    hide Next, Dutiful, Tidy;
    match step
    case Schedule(c) => ScheduleIsDutiful(s, c);
    case Delete(id) => DeleteIsDutiful(s, id);
    case Notify => NotifyIsDutiful(s);
    case Begin(k) => BeginIsDutiful(s, k);
    case Look => LookIsDutiful(s);
    case Post(k) => PostIsDutiful(s, k);
    case Cancel(id) => CancelIsDutiful(s, id);
    case _ => QuietStepIsDutiful(s, step);
  }

  lemma NotifyIsDutiful(s: System)
    requires Tidy(s) && Dutiful(s)
    ensures Dutiful(Next(s, Notify))
  {
    PromoteIsDutiful(s, s.pool);
  }

  lemma {:induction false} RunIsDutiful(s: System, steps: seq<Step>)
    requires Tidy(s) && Dutiful(s) && Possible(s, steps)
    ensures Dutiful(Run(s, steps))
    decreases |steps|
  {
    hide Dutiful, Tidy, Next, Enabled;
    if steps != [] {
      StepIsTidy(s, steps[0]);
      StepIsDutiful(s, steps[0]);
      RunIsDutiful(Next(s, steps[0]), steps[1..]);
    }
  }

  lemma ReachableIsDutiful(s: System)
    requires Reachable(s)
    ensures Dutiful(s)
  {
    hide Dutiful, Tidy, Next, Enabled;
    var dialogs, steps :| Possible(Init(dialogs), steps) && Run(Init(dialogs), steps) == s;
    InitIsDutiful(dialogs);
    RunIsDutiful(Init(dialogs), steps);
  }

  lemma InitIsDutiful(dialogs: set<Context>)
    ensures Tidy(Init(dialogs)) && Dutiful(Init(dialogs))
  {
  }

  /** In every reachable state, whoever was put in a stop plan and is still pooled has been stopped, is
      being stopped, or has a stop task on its way. */
  lemma MarkedAreStopped(s: System, m: Context)
    requires Reachable(s) && m in s.marked && m in Pooled(s.pool)
    ensures || m in s.stopped || s.executor == Stopping(m.id) || s.executor == Halting(m)
            || Stop(m.id) in Outstanding(s)
  {
    ReachableIsDutiful(s);
    assert StopComes(s, m);
  }

  /** In every reachable state, nobody who was let in is forgotten: its Start() was called, is about to be,
      or has a task on its way; or else the same goes for its Stop(). */
  lemma RunningAreServed(s: System, m: Context)
    requires Reachable(s) && m in s.pool.running
    ensures || m in s.called || s.executor == Starting(m) || Start(m.id) in Outstanding(s)
            || m in s.stopped || s.executor == Stopping(m.id) || s.executor == Halting(m)
            || Stop(m.id) in Outstanding(s)
  {
    ReachableIsDutiful(s);
    assert StartComes(s, m) || StopComes(s, m);
  }

  /** Once all tasks have run, every running context was started or stopped, all in a stop plan were
      stopped, and of two running PIN users of which one is a sudo request one was stopped. */
  lemma AllServedWhenDrained(s: System)
    requires Reachable(s) && s.executor == Idle && Outstanding(s) == multiset{}
    ensures forall m | m in s.pool.running :: m in s.called || m in s.stopped
    ensures forall m | m in s.marked && m in Pooled(s.pool) :: m in s.stopped
    ensures forall a, b | a in s.pool.running && b in s.pool.running && a != b && Conflicts(a, b) ::
              a in s.stopped || b in s.stopped
  {
    hide Outstanding, Conflicts;
    ReachableIsDutiful(s);
    ReachableIsSound(s);
    forall m | m in s.pool.running
      ensures m in s.called || m in s.stopped
    {
      assert StartComes(s, m) || StopComes(s, m);
    }
    forall m | m in s.marked && m in Pooled(s.pool)
      ensures m in s.stopped
    {
      assert StopComes(s, m);
    }
    forall a, b | a in s.pool.running && b in s.pool.running && a != b && Conflicts(a, b)
      ensures a in s.stopped || b in s.stopped
    {
      ConflictIsSymmetric(a, b);
      var i :| 0 <= i < |s.pool.running| && s.pool.running[i] == a;
      var j :| 0 <= j < |s.pool.running| && s.pool.running[j] == b;
      assert i != j;
      assert a in Pooled(s.pool) && b in Pooled(s.pool);
    }
  }
}
