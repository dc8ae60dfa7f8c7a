/**
 * How often a context is given to a start task. The pool hands out one start task per admission, but a
 * task knows only an id, so a task left over from an earlier holder of the id counts as well.
 */
module PoolStarts {
  import opened Contexts
  import opened Selection
  import opened Promotion
  import opened PoolOperations
  import opened PoolRuns
  import opened PoolCancellation

  // ----- All tasks on their way -----

  function Unposted(posting: seq<seq<Task>>): multiset<Task> {
    if posting == [] then multiset{} else Unposted(posting[..|posting| - 1]) + multiset(posting[|posting| - 1])
  }

  function Outstanding(s: System): multiset<Task> {
    multiset(s.queue) + Unposted(s.posting)
  }

  lemma {:induction false} UnpostedHas(posting: seq<seq<Task>>, l: nat, t: Task)
    requires l < |posting| && t in posting[l]
    ensures t in Unposted(posting)
  {
    if l < |posting| - 1 {
      UnpostedHas(posting[..|posting| - 1], l, t);
    }
  }

  lemma {:induction false} NothingUnposted(posting: seq<seq<Task>>)
    requires forall l | 0 <= l < |posting| :: posting[l] == []
    ensures Unposted(posting) == multiset{}
  {
    if posting != [] {
      NothingUnposted(posting[..|posting| - 1]);
    }
  }

  lemma {:induction false} PostingMovesOne(posting: seq<seq<Task>>, k: nat)
    requires k < |posting| && posting[k] != []
    ensures Unposted(posting) == Unposted(posting[k := posting[k][1..]]) + multiset{posting[k][0]}
  {
    var n := |posting| - 1;
    var after := posting[k := posting[k][1..]];
    assert posting[k] == [posting[k][0]] + posting[k][1..];
    if k < n {
      PostingMovesOne(posting[..n], k);
      assert after[..n] == posting[..n][k := posting[k][1..]];
    } else {
      assert after[..n] == posting[..n];
    }
  }

  lemma OneMoreList(s: System, tasks: seq<Task>)
    ensures Outstanding(s.(posting := s.posting + [tasks])) == Outstanding(s) + multiset(tasks)
  {
    assert (s.posting + [tasks])[..|s.posting|] == s.posting;
  }

  lemma BeginTakesOne(s: System, k: nat)
    requires k < |s.queue|
    ensures Outstanding(s) == Outstanding(Taken(s, k)) + multiset{s.queue[k]}
  {
    assert s.queue == s.queue[..k] + [s.queue[k]] + s.queue[k + 1..];
  }

  lemma {:induction false} CountStarts(cs: seq<Context>, id: ContextId)
    requires DistinctIds(cs)
    ensures multiset(Starts(cs))[Start(id)] == if Holds(cs, id) then 1 else 0
  {
    if cs != [] {
      var n := |cs| - 1;
      CountStarts(cs[..n], id);
      assert Starts(cs) == Starts(cs[..n]) + [Start(cs[n].id)];
      assert cs == cs[..n] + [cs[n]];
    }
  }

  lemma CountPlan(plan: Plan, id: ContextId)
    requires DistinctIds(plan.toStart)
    ensures multiset(PlanTasks(plan))[Start(id)] == if Holds(plan.toStart, id) then 1 else 0
  {
    CountStarts(plan.toStart, id);
    assert Start(id) !in Stops(Ascending(plan.toStop));
  }

  // ----- What every reachable state keeps -----

  /** Everyone a start task was for. */
  function Used(s: System): set<Context> {
    s.called + if s.executor.Starting? then {s.executor.context} else {}
  }

  /** Everyone stopped, and whom a stop task is about to stop. */
  function Told(s: System): set<Context> {
    s.stopped + if s.executor.Halting? then {s.executor.context} else {}
  }

  ghost predicate Tidy(s: System) {
    Sound(s) && RequestsCovered(s) && HandledAreKnown(s)
  }

  /** The tasks only handle contexts that were taken in; only who was called has started, and only who was
      stopped is refused. */
  ghost predicate HandledAreKnown(s: System) {
    Used(s) <= s.known && Told(s) <= s.known && s.started <= s.called && s.refused <= s.stopped
  }

  lemma StepIsTidy(s: System, step: Step)
    requires Tidy(s) && Enabled(s, step)
    ensures Tidy(Next(s, step))
  {
    StepIsSound(s, step);
    StepKeepsRequestsCovered(s, step);
    HandledStayKnown(s, step);
  }

  lemma HandledStayKnown(s: System, step: Step)
    requires Pooled(s.pool) <= s.known && Enabled(s, step) && HandledAreKnown(s)
    ensures HandledAreKnown(Next(s, step))
  {
    var e := Next(s, step).executor;
    if (step.Begin? && e.Starting?) || (step.Look? && e.Halting?) {
      assert e.context in Pooled(s.pool);
    }
  }

  lemma {:induction false} RunIsTidy(s: System, steps: seq<Step>)
    requires Tidy(s) && Possible(s, steps)
    ensures Tidy(Run(s, steps))
    decreases |steps|
  {
    if steps != [] {
      StepIsTidy(s, steps[0]);
      RunIsTidy(Next(s, steps[0]), steps[1..]);
    }
  }

  lemma ReachableIsTidy(s: System)
    requires Reachable(s)
    ensures Tidy(s)
  {
    var dialogs, steps :| Possible(Init(dialogs), steps) && Run(Init(dialogs), steps) == s;
    RunIsTidy(Init(dialogs), steps);
  }

  lemma NewcomerIsDistinct(p: Pool, c: Context)
    requires DistinctIds(p.running + p.waiting)
    requires !Holds(p.running, c.id) && !Holds(p.waiting, c.id)
    ensures DistinctIds(p.running + (p.waiting + [c]))
  {
    assert p.running + (p.waiting + [c]) == p.running + p.waiting + [c];
    assert forall m | m in p.running + p.waiting :: m in p.running || m in p.waiting;
  }

  lemma AdmittedAreDistinct(p: Pool, dialogs: set<Context>)
    requires DistinctIds(p.running + p.waiting)
    ensures DistinctIds(Admitted(p, dialogs))
    ensures forall w | w in p.running + Promoted(p, dialogs).waiting :: !Holds(Admitted(p, dialogs), w.id)
    ensures forall w | w in Admitted(p, dialogs) :: w in p.waiting
    ensures forall w | w in Promoted(p, dialogs).waiting :: w in p.waiting
  {
    PromotionKeepsIdsDistinct(p, dialogs);
    SplitCounts(p.waiting, Verdicts(p, dialogs), |p.waiting|);
    var q := Promoted(p, dialogs);
    DistinctParts(q.running, q.waiting);
    DistinctParts(p.running, Admitted(p, dialogs));
    assert p.waiting[..|p.waiting|] == p.waiting;
    forall w | w in Admitted(p, dialogs) || w in q.waiting
      ensures w in p.waiting
    {
      assert w in Elems(Admitted(p, dialogs)) + Elems(q.waiting);
    }
  }

  lemma StaysInPlace(p: Pool, id: ContextId, w: Context)
    requires DistinctIds(p.running + p.waiting)
    ensures w in Removed(p, id).running <==> w in p.running && w.id != id
    ensures w in Removed(p, id).waiting <==> w in p.waiting && w.id != id
  {
    DistinctParts(p.running, p.waiting);
    RemoveIdRemoves(p.running, id);
    RemoveIdRemoves(p.waiting, id);
    assert w in Removed(p, id).running <==> w in Elems(RemoveId(p.running, id));
    assert w in Removed(p, id).waiting <==> w in Elems(RemoveId(p.waiting, id));
  }

  lemma SameRunner(p: Pool, c: Context, d: Context)
    requires DistinctIds(p.running + p.waiting) && c in p.running && d in p.running && c.id == d.id
    ensures c == d
  {
    DistinctParts(p.running, p.waiting);
    var i :| 0 <= i < |p.running| && p.running[i] == c;
    var j :| 0 <= j < |p.running| && p.running[j] == d;
    assert i == j;
  }

  // ----- Without a start task left over -----

  /** While `w` waits no start task can reach it and none has; while it runs, at most one. */
  ghost predicate StartsOnce(p: Pool, out: multiset<Task>, used: set<Context>, w: Context) {
    && (w in p.waiting ==> Start(w.id) !in out && w !in used)
    && (w in p.running ==> out[Start(w.id)] + (if w in used then 1 else 0) <= 1)
  }

  ghost predicate OnceOnly(s: System, w: Context) {
    && w in s.known
    && StartsOnce(s.pool, Outstanding(s), Used(s), w)
    && (s.executor == Starting(w) ==> w !in s.called)
  }

  lemma PromoteStartsOnce(s: System, p: Pool, w: Context)
    requires DistinctIds(p.running + p.waiting) && StartsOnce(p, Outstanding(s), Used(s), w)
    ensures StartsOnce(Promote(s, p).pool, Outstanding(Promote(s, p)), Used(s), w)
  {
    AdmittedAreDistinct(p, s.dialogs);
    var plan := PromotionPlan(p, s.dialogs);
    CountPlan(plan, w.id);
    OneMoreList(s, PlanTasks(plan));
  }

  lemma ScheduleIsOnceOnly(s: System, c: Context, w: Context)
    requires Sound(s) && OnceOnly(s, w) && Enabled(s, Schedule(c))
    ensures OnceOnly(Next(s, Schedule(c)), w)
  {
    if Scheduled(s.pool, c, s.dialogs).ok {
      NewcomerIsDistinct(s.pool, c);
      PromoteStartsOnce(s.(known := s.known + {c}), s.pool.(waiting := s.pool.waiting + [c]), w);
    }
  }

  lemma DeleteIsOnceOnly(s: System, id: ContextId, w: Context)
    requires Sound(s) && OnceOnly(s, w)
    ensures OnceOnly(Next(s, Delete(id)), w)
  {
    if Deleted(s.pool, id, s.dialogs).ok {
      RemovedKeepsIdsDistinct(s.pool, id);
      StaysInPlace(s.pool, id, w);
      PromoteStartsOnce(s, Removed(s.pool, id), w);
    }
  }

  lemma BeginIsOnceOnly(s: System, k: nat, w: Context)
    requires DistinctIds(s.pool.running + s.pool.waiting) && OnceOnly(s, w) && Enabled(s, Begin(k))
    ensures OnceOnly(Next(s, Begin(k)), w)
  {
    hide DistinctIds, Outstanding;
    BeginTakesOne(s, k);
    BeginLeavesRest(s, k);
    if s.queue[k] == Start(w.id) && w in s.pool.running && Next(s, Begin(k)).executor.Starting? {
      SameRunner(s.pool, w, Next(s, Begin(k)).executor.context);
    }
  }

  lemma BeginLeavesRest(s: System, k: nat)
    requires Enabled(s, Begin(k))
    ensures Outstanding(Next(s, Begin(k))) == Outstanding(Taken(s, k))
  {
  }

  lemma StepIsOnceOnly(s: System, step: Step, w: Context)
    requires Sound(s) && OnceOnly(s, w) && Enabled(s, step)
    ensures OnceOnly(Next(s, step), w)
  {
    hide Next, OnceOnly, Sound;
    match step
    case Schedule(c) => ScheduleIsOnceOnly(s, c, w);
    case Delete(id) => DeleteIsOnceOnly(s, id, w);
    case Begin(k) =>
      SoundIsDistinct(s);
      BeginIsOnceOnly(s, k, w);
    case Notify => NotifyIsOnceOnly(s, w);
    case Post(k) => PostIsOnceOnly(s, k, w);
    case Cancel(id) => CancelIsOnceOnly(s, id, w);
    case _ => QuietStepIsOnceOnly(s, step, w);
  }

  lemma SoundIsDistinct(s: System)
    requires Sound(s)
    ensures DistinctIds(s.pool.running + s.pool.waiting)
  {
  }

  lemma NotifyIsOnceOnly(s: System, w: Context)
    requires Sound(s) && OnceOnly(s, w)
    ensures OnceOnly(Next(s, Notify), w)
  {
    PromoteStartsOnce(s, s.pool, w);
  }

  lemma PostIsOnceOnly(s: System, k: nat, w: Context)
    requires OnceOnly(s, w) && Enabled(s, Post(k))
    ensures OnceOnly(Next(s, Post(k)), w)
  {
    PostingMovesOne(s.posting, k);
  }

  lemma CancelIsOnceOnly(s: System, id: ContextId, w: Context)
    requires OnceOnly(s, w)
    ensures OnceOnly(Next(s, Cancel(id)), w)
  {
    OneMoreList(s, [Stop(id)]);
  }

  /** The steps that leave pool and tasks as they are. */
  lemma QuietStepIsOnceOnly(s: System, step: Step, w: Context)
    requires OnceOnly(s, w) && Enabled(s, step) && (step.Dialogs? || step.Look? || step.Finish?)
    ensures OnceOnly(Next(s, step), w)
  {
  }

  /** Some continuation gives `c` to a start task after its Start() was called. */
  ghost predicate MayStartTwice(s: System, c: Context) {
    exists steps | Possible(s, steps) :: Run(s, steps).executor == Starting(c) && c in Run(s, steps).called
  }

  lemma {:induction false} NeverStartsTwice(s: System, steps: seq<Step>, c: Context)
    requires Tidy(s) && OnceOnly(s, c) && Possible(s, steps)
    ensures Run(s, steps).executor == Starting(c) ==> c !in Run(s, steps).called
    decreases |steps|
  {
    if steps != [] {
      StepIsTidy(s, steps[0]);
      StepIsOnceOnly(s, steps[0], c);
      NeverStartsTwice(Next(s, steps[0]), steps[1..], c);
    }
  }

  lemma NewcomerIsOnceOnly(s: System, c: Context)
    requires Tidy(s) && Enabled(s, Schedule(c)) && Scheduled(s.pool, c, s.dialogs).ok
    requires Start(c.id) !in Outstanding(s)
    ensures OnceOnly(Next(s, Schedule(c)), c)
  {
    var s0, p := s.(known := s.known + {c}), s.pool.(waiting := s.pool.waiting + [c]);
    NewcomerIsDistinct(s.pool, c);
    assert c !in Pooled(s.pool);
    PromoteStartsOnce(s0, p, c);
  }

  // ----- With one -----

  /** Beside the start task its own admission brings, or has brought, there is one more for `c`. */
  ghost predicate Ripe(s: System, c: Context) {
    && Tidy(s) && c in Pooled(s.pool)
    && Outstanding(s)[Start(c.id)] >= if c in s.pool.running then 2 else 1
  }

  lemma StepFirst(s: System, step: Step, c: Context)
    requires Enabled(s, step) && MayStartTwice(Next(s, step), c)
    ensures MayStartTwice(s, c)
  {
    var rest :| Possible(Next(s, step), rest) && Run(Next(s, step), rest).executor == Starting(c)
                && c in Run(Next(s, step), rest).called;
    hide Next, Enabled;
    var steps := [step] + rest;
    assert steps[1..] == rest;
    assert Possible(s, steps) && Run(s, steps) == Run(Next(s, step), rest);
  }

  lemma PromoteIsRipe(s: System, p: Pool, c: Context)
    requires DistinctIds(p.running + p.waiting) && c in Pooled(p)
    requires Outstanding(s)[Start(c.id)] >= if c in p.running then 2 else 1
    ensures var s' := Promote(s, p);
            c in Pooled(s'.pool) && Outstanding(s')[Start(c.id)] >= if c in s'.pool.running then 2 else 1
  {
    AdmittedAreDistinct(p, s.dialogs);
    PromotionConserves(p, s.dialogs);
    var plan := PromotionPlan(p, s.dialogs);
    CountPlan(plan, c.id);
    OneMoreList(s, PlanTasks(plan));
  }

  /** Ending somebody else's run leaves `c` ripe, in a smaller pool. */
  lemma DeleteKeepsRipe(s: System, c: Context, m: Context)
    requires Ripe(s, c) && m in s.pool.running && m.id != c.id
    ensures var s' := Next(s, Delete(m.id));
            && Ripe(s', c) && s'.executor == s.executor
            && |s'.pool.running| + |s'.pool.waiting| < |s.pool.running| + |s.pool.waiting|
  {
    StepIsTidy(s, Delete(m.id));
    assert Holds(s.pool.running, m.id);
    DeleteRemovesOne(s.pool, m.id, s.dialogs);
    HeldIffPooled(s.pool, m.id);
    RemovedKeepsIdsDistinct(s.pool, m.id);
    StaysInPlace(s.pool, m.id, c);
    PromoteIsRipe(s, Removed(s.pool, m.id), c);
  }

  lemma PostKeepsRipe(s: System, c: Context, l: nat)
    requires Ripe(s, c) && Enabled(s, Post(l))
    ensures var s' := Next(s, Post(l));
            && Ripe(s', c) && s'.executor == s.executor && s'.pool == s.pool
            && |Unposted(s'.posting)| < |Unposted(s.posting)|
  {
    StepIsTidy(s, Post(l));
    PostingMovesOne(s.posting, l);
  }

  function Rank(e: Executor): nat {
    match e
    case Idle => 0
    case Halting(_) => 1
    case Starting(_) => 1
    case Stopping(_) => 2
  }

  /** The next section of the task under way. */
  function Onward(e: Executor): Step {
    if e.Stopping? then Look else Finish
  }

  lemma ExecutorKeepsRipe(s: System, c: Context)
    requires Ripe(s, c) && s.executor != Idle
    ensures Enabled(s, Onward(s.executor))
    ensures var s' := Next(s, Onward(s.executor));
            && Ripe(s', c) && s'.pool == s.pool && s'.posting == s.posting && s'.queue == s.queue
            && Rank(s'.executor) < Rank(s.executor)
  {
    StepIsTidy(s, Onward(s.executor));
  }

  lemma StopKeepsRipe(s: System, c: Context) returns (k: nat)
    requires Ripe(s, c) && s.executor == Idle && c.id in s.pool.cancelRequested
    requires forall l | 0 <= l < |s.posting| :: s.posting[l] == []
    ensures Enabled(s, Begin(k))
    ensures var s' := Next(s, Begin(k));
            && Ripe(s', c) && s'.posting == s.posting && c.id !in s'.pool.cancelRequested
            && s'.pool.running == s.pool.running && s'.pool.waiting == s.pool.waiting
  {
    assert HasStop(s, c.id);
    k :| 0 <= k < |s.queue| && s.queue[k] == Stop(c.id);
    StepIsTidy(s, Begin(k));
    BeginTakesOne(s, k);
  }

  lemma BeginStartOf(s: System, c: Context) returns (k: nat)
    requires Sound(s) && s.executor == Idle && c in s.pool.running && c.id !in s.pool.cancelRequested
    requires Start(c.id) in s.queue
    ensures Enabled(s, Begin(k))
    ensures Next(s, Begin(k)) == Taken(s, k).(executor := Starting(c))
    ensures multiset(Taken(s, k).queue) == multiset(s.queue) - multiset{Start(c.id)}
  {
    k :| 0 <= k < |s.queue| && s.queue[k] == Start(c.id);
    assert s.queue == s.queue[..k] + [s.queue[k]] + s.queue[k + 1..];
    SameRunner(s.pool, c, FindIn(s.pool.running, c.id));
  }

  /** Everything is posted and nothing stands in the way: `c` starts, and then starts again. */
  lemma BothStartsRun(s: System, c: Context)
    requires Ripe(s, c) && s.executor == Idle && c in s.pool.running && c.id !in s.pool.cancelRequested
    requires forall l | 0 <= l < |s.posting| :: s.posting[l] == []
    ensures MayStartTwice(s, c)
  {
    NothingUnposted(s.posting);
    assert Sound(s);
    var k := BeginStartOf(s, c);
    var s1 := Next(s, Begin(k));
    var s2 := Next(s1, Finish);
    assert s2.queue == Taken(s, k).queue && multiset(s2.queue)[Start(c.id)] >= 1;
    var k' := BeginStartOf(s2, c);
    var s3 := Next(s2, Begin(k'));
    assert s3.executor == Starting(c) && c in s3.called;
    assert Possible(s3, []) && Run(s3, []) == s3;
    StepFirst(s2, Begin(k'), c);
    StepFirst(s1, Finish, c);
    StepFirst(s, Begin(k), c);
  }

  lemma {:induction false} RipeMayStartTwice(s: System, c: Context)
    requires Ripe(s, c)
    ensures MayStartTwice(s, c)
    decreases |s.pool.running| + |s.pool.waiting|, |Unposted(s.posting)|,
              c.id in s.pool.cancelRequested, Rank(s.executor)
  {
    hide Next, MayStartTwice;
    if s.executor != Idle {
      ExecutorKeepsRipe(s, c);
      RipeMayStartTwice(Next(s, Onward(s.executor)), c);
      StepFirst(s, Onward(s.executor), c);
    } else if c !in s.pool.running {
      var m := SomeRunner(s, c);
      DeleteKeepsRipe(s, c, m);
      RipeMayStartTwice(Next(s, Delete(m.id)), c);
      StepFirst(s, Delete(m.id), c);
    } else if l :| 0 <= l < |s.posting| && s.posting[l] != [] {
      PostKeepsRipe(s, c, l);
      RipeMayStartTwice(Next(s, Post(l)), c);
      StepFirst(s, Post(l), c);
    } else if c.id in s.pool.cancelRequested {
      var k := StopKeepsRipe(s, c);
      RipeMayStartTwice(Next(s, Begin(k)), c);
      StepFirst(s, Begin(k), c);
    } else {
      BothStartsRun(s, c);
    }
  }

  lemma SomeRunner(s: System, c: Context) returns (m: Context)
    requires Ripe(s, c) && c !in s.pool.running
    ensures m in s.pool.running && m.id != c.id && Enabled(s, Delete(m.id))
  {
    QueueImpliesRunner(s.pool);
    m := s.pool.running[0];
    DistinctParts(s.pool.running, s.pool.waiting);
  }

  lemma NewcomerIsRipe(s: System, c: Context)
    requires Tidy(s) && Enabled(s, Schedule(c)) && Scheduled(s.pool, c, s.dialogs).ok
    requires Start(c.id) in Outstanding(s)
    ensures Ripe(Next(s, Schedule(c)), c)
  {
    StepIsTidy(s, Schedule(c));
    var s0, p := s.(known := s.known + {c}), s.pool.(waiting := s.pool.waiting + [c]);
    NewcomerIsDistinct(s.pool, c);
    PromoteIsRipe(s0, p, c);
  }

  /** A newcomer can be given to a start task again after its Start() was called if and only if, when
      it is taken in, a start task for an earlier holder of its id is still on its way. */
  lemma StartedAtMostOnce(s: System, c: Context)
    requires Reachable(s) && Enabled(s, Schedule(c)) && Scheduled(s.pool, c, s.dialogs).ok
    ensures MayStartTwice(Next(s, Schedule(c)), c) <==> Start(c.id) in Outstanding(s)
  {
    ReachableIsTidy(s);
    var s' := Next(s, Schedule(c));
    StepIsTidy(s, Schedule(c));
    if Start(c.id) in Outstanding(s) {
      NewcomerIsRipe(s, c);
      RipeMayStartTwice(s', c);
    } else {
      NewcomerIsOnceOnly(s, c);
      forall steps | Possible(s', steps)
        ensures Run(s', steps).executor == Starting(c) ==> c !in Run(s', steps).called
      {
        NeverStartsTwice(s', steps, c);
      }
    }
  }

  /** A newcomer whose id is still on the list of requested cancellations never runs OnStart(). */
  lemma CancelledNewcomerNeverStarts(s: System, c: Context)
    requires Reachable(s) && Enabled(s, Schedule(c)) && Scheduled(s.pool, c, s.dialogs).ok
    requires c.kind != ScheduleHolder && c.id in s.pool.cancelRequested
    ensures NeverStarts(Next(s, Schedule(c)), c)
  {
    ReachableIsTidy(s);
    var s' := Next(s, Schedule(c));
    StepIsSound(s, Schedule(c));
    forall after | Possible(s', after)
      ensures c !in Run(s', after).started
    {
      DoomedNeverStarts(s', after, c);
    }
  }
}
