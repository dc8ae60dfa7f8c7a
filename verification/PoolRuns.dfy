/**
 * The pool, its callers and the single executor thread as one system, and what holds over all of
 * its runs. A caller first changes the pool under its lock and posts its tasks afterwards, so posts
 * of different callers interleave. A start task looks into the pool and then calls the context; a
 * stop task takes its request off the list, looks into the pool, and then calls the context.
 */
module PoolRuns {
  import opened Common
  import opened Contexts
  import opened Selection
  import opened Promotion
  import opened PoolOperations

  /** Between the sections of a task: a stop that has yet to look into the pool, a stop that has found
      its context, and a start that has. */
  datatype Executor =
    | Idle
    | Stopping(id: ContextId)
    | Halting(context: Context)
    | Starting(context: Context)

  datatype System = System(
    pool: Pool,
    dialogs: set<Context>,      // sudo contexts whose dialog shows
    posting: seq<seq<Task>>,    // what each caller has still to post
    queue: seq<Task>,           // posted and not yet begun
    executor: Executor,
    known: set<Context>,        // ever taken in
    marked: set<Context>,       // ever put in a stop plan
    stopped: set<Context>,      // received Stop()
    refused: set<Context>,      // received it before they started, and so never will
    called: set<Context>,       // received Start()
    started: set<Context>)      // ran OnStart()

  datatype Step =
    | Schedule(context: Context)
    | Cancel(id: ContextId)
    | Delete(id: ContextId)
    | Notify
    | Dialogs(shown: set<Context>)
    | Post(caller: nat)
    | Begin(place: nat)
    | Look
    | Finish

  function Init(dialogs: set<Context>): System {
    System(Pool([], [], {}), dialogs, [], [], Idle, {}, {}, {}, {}, {}, {})
  }

  predicate Enabled(s: System, step: Step) {
    match step
    case Schedule(c) => c !in s.known
    case Post(k) => k < |s.posting| && s.posting[k] != []
    case Begin(k) => s.executor == Idle && k < |s.queue|
    case Look => s.executor.Stopping?
    case Finish => s.executor.Halting? || s.executor.Starting?
    case _ => true
  }

  /** Promotes in `p` and leaves the plan to the caller to post. */
  function Promote(s: System, p: Pool): System {
    s.(pool := Promoted(p, s.dialogs),
       marked := s.marked + Collected(p, s.dialogs),
       posting := s.posting + [PlanTasks(PromotionPlan(p, s.dialogs))])
  }

  function Next(s: System, step: Step): System
    requires Enabled(s, step)
  {
    match step
    case Schedule(c) =>
      if !Scheduled(s.pool, c, s.dialogs).ok then s
      else Promote(s.(known := s.known + {c}), s.pool.(waiting := s.pool.waiting + [c]))
    case Cancel(id) =>
      s.(pool := s.pool.(cancelRequested := s.pool.cancelRequested + {id}), posting := s.posting + [[Stop(id)]])
    case Delete(id) =>
      if !Deleted(s.pool, id, s.dialogs).ok then s else Promote(s, Removed(s.pool, id))
    case Notify => Promote(s, s.pool)
    case Dialogs(shown) => s.(dialogs := shown)
    case Post(k) => PostOne(s, k)
    case Begin(k) => BeginTask(Taken(s, k), s.queue[k])
    case Look => s.(executor := if IsPooled(s.pool, s.executor.id) then Halting(Find(s.pool, s.executor.id)) else Idle)
    case Finish =>
      var s', c := s.(executor := Idle), s.executor.context;
      if s.executor.Halting? then StopIt(s', c) else StartIt(s', c)
  }

  predicate IsPooled(p: Pool, id: ContextId) {
    exists c | c in Pooled(p) :: c.id == id
  }

  function PostOne(s: System, k: nat): System
    requires k < |s.posting| && s.posting[k] != []
  {
    s.(queue := s.queue + [s.posting[k][0]], posting := s.posting[k := s.posting[k][1..]])
  }

  function Taken(s: System, k: nat): System
    requires k < |s.queue|
  {
    s.(queue := s.queue[..k] + s.queue[k + 1..])
  }

  function BeginTask(s: System, task: Task): System {
    match task
    case Stop(id) =>
      s.(pool := s.pool.(cancelRequested := s.pool.cancelRequested - {id}), executor := Stopping(id))
    case Start(id) =>
      if id in s.pool.cancelRequested || !Holds(s.pool.running, id) then s
      else s.(executor := Starting(FindIn(s.pool.running, id)))
  }

  function FindIn(cs: seq<Context>, id: ContextId): (c: Context)
    requires Holds(cs, id)
    ensures c in cs && c.id == id
  {
    if cs[0].id == id then cs[0] else FindIn(cs[1..], id)
  }

  function Find(p: Pool, id: ContextId): (c: Context)
    requires IsPooled(p, id)
    ensures c in Pooled(p) && c.id == id
  {
    if Holds(p.running, id) then FindIn(p.running, id) else FindIn(p.waiting, id)
  }

  /** `Stop()`: a context that has not started yet gives up its turn for good. A schedule holder
      ignores the call. */
  function StopIt(s: System, c: Context): System {
    s.(stopped := s.stopped + {c},
       refused := s.refused + if c.kind != ScheduleHolder && c !in s.started then {c} else {})
  }

  /** `Start()`: runs OnStart() unless the context has run it or was stopped before. */
  function StartIt(s: System, c: Context): System {
    s.(called := s.called + {c},
       started := s.started + if c in s.refused then {} else {c})
  }

  predicate Possible(s: System, steps: seq<Step>)
    decreases |steps|
  {
    steps != [] ==> Enabled(s, steps[0]) && Possible(Next(s, steps[0]), steps[1..])
  }

  function Run(s: System, steps: seq<Step>): System
    requires Possible(s, steps)
    decreases |steps|
  {
    if steps == [] then s else Run(Next(s, steps[0]), steps[1..])
  }

  /** Some run from an empty pool leads to this state. */
  ghost predicate Reachable(s: System) {
    exists dialogs, steps | Possible(Init(dialogs), steps) :: Run(Init(dialogs), steps) == s
  }

  // ----- What every run keeps: the shape of the pool, and exclusion -----

  ghost predicate Sound(s: System) {
    && WellFormed(s.pool)
    && Pooled(s.pool) <= s.known
    && Excludes(s.pool.running, s.marked)
  }

  /** Of two conflicting running contexts, the one admitted first is in a stop plan. */
  ghost predicate Excludes(running: seq<Context>, marked: set<Context>) {
    forall i, j | 0 <= i < j < |running| :: Conflicts(running[i], running[j]) ==> running[i] in marked
  }

  /** Whoever a newly admitted context conflicts with is in the plan that admits it. */
  lemma AdmittedCollects(p: Pool, dialogs: set<Context>, i: nat, j: nat)
    requires i < j < |Promoted(p, dialogs).running| && |p.running| <= j
    requires Conflicts(Promoted(p, dialogs).running[i], Promoted(p, dialogs).running[j])
    ensures Promoted(p, dialogs).running[i] in Collected(p, dialogs)
  {
    hide Conflicts, Collects;
    var run := Promoted(p, dialogs).running;
    var a, x := run[i], j - |p.running|;
    var k := SelectedFrom(p.waiting, Verdicts(p, dialogs), |p.waiting|, true, x);
    ConflictIsSymmetric(a, run[j]);
    if i >= |p.running| {
      assert a == Admitted(p, dialogs)[..x][i - |p.running|];
      assert a in Elems(Admitted(p, dialogs)[..x]);
    }
    assert a in Predecessors(p, k);
    assert Admits(p, dialogs, k);
    assert a in Victims(p, dialogs, k);
  }

  lemma PromoteExcludes(s: System, p: Pool)
    requires Excludes(p.running, s.marked)
    ensures Excludes(Promote(s, p).pool.running, Promote(s, p).marked)
  {
    var run := Promote(s, p).pool.running;
    forall i, j | 0 <= i < j < |run| && Conflicts(run[i], run[j])
      ensures run[i] in Promote(s, p).marked
    {
      if j >= |p.running| {
        AdmittedCollects(p, s.dialogs, i, j);
      }
    }
  }

  lemma {:induction false} RemovedInOrder(cs: seq<Context>, id: ContextId, x: nat, y: nat) returns (i: nat, j: nat)
    requires x < y < |RemoveId(cs, id)|
    ensures i < j < |cs| && cs[i] == RemoveId(cs, id)[x] && cs[j] == RemoveId(cs, id)[y]
  {
    if cs[0].id == id {
      i, j := x + 1, y + 1;
    } else if x > 0 {
      i, j := RemovedInOrder(cs[1..], id, x - 1, y - 1);
      i, j := i + 1, j + 1;
    } else {
      i := 0;
      j := RemovedFrom(cs[1..], id, y - 1);
      j := j + 1;
    }
  }

  lemma {:induction false} RemovedFrom(cs: seq<Context>, id: ContextId, y: nat) returns (j: nat)
    requires y < |RemoveId(cs, id)|
    ensures j < |cs| && cs[j] == RemoveId(cs, id)[y]
  {
    if cs[0].id == id {
      j := y + 1;
    } else if y == 0 {
      j := 0;
    } else {
      j := RemovedFrom(cs[1..], id, y - 1);
      j := j + 1;
    }
  }

  lemma RemovedExcludes(running: seq<Context>, marked: set<Context>, id: ContextId)
    requires Excludes(running, marked)
    ensures Excludes(RemoveId(running, id), marked)
  {
    var r := RemoveId(running, id);
    forall x, y | 0 <= x < y < |r| && Conflicts(r[x], r[y])
      ensures r[x] in marked
    {
      var i, j := RemovedInOrder(running, id, x, y);
    }
  }

  lemma StepIsSound(s: System, step: Step)
    requires Sound(s) && Enabled(s, step)
    ensures Sound(Next(s, step))
  {
    match step
    case Schedule(c) =>
      ScheduleAddsOne(s.pool, c, s.dialogs);
      PromoteExcludes(s.(known := s.known + {c}), s.pool.(waiting := s.pool.waiting + [c]));
    case Delete(id) =>
      DeleteRemovesOne(s.pool, id, s.dialogs);
      RemovedExcludes(s.pool.running, s.marked, id);
      PromoteExcludes(s, Removed(s.pool, id));
    case Notify =>
      PromotionIsWellFormed(s.pool, s.dialogs);
      PromotionConserves(s.pool, s.dialogs);
      PromoteExcludes(s, s.pool);
    case Cancel(id) => SamePlaces(s.pool, Next(s, step).pool);
    case Begin(k) => SamePlaces(s.pool, Next(s, step).pool);
    case _ =>
  }

  lemma SamePlaces(p: Pool, q: Pool)
    requires WellFormed(p) && p.running == q.running && p.waiting == q.waiting
    ensures WellFormed(q) && Pooled(q) == Pooled(p)
  {
    forall i | 0 <= i < |q.waiting|
      ensures WaitsForSomeone(q, i)
    {
      assert WaitsForSomeone(p, i);
    }
  }

  lemma {:induction false} RunIsSound(s: System, steps: seq<Step>)
    requires Sound(s) && Possible(s, steps)
    ensures Sound(Run(s, steps))
    decreases |steps|
  {
    if steps != [] {
      StepIsSound(s, steps[0]);
      RunIsSound(Next(s, steps[0]), steps[1..]);
    }
  }

  lemma ReachableIsSound(s: System)
    requires Reachable(s)
    ensures Sound(s)
  {
    var dialogs, steps :| Possible(Init(dialogs), steps) && Run(Init(dialogs), steps) == s;
    RunIsSound(Init(dialogs), steps);
  }

  /** In every reachable state, of two running PIN users of one account of which one is a sudo
      request, the earlier one has been told to stop; among those not told to stop, a sudo request is
      alone. */
  lemma SudoPinExclusion(s: System, a: Context, b: Context)
    requires Reachable(s) && a in s.pool.running && b in s.pool.running && a != b
    requires a.userId != INVALID_USER_ID && UsesPinOf(a, a.userId) && UsesPinOf(b, a.userId)
    requires a.kind == SudoAuth || b.kind == SudoAuth
    ensures forall i, j | 0 <= i < j < |s.pool.running| && s.pool.running[i] == a && s.pool.running[j] == b ::
              a in s.marked
    ensures a in s.marked || b in s.marked
  {
    ReachableIsSound(s);
    ConflictIsSymmetric(a, b);
    var i :| 0 <= i < |s.pool.running| && s.pool.running[i] == a;
    var j :| 0 <= j < |s.pool.running| && s.pool.running[j] == b;
    assert i != j;
  }

  /** In every reachable state: unique ids, at most 100 contexts, nobody waits without a conflicting
      context ahead of it, only PIN users of a valid user wait, and a queue has a runner before it. */
  lemma ReachablePool(s: System)
    requires Reachable(s)
    ensures WellFormed(s.pool) && |s.pool.running| + |s.pool.waiting| <= 100
    ensures forall c | c in s.pool.waiting :: UsesPinOf(c, c.userId) && c.userId != INVALID_USER_ID
    ensures s.pool.waiting != [] ==> s.pool.running != []
  {
    ReachableIsSound(s);
    forall c | c in s.pool.waiting
      ensures UsesPinOf(c, c.userId) && c.userId != INVALID_USER_ID
    {
      OnlyPinUsersWait(s.pool, c);
    }
    if s.pool.waiting != [] {
      QueueImpliesRunner(s.pool);
    }
  }
}
