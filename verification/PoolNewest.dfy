/** The newest request of a session wins; and runs on which the promises of the pool end. */
module PoolNewest {
  import opened Contexts
  import opened Selection
  import opened Promotion
  import opened PoolOperations
  import opened PoolRuns
  import opened PoolOrder

  /** Two contexts of which the pool wants only one: two widgets, or two primary requests that agree
      on caller, type, authentication type and user. */
  predicate SameSession(a: Context, b: Context) {
    (a.kind == WidgetAuth && b.kind == WidgetAuth) || IsSameCallerDuplicate(a, b)
  }

  ghost predicate NewestWins(s: System) {
    forall a, b | a in Pooled(s.pool) && b in Pooled(s.pool) && a != b && SameSession(a, b) ::
      a in s.marked || b in s.marked
  }

  /** A newcomer puts a pooled context of its own session in its stop plan exactly if it is strictly
      younger. */
  lemma SupersedesIffYounger(p: Pool, c: Context, dialogs: set<Context>, m: Context)
    requires m in Pooled(p) && SameSession(c, m)
    ensures var q := p.(waiting := p.waiting + [c]);
            && (m in Victims(q, dialogs, |p.waiting|) <==> m.createTime < c.createTime)
            && (m.createTime < c.createTime ==> m in Collected(q, dialogs))
  {
    var q := p.(waiting := p.waiting + [c]);
    assert q.waiting[..|p.waiting|] == p.waiting;
  }

  /** A request is younger than every pooled one of its own session that has not been told to stop. */
  predicate NewestOfSession(s: System, step: Step) {
    step.Schedule? ==>
      forall m | m in Pooled(s.pool) && SameSession(step.context, m) && m !in s.marked ::
        m.createTime < step.context.createTime
  }

  lemma NewcomerSupersedes(s: System, c: Context, m: Context)
    requires Enabled(s, Schedule(c)) && NewestOfSession(s, Schedule(c)) && Scheduled(s.pool, c, s.dialogs).ok
    requires m in Pooled(s.pool) && (SameSession(c, m) || SameSession(m, c))
    ensures m in Next(s, Schedule(c)).marked
  {
    assert SameSession(c, m);
    SupersedesIffYounger(s.pool, c, s.dialogs, m);
  }

  lemma ScheduleNewestWins(s: System, c: Context)
    requires Sound(s) && NewestWins(s) && Enabled(s, Schedule(c)) && NewestOfSession(s, Schedule(c))
    ensures NewestWins(Next(s, Schedule(c)))
  {
    hide SameSession, NewestOfSession;
    if Scheduled(s.pool, c, s.dialogs).ok {
      ScheduleAddsOne(s.pool, c, s.dialogs);
      forall m | m in Pooled(s.pool) && (SameSession(c, m) || SameSession(m, c))
        ensures m in Next(s, Schedule(c)).marked
      {
        NewcomerSupersedes(s, c, m);
      }
    }
  }

  lemma StepNewestWins(s: System, step: Step)
    requires Sound(s) && NewestWins(s) && Enabled(s, step) && NewestOfSession(s, step)
    ensures NewestWins(Next(s, step))
  {
    hide SameSession;
    match step
    case Schedule(c) => ScheduleNewestWins(s, c);
    case Delete(id) => DeleteRemovesOne(s.pool, id, s.dialogs);
    case Notify => PromotionConserves(s.pool, s.dialogs);
    case _ =>
  }

  predicate NewestRun(s: System, steps: seq<Step>)
    requires Possible(s, steps)
    decreases |steps|
  {
    steps != [] ==> NewestOfSession(s, steps[0]) && NewestRun(Next(s, steps[0]), steps[1..])
  }

  lemma {:induction false} RunNewestWins(s: System, steps: seq<Step>)
    requires Sound(s) && NewestWins(s) && Possible(s, steps) && NewestRun(s, steps)
    ensures NewestWins(Run(s, steps))
    decreases |steps|
  {
    if steps != [] {
      StepIsSound(s, steps[0]);
      StepNewestWins(s, steps[0]);
      RunNewestWins(Next(s, steps[0]), steps[1..]);
    }
  }

  /** If every request is younger than the unmarked pooled ones of its own session, then in every
      reachable state two pooled contexts that have not been told to stop are not two widgets and do not
      agree on caller, type, authentication type and user as primary requests. */
  lemma OneUnmarkedPerSession(dialogs: set<Context>, steps: seq<Step>, a: Context, b: Context)
    requires Possible(Init(dialogs), steps) && NewestRun(Init(dialogs), steps)
    requires var s := Run(Init(dialogs), steps);
             a in Pooled(s.pool) && b in Pooled(s.pool) && a !in s.marked && b !in s.marked
    ensures (a.kind == WidgetAuth && b.kind == WidgetAuth) ==> a == b
    ensures (&& a.IsPrimary() && b.IsPrimary() && a.caller == b.caller && a.kind == b.kind
             && a.AuthType() == b.AuthType() && a.userId == b.userId) ==> a == b
  {
    RunNewestWins(Init(dialogs), steps);
  }

  // ----- Where the promises end -----

  lemma PromoteSingle(p: Pool, dialogs: set<Context>)
    requires |p.waiting| == 1
    ensures Admitted(p, dialogs) == if Admits(p, dialogs, 0) then p.waiting else []
    ensures Blocked(p, dialogs) == if Admits(p, dialogs, 0) then [] else p.waiting
    ensures Collected(p, dialogs) == Victims(p, dialogs, 0)
    ensures Predecessors(p, 0) == Elems(p.running)
  {
    var v := Verdicts(p, dialogs);
    assert p.waiting[..0] == [];
    assert p.waiting == [p.waiting[0]];
    forall side: bool
      ensures Select(p.waiting, v, 1, side) == if v[0] == side then [p.waiting[0]] else []
    {
      assert Select(p.waiting, v, 0, side) == [];
    }
  }

  /** Schedules one context into a pool in which nobody waits and in which it conflicts with nobody it
      cannot stop. */
  lemma ScheduleAlone(s: System, c: Context)
    requires s.pool.waiting == [] && |s.pool.running| < MAX_CONTEXT_NUM && c !in s.known
    requires forall m | m in s.pool.running :: m.id != c.id
    requires forall m | m in s.pool.running && Conflicts(c, m) :: Collects(c, m, s.dialogs)
    ensures Enabled(s, Schedule(c))
    ensures var s' := Next(s, Schedule(c));
            && s'.pool == s.pool.(running := s.pool.running + [c])
            && s' == s.(pool := s'.pool, marked := s'.marked, posting := s'.posting, known := s.known + {c})
            && |s'.posting| == |s.posting| + 1
            && s'.posting[..|s.posting|] == s.posting
    ensures (forall m | m in s.pool.running :: !Collects(c, m, s.dialogs)) ==>
              var s' := Next(s, Schedule(c));
              s'.marked == s.marked && s'.posting[|s.posting|] == [Start(c.id)]
  {
    hide Conflicts, Collects, PlanTasks, PromotionPlan;
    var p := s.pool.(waiting := s.pool.waiting + [c]);
    assert p.waiting == [c];
    AloneIsAdmitted(p, s.dialogs, c);
    if forall m | m in s.pool.running :: !Collects(c, m, s.dialogs) {
      AlonePlan(p, s.dialogs, c);
    }
  }

  lemma AloneIsAdmitted(p: Pool, dialogs: set<Context>, c: Context)
    requires p.waiting == [c]
    requires forall m | m in p.running && Conflicts(c, m) :: Collects(c, m, dialogs)
    ensures Promoted(p, dialogs) == p.(running := p.running + [c], waiting := [])
  {
    hide Conflicts, Collects;
    PromoteSingle(p, dialogs);
  }

  lemma AlonePlan(p: Pool, dialogs: set<Context>, c: Context)
    requires p.waiting == [c]
    requires forall m | m in p.running && Conflicts(c, m) :: Collects(c, m, dialogs)
    requires forall m | m in p.running :: !Collects(c, m, dialogs)
    ensures Collected(p, dialogs) == {} && PlanTasks(PromotionPlan(p, dialogs)) == [Start(c.id)]
  {
    hide Conflicts, Collects;
    PromoteSingle(p, dialogs);
    assert PromotionPlan(p, dialogs) == Plan({}, [c]);
    assert PlanTasks(Plan({}, [c])) == [Start(c.id)];
  }

  lemma RunStep(s: System, steps: seq<Step>, s': System)
    requires steps != [] && Enabled(s, steps[0]) && Next(s, steps[0]) == s' && Possible(s', steps[1..])
    ensures Possible(s, steps) && Run(s, steps) == Run(s', steps[1..])
  {
    hide Next, Enabled;
  }

  lemma RunNothing(s: System)
    ensures Possible(s, []) && Run(s, []) == s
  {
  }

  lemma TwoWidgets(a: Context, b: Context)
    requires a.kind == WidgetAuth && b.kind == WidgetAuth && a.createTime == b.createTime
    ensures !Conflicts(b, a) && !Collects(b, a, {})
  {
  }

  /** Two widgets created at the same instant both stay, and neither is told to stop. */
  lemma EqualTimesKeepBoth(a: Context, b: Context) returns (steps: seq<Step>)
    requires a.kind == WidgetAuth && b.kind == WidgetAuth
    requires a.id != b.id && a.createTime == b.createTime
    ensures steps == [Schedule(a), Schedule(b)] && Possible(Init({}), steps)
    ensures var s := Run(Init({}), steps);
            a in s.pool.running && b in s.pool.running && s.marked == {}
  {
    TwoWidgets(a, b);
    hide Conflicts, Collects, Next, Enabled, Possible, Run;
    steps := [Schedule(a), Schedule(b)];
    var s0 := Init({});
    ScheduleAlone(s0, a);
    var s1 := Next(s0, Schedule(a));
    assert s1.pool.running == [a] && s1.marked == {};
    ScheduleAlone(s1, b);
    var s2 := Next(s1, Schedule(b));
    assert steps[1..] == [Schedule(b)] && steps[1..][1..] == [];
    RunNothing(s2);
    RunStep(s1, steps[1..], s2);
    RunStep(s0, steps, s1);
    assert s2.pool.running == [a] + [b];
  }

  /** If an id is taken again while a start task for its former holder is still queued, that task
      starts the new holder `w` before the context `a` that `w` displaces has been stopped. */
  lemma StaleStartOvertakesStop(x: Context, a: Context, w: Context) returns (steps: seq<Step>)
    requires x.id == w.id != a.id && x != w && x != a
    requires Conflicts(a, w) && Collects(w, a, {})
    ensures FifoRun(steps) && Possible(Init({}), steps)
    ensures Run(Init({}), steps).executor == Starting(w)
    ensures !StoppedBefore(Run(Init({}), steps), w)
  {
    hide Next, Enabled, Possible, Run, Conflicts, Collects, StoppedBefore;
    steps := [Schedule(x), Post(0), Delete(x.id), Schedule(a), Schedule(w), Begin(0)];
    var s0 := Init({});
    var s1, s2, s3 := LeaveStaleStart(x);
    var s4, s5 := RetakeId(s3, a, w);
    var s6 := BeginStale(s5, a, w);
    var r1, r2, r3, r4, r5 := steps[1..], steps[2..], steps[3..], steps[4..], steps[5..];
    assert r1[1..] == r2 && r2[1..] == r3 && r3[1..] == r4 && r4[1..] == r5 && r5[1..] == [];
    RunNothing(s6);
    RunStep(s5, r5, s6);
    RunStep(s4, r4, s5);
    RunStep(s3, r3, s4);
    RunStep(s2, r2, s3);
    RunStep(s1, r1, s2);
    RunStep(s0, steps, s1);
  }

  lemma BeginStale(s5: System, a: Context, w: Context) returns (s6: System)
    requires s5.pool == Pool([a, w], [], {}) && s5.executor == Idle && s5.stopped == {}
    requires s5.queue == [Start(w.id)] && w.id != a.id && Conflicts(a, w)
    ensures Enabled(s5, Begin(0)) && s6 == Next(s5, Begin(0))
    ensures s6.executor == Starting(w) && !StoppedBefore(s6, w)
  {
    s6 := Next(s5, Begin(0));
    assert [a, w][0] == a && [a, w][1] == w;
    assert FindIn([a, w], w.id) == FindIn([a, w][1..], w.id) == w;
    assert s6.pool.running[0] == a && s6.pool.running[1] == w;
    assert InWay(s6.pool.running, a, w);
  }

  lemma LeaveStaleStart(x: Context) returns (s1: System, s2: System, s3: System)
    ensures Enabled(Init({}), Schedule(x)) && s1 == Next(Init({}), Schedule(x))
    ensures Enabled(s1, Post(0)) && s2 == Next(s1, Post(0))
    ensures Enabled(s2, Delete(x.id)) && s3 == Next(s2, Delete(x.id))
    ensures s3.pool == Pool([], [], {}) && s3.queue == [Start(x.id)] && s3.executor == Idle
    ensures s3.dialogs == {} && s3.stopped == {} && s3.known == {x}
  {
    ScheduleAlone(Init({}), x);
    s1 := Next(Init({}), Schedule(x));
    assert s1.pool.running == [x] && s1.posting == [[Start(x.id)]];
    hide Scheduled, Removed, Promote;
    s2 := Next(s1, Post(0));
    s3 := Next(s2, Delete(x.id));
    DeleteOnly(s2, x);
  }

  lemma RetakeId(s3: System, a: Context, w: Context) returns (s4: System, s5: System)
    requires s3.pool == Pool([], [], {}) && s3.executor == Idle && s3.dialogs == {}
    requires a !in s3.known && w !in s3.known && w.id != a.id
    requires Conflicts(a, w) && Collects(w, a, {})
    ensures Enabled(s3, Schedule(a)) && s4 == Next(s3, Schedule(a))
    ensures Enabled(s4, Schedule(w)) && s5 == Next(s4, Schedule(w))
    ensures s5.pool == Pool([a, w], [], {})
    ensures s5.queue == s3.queue && s5.executor == Idle && s5.stopped == s3.stopped
  {
    hide Next, Conflicts, Collects;
    ScheduleAlone(s3, a);
    s4 := Next(s3, Schedule(a));
    assert s4.pool.running == [a];
    ConflictIsSymmetric(a, w);
    ScheduleAlone(s4, w);
    s5 := Next(s4, Schedule(w));
  }

  lemma DeleteOnly(s: System, x: Context)
    requires s.pool.running == [x] && s.pool.waiting == []
    ensures var s' := Next(s, Delete(x.id));
            && s'.pool == s.pool.(running := [])
            && s' == s.(pool := s'.pool, posting := s'.posting)
  {
    assert x in s.pool.running && Holds(s.pool.running, x.id);
    assert Removed(s.pool, x.id).running == [];
    var p := Removed(s.pool, x.id);
    assert Admitted(p, s.dialogs) == [] && Collected(p, s.dialogs) == {};
    assert s.marked + {} == s.marked;
  }
}
