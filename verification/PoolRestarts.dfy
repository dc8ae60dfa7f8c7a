/**
 * When a start task calls Start() on a context that has started already, as the lifecycles of the contexts
 * count on not to happen.
 */
module PoolRestarts {
  import opened Contexts
  import opened Promotion
  import opened PoolOperations
  import opened PoolRuns
  import opened PoolCancellation
  import opened PoolStarts

  /** A start task for an earlier holder of the newcomer's id is on its way, and no stop for the id is under
      way that would reach the newcomer before it starts. */
  ghost predicate StaleStart(s: System, c: Context) {
    Start(c.id) in Outstanding(s) && c.id !in s.pool.cancelRequested && s.executor != Stopping(c.id)
  }

  predicate Restarts(s: System, c: Context) {
    s.executor == Starting(c) && c in s.started && c !in s.stopped
  }

  ghost predicate MayRestart(s: System, c: Context) {
    exists steps | Possible(s, steps) :: Restarts(Run(s, steps), c)
  }

  // ----- Without a stale start -----

  /** Who has left the pool does not come back. */
  lemma GoneStaysGone(s: System, step: Step, c: Context)
    requires Sound(s) && Enabled(s, step) && c in s.known && c !in Pooled(s.pool)
    ensures c !in Pooled(Next(s, step).pool)
  {
    match step
    case Schedule(d) => ScheduleAddsOne(s.pool, d, s.dialogs);
    case Delete(id) => DeleteRemovesOne(s.pool, id, s.dialogs);
    case Notify => PromotionConserves(s.pool, s.dialogs);
    case _ =>
  }

  lemma ScheduleCallsNobody(s: System, c: Context)
    requires Tidy(s) && Enabled(s, Schedule(c))
    ensures var s' := Next(s, Schedule(c));
            c !in s'.started && c !in s'.refused && c !in s'.stopped
  {
  }

  /** `c` is given to at most one start task, or never starts. */
  ghost predicate Settled(s: System, c: Context) {
    Tidy(s) && (OnceOnly(s, c) || Doomed(s, c))
  }

  lemma StepIsSettled(s: System, step: Step, c: Context)
    requires Settled(s, c) && Enabled(s, step)
    ensures Settled(Next(s, step), c)
  {
    hide Next, Enabled, OnceOnly, Doomed;
    StepIsTidy(s, step);
    if OnceOnly(s, c) {
      StepIsOnceOnly(s, step, c);
    } else {
      StepKeepsDoomed(s, step, c);
    }
  }

  /** Whom a settled start task is about to start has not started. */
  lemma SettledStartsOnce(s: System, c: Context)
    requires Settled(s, c)
    ensures s.executor == Starting(c) ==> c !in s.started
    ensures c in s.known
  {
  }

  lemma {:induction false} SettledNeverRestarts(s: System, steps: seq<Step>, c: Context)
    requires Settled(s, c) && Possible(s, steps)
    ensures !Restarts(Run(s, steps), c)
    decreases |steps|
  {
    if steps == [] {
      SettledStartsOnce(s, c);
    } else {
      StepIsSettled(s, steps[0], c);
      SettledNeverRestarts(Next(s, steps[0]), steps[1..], c);
    }
  }

  lemma NewcomerIsSettled(s: System, c: Context)
    requires Reachable(s) && Enabled(s, Schedule(c)) && Scheduled(s.pool, c, s.dialogs).ok
    requires c.kind != ScheduleHolder && !StaleStart(s, c)
    ensures Settled(Next(s, Schedule(c)), c)
  {
    ReachableIsTidy(s);
    StepIsTidy(s, Schedule(c));
    if Start(c.id) !in Outstanding(s) {
      NewcomerIsOnceOnly(s, c);
    } else {
      NewcomerIsDoomed(s, c);
    }
  }

  lemma NewcomerIsDoomed(s: System, c: Context)
    requires Tidy(s) && Enabled(s, Schedule(c)) && Scheduled(s.pool, c, s.dialogs).ok
    requires c.kind != ScheduleHolder && (c.id in s.pool.cancelRequested || s.executor == Stopping(c.id))
    ensures Doomed(Next(s, Schedule(c)), c)
  {
  }

  // ----- With one -----

  /** Nothing will stop `c` before both its start tasks have run. */
  ghost predicate Primed(s: System, c: Context) {
    && Ripe(s, c) && c.id !in s.pool.cancelRequested && c !in s.stopped
    && s.executor != Stopping(c.id) && s.executor != Halting(c)
  }

  lemma StepFirst(s: System, step: Step, c: Context)
    requires Enabled(s, step) && MayRestart(Next(s, step), c)
    ensures MayRestart(s, c)
  {
    var rest :| Possible(Next(s, step), rest) && Restarts(Run(Next(s, step), rest), c);
    hide Next, Enabled, Restarts;
    var steps := [step] + rest;
    assert steps[1..] == rest;
    assert Possible(s, steps) && Run(s, steps) == Run(Next(s, step), rest);
  }

  lemma ExecutorKeepsPrimed(s: System, c: Context)
    requires Primed(s, c) && s.executor != Idle
    ensures Enabled(s, Onward(s.executor))
    ensures var s' := Next(s, Onward(s.executor));
            && Primed(s', c) && s'.pool == s.pool && s'.posting == s.posting
            && Rank(s'.executor) < Rank(s.executor)
  {
    hide Ripe;
    ExecutorKeepsRipe(s, c);
  }

  lemma DeleteKeepsPrimed(s: System, c: Context, m: Context)
    requires Primed(s, c) && m in s.pool.running && m.id != c.id
    ensures var s' := Next(s, Delete(m.id));
            && Primed(s', c)
            && |s'.pool.running| + |s'.pool.waiting| < |s.pool.running| + |s.pool.waiting|
  {
    hide Ripe;
    DeleteKeepsRipe(s, c, m);
  }

  lemma PostKeepsPrimed(s: System, c: Context, l: nat)
    requires Primed(s, c) && Enabled(s, Post(l))
    ensures var s' := Next(s, Post(l));
            Primed(s', c) && s'.executor == s.executor && s'.pool == s.pool
            && |Unposted(s'.posting)| < |Unposted(s.posting)|
  {
    hide Ripe;
    PostKeepsRipe(s, c, l);
  }

  lemma BothStartsRestart(s: System, c: Context)
    requires Primed(s, c) && s.executor == Idle && c in s.pool.running
    requires forall l | 0 <= l < |s.posting| :: s.posting[l] == []
    ensures MayRestart(s, c)
  {
    NothingUnposted(s.posting);
    assert Sound(s);
    var k := BeginStartOf(s, c);
    var s1 := Next(s, Begin(k));
    var s2 := Next(s1, Finish);
    assert s2.queue == Taken(s, k).queue && multiset(s2.queue)[Start(c.id)] >= 1;
    var k' := BeginStartOf(s2, c);
    var s3 := Next(s2, Begin(k'));
    assert Restarts(s3, c);
    assert Possible(s3, []) && Run(s3, []) == s3;
    StepFirst(s2, Begin(k'), c);
    StepFirst(s1, Finish, c);
    StepFirst(s, Begin(k), c);
  }

  lemma {:induction false} PrimedMayRestart(s: System, c: Context)
    requires Primed(s, c)
    ensures MayRestart(s, c)
    decreases |s.pool.running| + |s.pool.waiting|, |Unposted(s.posting)|, Rank(s.executor)
  {
    hide Next, MayRestart;
    if s.executor != Idle {
      ExecutorKeepsPrimed(s, c);
      PrimedMayRestart(Next(s, Onward(s.executor)), c);
      StepFirst(s, Onward(s.executor), c);
    } else if c !in s.pool.running {
      var m := SomeRunner(s, c);
      DeleteKeepsPrimed(s, c, m);
      PrimedMayRestart(Next(s, Delete(m.id)), c);
      StepFirst(s, Delete(m.id), c);
    } else if l :| 0 <= l < |s.posting| && s.posting[l] != [] {
      PostKeepsPrimed(s, c, l);
      PrimedMayRestart(Next(s, Post(l)), c);
      StepFirst(s, Post(l), c);
    } else {
      BothStartsRestart(s, c);
    }
  }

  lemma NewcomerIsPrimed(s: System, c: Context)
    requires Tidy(s) && Enabled(s, Schedule(c)) && Scheduled(s.pool, c, s.dialogs).ok
    requires StaleStart(s, c)
    ensures Primed(Next(s, Schedule(c)), c)
  {
    hide Ripe;
    NewcomerIsRipe(s, c);
  }

  /** A newcomer can be started again after it started, without having been stopped, if and only if, when it
      is taken in, a start task for an earlier holder of its id is on its way, its id is not on the list of
      requested cancellations, and no stop task for it is about to look into the pool. */
  lemma RestartsIffStale(s: System, c: Context)
    requires Reachable(s) && Enabled(s, Schedule(c)) && Scheduled(s.pool, c, s.dialogs).ok
    requires c.kind != ScheduleHolder
    ensures MayRestart(Next(s, Schedule(c)), c) <==> StaleStart(s, c)
  {
    var s' := Next(s, Schedule(c));
    if StaleStart(s, c) {
      ReachableIsTidy(s);
      NewcomerIsPrimed(s, c);
      PrimedMayRestart(s', c);
    } else {
      NewcomerIsSettled(s, c);
      forall steps | Possible(s', steps)
        ensures !Restarts(Run(s', steps), c)
      {
        SettledNeverRestarts(s', steps, c);
      }
    }
  }
}
