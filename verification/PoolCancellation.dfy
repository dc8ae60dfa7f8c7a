/** Cancelling wins over a pending start, whatever order the executor picks its tasks in. */
module PoolCancellation {
  import opened Contexts
  import opened Selection
  import opened Promotion
  import opened PoolOperations
  import opened PoolRuns

  /** No continuation of the run ever runs OnStart() of `c`. */
  ghost predicate NeverStarts(s: System, c: Context) {
    forall steps | Possible(s, steps) :: c !in Run(s, steps).started
  }

  /** Every way for `c` to start is closed: as long as it is pooled, its cancellation is on the list,
      or under way, or was delivered before it started. */
  ghost predicate Doomed(s: System, c: Context) {
    && c.kind != ScheduleHolder
    && c in s.known && c !in s.started
    && (s.executor == Starting(c) ==> c in s.refused)
    && (c in Pooled(s.pool) ==>
          c.id in s.pool.cancelRequested || c in s.refused
          || s.executor == Stopping(c.id) || s.executor == Halting(c))
  }

  lemma StepKeepsDoomed(s: System, step: Step, c: Context)
    requires Sound(s) && Enabled(s, step) && Doomed(s, c)
    ensures Doomed(Next(s, step), c)
  {
    match step
    case Schedule(d) => ScheduleAddsOne(s.pool, d, s.dialogs);
    case Delete(id) => DeleteRemovesOne(s.pool, id, s.dialogs);
    case Notify => PromotionConserves(s.pool, s.dialogs);
    case Look =>
      if c in Pooled(s.pool) && s.executor == Stopping(c.id) {
        SoleHolder(s.pool, c, Find(s.pool, c.id));
      }
    case _ =>
  }

  lemma SoleHolder(p: Pool, c: Context, d: Context)
    requires WellFormed(p) && c in Pooled(p) && d in Pooled(p) && c.id == d.id
    ensures c == d
  {
    var all := p.running + p.waiting;
    ElemsOfConcat(p.running, p.waiting);
    assert c in Elems(all) && d in Elems(all);
    var i :| 0 <= i < |all| && all[i] == c;
    var j :| 0 <= j < |all| && all[j] == d;
    assert i == j;
  }

  lemma {:induction false} DoomedNeverStarts(s: System, steps: seq<Step>, c: Context)
    requires Sound(s) && Possible(s, steps) && Doomed(s, c)
    ensures c !in Run(s, steps).started
    decreases |steps|
  {
    if steps != [] {
      StepIsSound(s, steps[0]);
      StepKeepsDoomed(s, steps[0], c);
      DoomedNeverStarts(Next(s, steps[0]), steps[1..], c);
    }
  }

  /** In every reachable state, cancelling a pooled context that has not started keeps it from ever
      starting, if and only if its start task has not already passed its check of the pool. */
  lemma CancelWins(s: System, c: Context)
    requires Reachable(s) && c in Pooled(s.pool) && c.kind != ScheduleHolder && c !in s.started
    ensures NeverStarts(Next(s, Cancel(c.id)), c) <==> (s.executor != Starting(c) || c in s.refused)
  {
    ReachableIsSound(s);
    var s' := Next(s, Cancel(c.id));
    StepIsSound(s, Cancel(c.id));
    if s.executor != Starting(c) || c in s.refused {
      forall after | Possible(s', after)
        ensures c !in Run(s', after).started
      {
        DoomedNeverStarts(s', after, c);
      }
    } else {
      var after := [Finish];
      assert Next(s', Finish) == StartIt(s'.(executor := Idle), c);
      assert after[1..] == [];
      assert c in Run(s', after).started;
    }
  }

  // ----- Cancellation requests do not pile up -----

  ghost predicate HasStop(s: System, id: ContextId) {
    Stop(id) in s.queue || exists l | 0 <= l < |s.posting| :: Stop(id) in s.posting[l]
  }

  ghost predicate RequestsCovered(s: System) {
    forall id | id in s.pool.cancelRequested :: HasStop(s, id)
  }

  lemma MoreToPost(s: System, tasks: seq<Task>, id: ContextId)
    requires HasStop(s, id)
    ensures HasStop(s.(posting := s.posting + [tasks]), id)
  {
    if Stop(id) !in s.queue {
      var l :| 0 <= l < |s.posting| && Stop(id) in s.posting[l];
      assert (s.posting + [tasks])[l] == s.posting[l];
    }
  }

  lemma PostKeepsStop(s: System, k: nat, id: ContextId)
    requires k < |s.posting| && s.posting[k] != [] && HasStop(s, id)
    ensures HasStop(PostOne(s, k), id)
  {
    var s' := PostOne(s, k);
    if Stop(id) in s.queue {
      assert Stop(id) in s'.queue;
    } else {
      var l :| 0 <= l < |s.posting| && Stop(id) in s.posting[l];
      if l == k {
        assert s.posting[k] == [s.posting[k][0]] + s.posting[k][1..];
        assert Stop(id) in s'.queue || Stop(id) in s'.posting[l];
      } else {
        assert s'.posting[l] == s.posting[l];
      }
    }
  }

  lemma StepKeepsRequestsCovered(s: System, step: Step)
    requires Enabled(s, step) && RequestsCovered(s)
    ensures RequestsCovered(Next(s, step))
  {
    var s' := Next(s, step);
    forall id | id in s'.pool.cancelRequested
      ensures HasStop(s', id)
    {
      match step
      case Cancel(mine) =>
        if id == mine {
          assert s'.posting[|s.posting|] == [Stop(id)];
        } else {
          MoreToPost(s, [Stop(mine)], id);
        }
      case Post(k) => PostKeepsStop(s, k, id);
      case Begin(k) =>
        assert s.queue == s.queue[..k] + [s.queue[k]] + s.queue[k + 1..];
        assert s.queue[k] != Stop(id);
      case Schedule(c) =>
        if s' != s {
          MoreToPost(s, s'.posting[|s.posting|], id);
        }
      case Delete(_) =>
        if s' != s {
          MoreToPost(s, s'.posting[|s.posting|], id);
        }
      case Notify => MoreToPost(s, s'.posting[|s.posting|], id);
      case _ =>
    }
  }

  lemma {:induction false} RunKeepsRequestsCovered(s: System, steps: seq<Step>)
    requires Possible(s, steps) && RequestsCovered(s)
    ensures RequestsCovered(Run(s, steps))
    decreases |steps|
  {
    if steps != [] {
      StepKeepsRequestsCovered(s, steps[0]);
      RunKeepsRequestsCovered(Next(s, steps[0]), steps[1..]);
    }
  }

  /** Every requested cancellation has a stop task on its way, so once all tasks are posted and
      begun no request is left over. */
  lemma RequestsDrain(s: System)
    requires Reachable(s)
    ensures forall id | id in s.pool.cancelRequested :: HasStop(s, id)
    ensures s.queue == [] && (forall l | 0 <= l < |s.posting| :: s.posting[l] == []) ==> s.pool.cancelRequested == {}
  {
    var dialogs, steps :| Possible(Init(dialogs), steps) && Run(Init(dialogs), steps) == s;
    RunKeepsRequestsCovered(Init(dialogs), steps);
  }
}
