/** The pool itself: its fields, its loops, and what each of its methods leaves behind. */
module ContextPools {
  import opened Contexts
  import opened Selection
  import opened Promotion
  import opened PoolOperations
  import opened Common

  function IdsOf(cs: set<Context>): set<ContextId> {
    set c | c in cs :: c.id
  }

  /** The members one waiter tells to stop. */
  function CollectedAmong(waiter: Context, members: set<Context>, dialogs: set<Context>): set<Context> {
    set m | m in members && Collects(waiter, m, dialogs)
  }

  predicate IsMapOf(m: map<ContextId, Context>, s: seq<Context>) {
    && m.Keys == IdsOf(Elems(s))
    && forall c | c in s :: m[c.id] == c
  }

  class ContextPool {
    var running: map<ContextId, Context>
    var waiting: seq<Context>
    var cancelRequested: set<ContextId>
    var tasks: seq<Task>             // posted to the single-thread handler and not yet run
    ghost var admission: seq<Context>  // the running contexts, in the order of their admission
    ghost var stopCalls: seq<Context>  // whose Stop() was called
    ghost var startCalls: seq<Context> // whose Start() was called
    ghost var failCalls: seq<Context>  // whose OnStartFailed() was called

    ghost predicate Valid()
      reads this
    {
      && DistinctIds(admission + waiting)
      && IsMapOf(running, admission)
    }

    ghost function Model(): Pool
      reads this
    {
      Pool(admission, waiting, cancelRequested)
    }

    constructor ()
      ensures Valid() && Model() == Pool([], [], {}) && tasks == []
      ensures stopCalls == startCalls == failCalls == []
    {
      running, waiting, cancelRequested, tasks, admission := map[], [], {}, [], [];
      stopCalls, startCalls, failCalls := [], [], [];
    }

    /** Lists the running contexts, each once, in whatever order the hash map yields them. */
    method ListRunning() returns (members: seq<Context>)
      requires Valid()
      ensures Elems(members) == Elems(admission) && DistinctIds(members)
    {
      members := [];
      var left := running.Keys;
      while left != {}
        invariant left <= running.Keys
        invariant Elems(members) == set c | c in admission && c.id !in left
        invariant DistinctIds(members)
      {
        var id :| id in left;
        NotYetListed(members, admission, left);
        assert exists c | c in admission :: c.id == id && running[id] == c;
        ghost var before := left;
        ElemsOfConcat(members, [running[id]]);
        members, left := members + [running[id]], left - {id};
        forall c | c in admission
          ensures c.id !in left <==> c.id !in before || c == running[id]
        {
        }
      }
    }

    /** Compares one waiter with everyone ahead of it. Superseded members go straight into the plan,
        those that yield are victims, and the rest stays visible to the waiter. */
    static method Classify(waiter: Context, members: seq<Context>, dialogs: set<Context>,
                           planned: map<ContextId, Context>)
      returns (toStop: map<ContextId, Context>, visible: seq<Context>)
      ensures Elems(visible) == Elems(members) - CollectedAmong(waiter, Elems(members), dialogs)
      ensures toStop.Keys == planned.Keys + IdsOf(CollectedAmong(waiter, Elems(members), dialogs))
    {
      hide Collects, Elems, IdsOf, CollectedAmong;
      toStop, visible := planned, [];
      var victims := [];
      NobodyCollected(waiter, dialogs, planned.Keys);
      assert members[..0] == [];
      for k := 0 to |members|
        invariant Elems(visible) == Elems(members[..k]) - CollectedAmong(waiter, Elems(members[..k]), dialogs)
        invariant toStop.Keys + IdsOf(Elems(victims)) ==
                  planned.Keys + IdsOf(CollectedAmong(waiter, Elems(members[..k]), dialogs))
      {
        ElemsOfPrefix(members, k);
        OneMoreClassified(waiter, Elems(members[..k]), members[k], dialogs);
        ElemsOfConcat(visible, [members[k]]);
        ElemsOfOne(members[k]);
        ghost var before := toStop.Keys + IdsOf(Elems(victims));
        toStop, victims, visible := ClassifyOne(waiter, members[k], dialogs, toStop, victims, visible);
        assert before == planned.Keys + IdsOf(CollectedAmong(waiter, Elems(members[..k]), dialogs));
      }
      assert members[..|members|] == members;
      toStop := EmplaceAll(toStop, victims);
    }

    static method ClassifyOne(waiter: Context, member: Context, dialogs: set<Context>,
                              planned: map<ContextId, Context>, victims: seq<Context>, visible: seq<Context>)
      returns (planned': map<ContextId, Context>, victims': seq<Context>, visible': seq<Context>)
      ensures visible' == if Collects(waiter, member, dialogs) then visible else visible + [member]
      ensures planned'.Keys + IdsOf(Elems(victims')) ==
              planned.Keys + IdsOf(Elems(victims)) + if Collects(waiter, member, dialogs) then {member.id} else {}
    {
      planned', victims', visible' := planned, victims, visible;
      var canCollect := waiter.createTime > member.createTime;
      if canCollect && IsSameCallerDuplicate(waiter, member) {
        planned' := Emplace(planned, member);
      } else if canCollect && member.GetPreemptDecision(waiter, member in dialogs) == StopNow {
        IdsOfMore(Elems(victims), member);
        ElemsOfConcat(victims, [member]);
        ElemsOfOne(member);
        victims' := victims + [member];
      } else {
        visible' := visible + [member];
      }
    }

    static method EmplaceAll(planned: map<ContextId, Context>, victims: seq<Context>)
      returns (toStop: map<ContextId, Context>)
      ensures toStop.Keys == planned.Keys + IdsOf(Elems(victims))
    {
      toStop := planned;
      for k := 0 to |victims|
        invariant toStop.Keys == planned.Keys + IdsOf(Elems(victims[..k]))
      {
        ElemsOfPrefix(victims, k);
        toStop := Emplace(toStop, victims[k]);
      }
      assert victims[..|victims|] == victims;
    }

    static function Emplace(m: map<ContextId, Context>, c: Context): (r: map<ContextId, Context>)
      ensures r.Keys == m.Keys + {c.id}
      ensures forall id | id in m :: r[id] == m[id]
    {
      if c.id in m then m else m[c.id := c]
    }

    /** What the loop does with one waiter before it moves it or leaves it: extend the plan, line it up
        behind its predecessors, and ask it whether it can start. */
    static method Consider(waiter: Context, members: seq<Context>, dialogs: set<Context>,
                           planned: map<ContextId, Context>, ghost p: Pool, ghost n: nat)
      returns (toStop: map<ContextId, Context>, predecessors: seq<Context>, canStart: bool)
      requires n < |p.waiting| && waiter == p.waiting[n]
      requires Elems(members) == Predecessors(p, n)
      requires planned.Keys == IdsOf(CollectedBy(p, dialogs, n))
      ensures Elems(predecessors) == Predecessors(p, n + 1)
      ensures toStop.Keys == IdsOf(CollectedBy(p, dialogs, n + 1))
      ensures canStart == Admits(p, dialogs, n)
    {
      var visible;
      toStop, visible := Classify(waiter, members, dialogs, planned);
      CollectedByOneMore(p, dialogs, n);
      CanStartIffAdmits(p, dialogs, n, visible);
      ElemsOfPrefix(p.waiting, n);
      ElemsOfConcat(members, [waiter]);
      predecessors := members + [waiter];
      canStart := waiter.CanStart(visible);
    }

    method PromoteWaitingLocked(dialogs: set<Context>)
      returns (toStop: map<ContextId, Context>, toStart: seq<Context>)
      requires Valid()
      modifies this`running, this`waiting, this`admission
      ensures Valid()
      ensures Model() == Promoted(old(Model()), dialogs)
      ensures Plan(toStop.Keys, toStart) == PromotionPlan(old(Model()), dialogs)
    {
      hide Admits, CollectedBy, Predecessors, Halfway, Verdicts, Promoted, PromotionPlan;
      toStop, toStart := map[], [];
      ghost var p := Model();
      if waiting == [] {
        PromotingNobody(p, dialogs);
        return;
      }
      HalfwayBegins(p, dialogs);
      var predecessors := ListRunning();
      var it := 0;
      ghost var n := 0;
      while it < |waiting|
        invariant n <= |p.waiting| && Halfway(p, dialogs, n, it, waiting, toStart)
        invariant admission == p.running + toStart && IsMapOf(running, admission)
        invariant Elems(predecessors) == Predecessors(p, n)
        invariant toStop.Keys == IdsOf(CollectedBy(p, dialogs, n))
        decreases |p.waiting| - n
      {
        HalfwayStep(p, dialogs, n, it, waiting, toStart);
        var waiter := waiting[it];
        var canStart;
        toStop, predecessors, canStart := Consider(waiter, predecessors, dialogs, toStop, p, n);
        if !canStart {
          it := it + 1;
        } else {
          toStart := toStart + [waiter];
          AdmitWaiterAt(it);
        }
        n := n + 1;
      }
      HalfwayEnds(p, dialogs, n, it, waiting, toStart);
    }

    /** Moves one waiter from the queue to the running contexts. */
    method AdmitWaiterAt(it: nat)
      requires it < |waiting| && IsMapOf(running, admission)
      requires forall c | c in admission :: c.id != waiting[it].id
      modifies this`running, this`waiting, this`admission
      ensures IsMapOf(running, admission) && admission == old(admission) + [old(waiting)[it]]
      ensures waiting == old(waiting)[..it] + old(waiting)[it + 1..]
    {
      var waiter := waiting[it];
      MapOfMore(running, admission, waiter);
      running := running[waiter.id := waiter];
      admission := admission + [waiter];
      waiting := waiting[..it] + waiting[it + 1..];
    }

    /** Posts all stops of a plan, by ascending id, and then its starts. */
    method ExecutePlan(toStop: map<ContextId, Context>, toStart: seq<Context>)
      modifies this`tasks
      ensures tasks == old(tasks) + PlanTasks(Plan(toStop.Keys, toStart))
    {
      PostStops(toStop.Keys);
      for k := 0 to |toStart|
        invariant tasks == old(tasks) + (Stops(Ascending(toStop.Keys)) + Starts(toStart[..k]))
      {
        assert Starts(toStart[..k + 1]) == Starts(toStart[..k]) + [Start(toStart[k].id)];
        tasks := tasks + [Start(toStart[k].id)];
      }
      assert toStart[..|toStart|] == toStart;
    }

    method PostStops(ids: set<ContextId>)
      modifies this`tasks
      ensures tasks == old(tasks) + Stops(Ascending(ids))
    {
      var order := Ascending(ids);
      for k := 0 to |order|
        invariant tasks == old(tasks) + Stops(order[..k])
      {
        assert Stops(order[..k + 1]) == Stops(order[..k]) + [Stop(order[k])];
        tasks := tasks + [Stop(order[k])];
      }
      assert order[..|order|] == order;
    }

    predicate SelectLocked(id: ContextId)
      reads this
    {
      id in running || Holds(waiting, id)
    }

    lemma SelectedIffHeld(id: ContextId)
      requires Valid()
      ensures id in running <==> Holds(admission, id)
    {
    }

    method Schedule(context: Option<Context>, dialogs: set<Context>) returns (ok: bool)
      requires Valid()
      modifies this`running, this`waiting, this`admission, this`tasks
      ensures Valid()
      ensures context.None? ==> !ok && Model() == old(Model()) && tasks == old(tasks)
      ensures context.Some? ==>
                var r := Scheduled(old(Model()), context.value, dialogs);
                ok == r.ok && Model() == r.pool && tasks == old(tasks) + PlanTasks(r.plan)
    {
      if context.None? {
        return false;
      }
      hide Promoted, PromotionPlan, PlanTasks;
      var c := context.value;
      SelectedIffHeld(c.id);
      RunningCount();
      if |running| + |waiting| >= MAX_CONTEXT_NUM || SelectLocked(c.id) {
        return false;
      }
      ghost var p := Model();
      assert forall m | m in admission + waiting :: m.id != c.id;
      assert admission + (waiting + [c]) == admission + waiting + [c];
      waiting := waiting + [c];
      var toStop, toStart := PromoteWaitingLocked(dialogs);
      ExecutePlan(toStop, toStart);
      return true;
    }

    lemma RunningCount()
      requires Valid()
      ensures |running| == |admission|
    {
      DistinctParts(admission, waiting);
      CountIds(admission);
      assert |running| == |running.Keys|;
    }

    method Cancel(id: ContextId)
      requires Valid()
      modifies this`cancelRequested, this`tasks
      ensures Valid()
      ensures Model() == old(Model()).(cancelRequested := old(cancelRequested) + {id})
      ensures tasks == old(tasks) + [Stop(id)]
    {
      cancelRequested := cancelRequested + {id};
      tasks := tasks + [Stop(id)];
    }

    method EraseFromWaiting(id: ContextId) returns (found: bool)
      modifies this`waiting
      ensures found == Holds(old(waiting), id) && waiting == RemoveId(old(waiting), id)
    {
      for at := 0 to |waiting|
        invariant forall k | 0 <= k < at :: waiting[k].id != id
        invariant waiting == old(waiting)
      {
        if waiting[at].id == id {
          RemoveAt(waiting, id, at);
          waiting := waiting[..at] + waiting[at + 1..];
          return true;
        }
      }
      NothingToRemove(waiting, id);
      return false;
    }

    /** Takes the context out of whichever queue it is in and lets the next ones in. */
    method Delete(id: ContextId, dialogs: set<Context>) returns (ok: bool)
      requires Valid()
      modifies this`running, this`waiting, this`admission, this`tasks
      ensures Valid()
      ensures var r := Deleted(old(Model()), id, dialogs);
              ok == r.ok && Model() == r.pool && tasks == old(tasks) + PlanTasks(r.plan)
    {
      hide Promoted, PromotionPlan, PlanTasks, RemoveId;
      SelectedIffHeld(id);
      RemovedKeepsIdsDistinct(Model(), id);
      DistinctParts(admission, waiting);
      RemoveIdRemoves(admission, id);
      RemoveIdRemoves(waiting, id);
      var removedFromWaiting := EraseFromWaiting(id);
      var removedFromRunning := id in running;
      if removedFromRunning {
        running := running - {id};
      }
      NoPlanNoTasks();
      if !removedFromWaiting && !removedFromRunning {
        return false;
      }
      MapOfLess(old(running), admission, id);
      admission := RemoveId(admission, id);
      var toStop, toStart := PromoteWaitingLocked(dialogs);
      ExecutePlan(toStop, toStart);
      return true;
    }

    method NotifyPreemptStateChanged(dialogs: set<Context>)
      requires Valid()
      modifies this`running, this`waiting, this`admission, this`tasks
      ensures Valid()
      ensures Model() == Promoted(old(Model()), dialogs)
      ensures tasks == old(tasks) + PlanTasks(PromotionPlan(old(Model()), dialogs))
    {
      var toStop, toStart := PromoteWaitingLocked(dialogs);
      ExecutePlan(toStop, toStart);
    }

    /** Cancels everyone who is pooled when the call begins, each once. */
    method CancelAll() returns (ghost ids: seq<ContextId>)
      requires Valid()
      modifies this`cancelRequested, this`tasks
      ensures Valid()
      ensures Elems(ids) == IdsOf(Pooled(old(Model())))
      ensures forall i, j | 0 <= i < j < |ids| :: ids[i] != ids[j]
      ensures Model() == old(Model()).(cancelRequested := old(cancelRequested) + Elems(ids))
      ensures tasks == old(tasks) + Stops(ids)
    {
      var members := ListPooled();
      ids := seq(|members|, i requires 0 <= i < |members| => members[i].id);
      IdsOfList(members, ids);
      CancelEach(members, ids);
    }

    method ListPooled() returns (members: seq<Context>)
      requires Valid()
      ensures Elems(members) == Pooled(Model()) && DistinctIds(members)
    {
      members := ListRunning();
      ListedAndWaiting(members, admission, waiting);
      ElemsOfConcat(members, waiting);
      members := members + waiting;
    }

    method CancelEach(members: seq<Context>, ghost ids: seq<ContextId>)
      requires Valid() && |ids| == |members| && forall i | 0 <= i < |ids| :: ids[i] == members[i].id
      modifies this`cancelRequested, this`tasks
      ensures Valid()
      ensures Model() == old(Model()).(cancelRequested := old(cancelRequested) + Elems(ids))
      ensures tasks == old(tasks) + Stops(ids)
    {
      hide Elems;
      ElemsOfNone();
      assert ids[..0] == [];
      for k := 0 to |members|
        invariant Valid() && admission == old(admission) && waiting == old(waiting)
        invariant cancelRequested == old(cancelRequested) + Elems(ids[..k])
        invariant tasks == old(tasks) + Stops(ids[..k])
      {
        Cancel(members[k].id);
        ElemsOfPrefix(ids, k);
        assert Stops(ids[..k + 1]) == Stops(ids[..k]) + [Stop(ids[k])];
      }
      assert ids[..|ids|] == ids;
    }

    method Select(id: ContextId) returns (context: Option<Context>)
      requires Valid()
      ensures context.Some? ==> context.value in Pooled(Model()) && context.value.id == id
      ensures context.None? ==> forall c | c in Pooled(Model()) :: c.id != id
    {
      SelectedIffHeld(id);
      if id in running {
        return Some(running[id]);
      }
      for k := 0 to |waiting|
        invariant forall j | 0 <= j < k :: waiting[j].id != id
      {
        if waiting[k].id == id {
          return Some(waiting[k]);
        }
      }
      return None;
    }

    /** A stop task with nobody in between its sections: the request comes off the list, and then the
        context to be stopped, if the pool still has it, is stopped. `answer` is what its Stop() says. */
    method StopIfPooled(id: ContextId, answer: bool) returns (ok: bool)
      requires Valid()
      modifies this`cancelRequested, this`stopCalls
      ensures Valid() && Model() == old(Model()).(cancelRequested := old(cancelRequested) - {id})
      ensures forall c | c in Pooled(old(Model())) && c.id == id :: ok == answer && stopCalls == old(stopCalls) + [c]
      ensures (forall c | c in Pooled(old(Model())) :: c.id != id) ==> !ok && stopCalls == old(stopCalls)
    {
      cancelRequested := cancelRequested - {id};
      var context := Select(id);
      if context.None? {
        return false;
      }
      OneHolder(id);
      stopCalls := stopCalls + [context.value];
      return answer;
    }

    /** A start task with nobody in between its sections: only a running context whose cancellation has
        not been asked for is started, and told if that fails. `answer` is what its Start() says. */
    method StartIfPooled(id: ContextId, answer: bool)
      requires Valid()
      modifies this`startCalls, this`failCalls
      ensures Valid() && Model() == old(Model())
      ensures forall c | c in admission && c.id == id && id !in cancelRequested ::
                && startCalls == old(startCalls) + [c]
                && failCalls == old(failCalls) + if answer then [] else [c]
      ensures (id in cancelRequested || forall c | c in admission :: c.id != id) ==>
                startCalls == old(startCalls) && failCalls == old(failCalls)
    {
      SelectedIffHeld(id);
      if id !in running || id in cancelRequested {
        return;
      }
      OneHolder(id);
      var context := running[id];
      startCalls := startCalls + [context];
      if !answer {
        failCalls := failCalls + [context];
      }
    }

    lemma OneHolder(id: ContextId)
      requires Valid()
      ensures forall c, d | c in Pooled(Model()) && d in Pooled(Model()) && c.id == d.id :: c == d
    {
      var all := admission + waiting;
      ElemsOfConcat(admission, waiting);
      forall c, d | c in Pooled(Model()) && d in Pooled(Model()) && c.id == d.id
        ensures c == d
      {
        assert c in Elems(all) && d in Elems(all);
        var i :| 0 <= i < |all| && all[i] == c;
        var j :| 0 <= j < |all| && all[j] == d;
        assert i == j;
      }
    }
  }

  // ----- Steps of the proofs above -----

  lemma NotYetListed(members: seq<Context>, admission: seq<Context>, left: set<ContextId>)
    requires Elems(members) == set c | c in admission && c.id !in left
    ensures forall m | m in members :: m.id !in left
  {
    forall m | m in members
      ensures m.id !in left
    {
      assert m in Elems(members);
    }
  }

  lemma ListedAndWaiting(members: seq<Context>, admission: seq<Context>, waiting: seq<Context>)
    requires Elems(members) == Elems(admission) && DistinctIds(members) && DistinctIds(admission + waiting)
    ensures DistinctIds(members + waiting)
  {
    DistinctParts(admission, waiting);
    forall m | m in members
      ensures m in admission
    {
      assert m in Elems(members);
    }
  }

  lemma ElemsOfOne(c: Context)
    ensures Elems([c]) == {c}
  {
  }

  lemma NoPlanNoTasks()
    ensures PlanTasks(NO_PLAN) == []
  {
  }

  lemma ElemsOfNone()
    ensures Elems<ContextId>([]) == {}
  {
  }

  lemma IdsOfList(members: seq<Context>, ids: seq<ContextId>)
    requires |ids| == |members| && forall i | 0 <= i < |ids| :: ids[i] == members[i].id
    ensures Elems(ids) == IdsOf(Elems(members))
  {
    forall id
      ensures id in Elems(ids) <==> id in IdsOf(Elems(members))
    {
      if id in Elems(ids) {
        var i :| 0 <= i < |ids| && ids[i] == id;
        assert members[i] in Elems(members);
      }
      if id in IdsOf(Elems(members)) {
        var c :| c in Elems(members) && c.id == id;
        var i :| 0 <= i < |members| && members[i] == c;
        assert ids[i] == id;
      }
    }
  }

  lemma NobodyCollected(waiter: Context, dialogs: set<Context>, ids: set<ContextId>)
    ensures Elems<Context>([]) == {} && CollectedAmong(waiter, {}, dialogs) == {}
    ensures ids + IdsOf({}) == ids
  {
  }

  /** What is collected and what stays visible when one more member is looked at. */
  lemma OneMoreClassified(waiter: Context, members: set<Context>, m: Context, dialogs: set<Context>)
    ensures var collected := CollectedAmong(waiter, members, dialogs);
            var more := CollectedAmong(waiter, members + {m}, dialogs);
            && IdsOf(more) == IdsOf(collected) + (if Collects(waiter, m, dialogs) then {m.id} else {})
            && members + {m} - more == members - collected + if Collects(waiter, m, dialogs) then {} else {m}
  {
    var collected := CollectedAmong(waiter, members, dialogs);
    var more := CollectedAmong(waiter, members + {m}, dialogs);
    assert more == collected + if Collects(waiter, m, dialogs) then {m} else {};
    IdsOfMore(collected, m);
  }

  lemma IdsOfMore(cs: set<Context>, c: Context)
    ensures IdsOf(cs + {c}) == IdsOf(cs) + {c.id}
  {
  }

  lemma CollectedByOneMore(p: Pool, dialogs: set<Context>, n: nat)
    requires n < |p.waiting|
    ensures CollectedAmong(p.waiting[n], Predecessors(p, n), dialogs) == Victims(p, dialogs, n)
    ensures CollectedBy(p, dialogs, n + 1) == CollectedBy(p, dialogs, n) + Victims(p, dialogs, n)
  {
    forall m | m in Victims(p, dialogs, n)
      ensures m in CollectedBy(p, dialogs, n + 1)
    {
    }
  }

  lemma CanStartIffAdmits(p: Pool, dialogs: set<Context>, n: nat, visible: seq<Context>)
    requires n < |p.waiting|
    requires Elems(visible) == Predecessors(p, n) - CollectedAmong(p.waiting[n], Predecessors(p, n), dialogs)
    ensures p.waiting[n].CanStart(visible) == Admits(p, dialogs, n) == Verdicts(p, dialogs)[n]
  {
    CanStartIffNoConflict(p.waiting[n], visible);
    assert forall m :: m in visible <==> m in Elems(visible);
  }

  /** The loop has decided on the first `n` waiters of `p`: those admitted have left the queue, and
      `it` is the place of the next one. */
  ghost predicate Halfway(p: Pool, dialogs: set<Context>, n: nat, it: nat,
                          waiting: seq<Context>, toStart: seq<Context>)
    requires n <= |p.waiting|
  {
    && it == |Select(p.waiting, Verdicts(p, dialogs), n, false)|
    && waiting == Select(p.waiting, Verdicts(p, dialogs), n, false) + p.waiting[n..]
    && toStart == Select(p.waiting, Verdicts(p, dialogs), n, true)
  }

  lemma HalfwayBegins(p: Pool, dialogs: set<Context>)
    ensures Halfway(p, dialogs, 0, 0, p.waiting, [])
    ensures Predecessors(p, 0) == Elems(p.running)
    ensures IdsOf(CollectedBy(p, dialogs, 0)) == {}
  {
  }

  lemma HalfwayStep(p: Pool, dialogs: set<Context>, n: nat, it: nat,
                    waiting: seq<Context>, toStart: seq<Context>)
    requires DistinctIds(p.running + p.waiting)
    requires n <= |p.waiting| && Halfway(p, dialogs, n, it, waiting, toStart) && it < |waiting|
    ensures n < |p.waiting| && waiting[it] == p.waiting[n]
    ensures Admits(p, dialogs, n) ==>
              Halfway(p, dialogs, n + 1, it, waiting[..it] + waiting[it + 1..], toStart + [p.waiting[n]])
    ensures !Admits(p, dialogs, n) ==> Halfway(p, dialogs, n + 1, it + 1, waiting, toStart)
    ensures forall c | c in p.running + toStart :: c.id != p.waiting[n].id
  {
    hide Admits;
    assert Verdicts(p, dialogs)[n] == Admits(p, dialogs, n);
    assert p.waiting[n..] == [p.waiting[n]] + p.waiting[n + 1..];
    NextIsAnother(p, Verdicts(p, dialogs), n);
  }

  lemma NextIsAnother(p: Pool, v: seq<bool>, n: nat)
    requires DistinctIds(p.running + p.waiting) && n < |p.waiting| == |v|
    ensures forall c | c in p.running + Select(p.waiting, v, n, true) :: c.id != p.waiting[n].id
  {
    DistinctParts(p.running, p.waiting);
    forall x | 0 <= x < |Select(p.waiting, v, n, true)|
      ensures Select(p.waiting, v, n, true)[x].id != p.waiting[n].id
    {
      var i := SelectedFrom(p.waiting, v, n, true, x);
    }
  }

  lemma HalfwayEnds(p: Pool, dialogs: set<Context>, n: nat, it: nat,
                    waiting: seq<Context>, toStart: seq<Context>)
    requires DistinctIds(p.running + p.waiting)
    requires n <= |p.waiting| && Halfway(p, dialogs, n, it, waiting, toStart) && it >= |waiting|
    ensures n == |p.waiting| && toStart == Admitted(p, dialogs)
    ensures p.(running := p.running + toStart, waiting := waiting) == Promoted(p, dialogs)
    ensures DistinctIds(p.running + toStart + waiting)
    ensures PromotionPlan(p, dialogs) == Plan(IdsOf(CollectedBy(p, dialogs, n)), toStart)
  {
    PromotionKeepsIdsDistinct(p, dialogs);
  }

  lemma PromotingNobody(p: Pool, dialogs: set<Context>)
    requires p.waiting == []
    ensures Promoted(p, dialogs) == p && PromotionPlan(p, dialogs) == NO_PLAN
  {
    assert p.running + [] == p.running;
  }

  lemma MapOfMore(m: map<ContextId, Context>, s: seq<Context>, c: Context)
    requires IsMapOf(m, s) && forall x | x in s :: x.id != c.id
    ensures IsMapOf(m[c.id := c], s + [c])
  {
    ElemsOfConcat(s, [c]);
    IdsOfMore(Elems(s), c);
  }

  lemma MapOfLess(m: map<ContextId, Context>, s: seq<Context>, id: ContextId)
    requires IsMapOf(m, s) && DistinctIds(s)
    ensures IsMapOf(m - {id}, RemoveId(s, id))
    ensures id !in m ==> m - {id} == m
  {
    RemoveIdRemoves(s, id);
    var r := RemoveId(s, id);
    forall c
      ensures c in r <==> c in s && c.id != id
    {
      assert c in r <==> c in Elems(r);
    }
    IdsOfLess(Elems(s), Elems(r), id);
  }

  lemma IdsOfLess(s: set<Context>, r: set<Context>, id: ContextId)
    requires forall c :: c in r <==> c in s && c.id != id
    ensures IdsOf(r) == IdsOf(s) - {id}
  {
  }

  lemma {:induction false} NothingToRemove(s: seq<Context>, id: ContextId)
    requires forall c | c in s :: c.id != id
    ensures RemoveId(s, id) == s
  {
    if s != [] {
      NothingToRemove(s[1..], id);
    }
  }

  lemma {:induction false} CountIds(s: seq<Context>)
    requires DistinctIds(s)
    ensures |IdsOf(Elems(s))| == |s|
  {
    if s != [] {
      var n := |s| - 1;
      CountIds(s[..n]);
      ElemsOfPrefix(s, n);
      assert s[..n + 1] == s;
      assert IdsOf(Elems(s)) == IdsOf(Elems(s[..n])) + {s[n].id};
    }
  }

  lemma {:induction false} RemoveAt(s: seq<Context>, id: ContextId, at: nat)
    requires at < |s| && s[at].id == id && forall k | 0 <= k < at :: s[k].id != id
    ensures RemoveId(s, id) == s[..at] + s[at + 1..]
  {
    if at > 0 {
      assert s[1..][at - 1] == s[at];
      RemoveAt(s[1..], id, at - 1);
    }
  }
}
