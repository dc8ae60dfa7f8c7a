/** What each operation of the pool does to its state, and the invariant every operation keeps. */
module PoolOperations {
  import opened Common
  import opened Contexts
  import opened Selection
  import opened Promotion

  datatype Task = Stop(id: ContextId) | Start(id: ContextId)

  datatype Outcome = Outcome(ok: bool, pool: Pool, plan: Plan)

  const NO_PLAN := Plan({}, [])

  predicate Holds(s: seq<Context>, id: ContextId) {
    exists c | c in s :: c.id == id
  }

  /** The sequence without its first context of that id. */
  function RemoveId(s: seq<Context>, id: ContextId): seq<Context> {
    if s == [] then [] else if s[0].id == id then s[1..] else [s[0]] + RemoveId(s[1..], id)
  }

  function PromotionOutcome(p: Pool, dialogs: set<Context>): Outcome {
    Outcome(true, Promoted(p, dialogs), PromotionPlan(p, dialogs))
  }

  function Scheduled(p: Pool, c: Context, dialogs: set<Context>): Outcome {
    if |p.running| + |p.waiting| >= MAX_CONTEXT_NUM || Holds(p.running, c.id) || Holds(p.waiting, c.id)
    then Outcome(false, p, NO_PLAN)
    else PromotionOutcome(p.(waiting := p.waiting + [c]), dialogs)
  }

  function Removed(p: Pool, id: ContextId): Pool {
    p.(running := RemoveId(p.running, id), waiting := RemoveId(p.waiting, id))
  }

  function Deleted(p: Pool, id: ContextId, dialogs: set<Context>): Outcome {
    if !Holds(p.running, id) && !Holds(p.waiting, id) then Outcome(false, p, NO_PLAN)
    else PromotionOutcome(Removed(p, id), dialogs)
  }

  // ----- The tasks of a plan -----

  predicate IsLeast(ids: set<ContextId>, least: ContextId) {
    least in ids && forall id | id in ids :: least <= id
  }

  lemma {:induction false} LeastExists(ids: set<ContextId>)
    requires ids != {}
    ensures exists least | least in ids :: IsLeast(ids, least)
  {
    var some :| some in ids;
    if ids == {some} {
      assert IsLeast(ids, some);
    } else {
      LeastExists(ids - {some});
      var least :| least in ids - {some} && IsLeast(ids - {some}, least);
      assert ids == ids - {some} + {some};
      assert IsLeast(ids, if some < least then some else least);
    }
  }

  function Ascending(ids: set<ContextId>): seq<ContextId> {
    if ids == {} then []
    else
      LeastExists(ids);
      var least :| least in ids && IsLeast(ids, least);
      [least] + Ascending(ids - {least})
  }

  lemma {:induction false} AscendingListsAll(ids: set<ContextId>)
    ensures forall id :: id in Ascending(ids) <==> id in ids
    ensures forall i, j | 0 <= i < j < |Ascending(ids)| :: Ascending(ids)[i] < Ascending(ids)[j]
  {
    if ids != {} {
      var least := Ascending(ids)[0];
      var rest := Ascending(ids - {least});
      AscendingListsAll(ids - {least});
      assert Ascending(ids) == [least] + rest;
      forall i, j | 0 <= i < j < |Ascending(ids)|
        ensures Ascending(ids)[i] < Ascending(ids)[j]
      {
        assert rest[j - 1] in rest;
        if i > 0 {
          assert rest[i - 1] < rest[j - 1];
        }
      }
    }
  }

  function Stops(ids: seq<ContextId>): seq<Task> {
    seq(|ids|, i requires 0 <= i < |ids| => Stop(ids[i]))
  }

  function Starts(cs: seq<Context>): seq<Task> {
    seq(|cs|, i requires 0 <= i < |cs| => Start(cs[i].id))
  }

  /** All stops of a plan, by ascending id, then its starts in the order of admission. */
  function PlanTasks(plan: Plan): seq<Task> {
    Stops(Ascending(plan.toStop)) + Starts(plan.toStart)
  }

  // ----- The invariant -----

  /** Ids are unique over both queues, the pool is not over capacity, and everyone who waits
      conflicts with somebody who is running or ahead of it. */
  ghost predicate WellFormed(p: Pool) {
    && DistinctIds(p.running + p.waiting)
    && |p.running| + |p.waiting| <= MAX_CONTEXT_NUM
    && forall i | 0 <= i < |p.waiting| :: WaitsForSomeone(p, i)
  }

  ghost predicate WaitsForSomeone(p: Pool, i: nat)
    requires i < |p.waiting|
  {
    exists m | m in Predecessors(p, i) :: Conflicts(p.waiting[i], m)
  }

  lemma PromotionIsWellFormed(p: Pool, dialogs: set<Context>)
    requires DistinctIds(p.running + p.waiting) && |p.running| + |p.waiting| <= MAX_CONTEXT_NUM
    ensures WellFormed(Promoted(p, dialogs))
  {
    PromotionConserves(p, dialogs);
    PromotionKeepsIdsDistinct(p, dialogs);
    PromotionStalls(p, dialogs);
    var q := Promoted(p, dialogs);
    forall i | 0 <= i < |q.waiting|
      ensures WaitsForSomeone(q, i)
    {
      assert !Admits(q, dialogs, i);
    }
  }

  lemma HeldIffPooled(p: Pool, id: ContextId)
    ensures Holds(p.running, id) || Holds(p.waiting, id) <==> exists c | c in Pooled(p) :: c.id == id
  {
  }

  /** `Schedule` takes the newcomer in exactly when there is room and its id is not in use. It then
      adds that one context and nothing else; refused, it changes nothing. */
  lemma ScheduleAddsOne(p: Pool, c: Context, dialogs: set<Context>)
    requires WellFormed(p)
    ensures var r := Scheduled(p, c, dialogs);
            && WellFormed(r.pool)
            && (r.ok <==> |p.running| + |p.waiting| < MAX_CONTEXT_NUM && forall m | m in Pooled(p) :: m.id != c.id)
            && (r.ok ==> Pooled(r.pool) == Pooled(p) + {c} && c !in Pooled(p))
            && (r.ok ==> |r.pool.running| + |r.pool.waiting| == |p.running| + |p.waiting| + 1)
            && (!r.ok ==> r.pool == p && r.plan == NO_PLAN)
            && r.pool.cancelRequested == p.cancelRequested
  {
    HeldIffPooled(p, c.id);
    if Scheduled(p, c, dialogs).ok {
      var p1 := p.(waiting := p.waiting + [c]);
      assert p1.running + p1.waiting == p.running + p.waiting + [c];
      forall i | 0 <= i < |p.running + p.waiting|
        ensures (p.running + p.waiting)[i].id != c.id
      {
        assert (p.running + p.waiting)[i] in Pooled(p);
      }
      PromotionIsWellFormed(p1, dialogs);
      PromotionConserves(p1, dialogs);
      ElemsOfConcat(p.waiting, [c]);
    }
  }

  lemma {:induction false} RemoveIdRemoves(s: seq<Context>, id: ContextId)
    requires DistinctIds(s)
    ensures Elems(RemoveId(s, id)) == set c | c in s && c.id != id
    ensures DistinctIds(RemoveId(s, id))
    ensures |RemoveId(s, id)| == if Holds(s, id) then |s| - 1 else |s|
    ensures !Holds(s, id) ==> RemoveId(s, id) == s
  {
    if s != [] {
      var rest := s[1..];
      assert forall c :: c in s <==> c == s[0] || c in rest;
      if s[0].id == id {
        forall c | c in rest
          ensures c.id != id
        {
        }
      } else {
        RemoveIdRemoves(rest, id);
        ElemsOfConcat([s[0]], RemoveId(rest, id));
        forall c | c in RemoveId(rest, id)
          ensures c.id != s[0].id
        {
          assert c in Elems(RemoveId(rest, id));
        }
      }
    }
  }

  lemma RemovedKeepsIdsDistinct(p: Pool, id: ContextId)
    requires DistinctIds(p.running + p.waiting)
    ensures var q := Removed(p, id);
            && DistinctIds(q.running + q.waiting)
            && Pooled(q) == (set c | c in Pooled(p) && c.id != id)
            && |q.running| + |q.waiting| ==
               if Holds(p.running, id) || Holds(p.waiting, id)
               then |p.running| + |p.waiting| - 1 else |p.running| + |p.waiting|
  {
    DistinctParts(p.running, p.waiting);
    RemoveIdRemoves(p.running, id);
    RemoveIdRemoves(p.waiting, id);
    var q := Removed(p, id);
    forall c, d | c in q.running && d in q.waiting
      ensures c.id != d.id
    {
      assert c in Elems(q.running) && d in Elems(q.waiting);
    }
  }

  lemma DistinctParts(r: seq<Context>, w: seq<Context>)
    requires DistinctIds(r + w)
    ensures DistinctIds(r) && DistinctIds(w)
    ensures forall c, d | c in r && d in w :: c.id != d.id
  {
    forall i, j | 0 <= i < j < |r|
      ensures r[i].id != r[j].id
    {
      assert (r + w)[i] == r[i] && (r + w)[j] == r[j];
    }
    forall i, j | 0 <= i < j < |w|
      ensures w[i].id != w[j].id
    {
      assert (r + w)[|r| + i] == w[i] && (r + w)[|r| + j] == w[j];
    }
    forall i, j | 0 <= i < |r| && 0 <= j < |w|
      ensures r[i].id != w[j].id
    {
      assert (r + w)[i] == r[i] && (r + w)[|r| + j] == w[j];
    }
  }

  /** `Delete` succeeds exactly on the id of a pooled context, and then takes out that one alone. */
  lemma DeleteRemovesOne(p: Pool, id: ContextId, dialogs: set<Context>)
    requires WellFormed(p)
    ensures var r := Deleted(p, id, dialogs);
            && WellFormed(r.pool)
            && (r.ok <==> exists c | c in Pooled(p) :: c.id == id)
            && Pooled(r.pool) == (set c | c in Pooled(p) && c.id != id)
            && |r.pool.running| + |r.pool.waiting| == |p.running| + |p.waiting| - (if r.ok then 1 else 0)
            && (!r.ok ==> r.pool == p && r.plan == NO_PLAN)
            && r.pool.cancelRequested == p.cancelRequested
  {
    HeldIffPooled(p, id);
    if Deleted(p, id, dialogs).ok {
      RemovedKeepsIdsDistinct(p, id);
      PromotionIsWellFormed(Removed(p, id), dialogs);
      PromotionConserves(Removed(p, id), dialogs);
    }
  }

  // ----- Consequences of the invariant -----

  /** Only primary authentications of a valid user that may ask for its PIN ever wait. */
  lemma OnlyPinUsersWait(p: Pool, c: Context)
    requires WellFormed(p) && c in p.waiting
    ensures UsesPinOf(c, c.userId) && c.userId != INVALID_USER_ID
  {
    var i :| 0 <= i < |p.waiting| && p.waiting[i] == c;
    assert WaitsForSomeone(p, i);
  }

  lemma QueueImpliesRunner(p: Pool)
    requires WellFormed(p) && p.waiting != []
    ensures p.running != []
  {
    assert WaitsForSomeone(p, 0);
  }

  /** One call of `Delete`, with the sudo dialogs that show at that time. */
  datatype Deletion = Deletion(id: ContextId, dialogs: set<Context>)

  /** Each deletion names a context that is running at that time. */
  ghost predicate DeletesRunning(p: Pool, ds: seq<Deletion>)
    decreases |ds|
  {
    ds != [] ==>
      && Holds(p.running, ds[0].id)
      && DeletesRunning(Deleted(p, ds[0].id, ds[0].dialogs).pool, ds[1..])
  }

  ghost function AfterDeletions(p: Pool, ds: seq<Deletion>): Pool
    decreases |ds|
  {
    if ds == [] then p else AfterDeletions(Deleted(p, ds[0].id, ds[0].dialogs).pool, ds[1..])
  }

  /** With no newcomers, ending as many running contexts as the pool holds empties it. */
  lemma {:induction false} DeletionsDrain(p: Pool, ds: seq<Deletion>)
    requires WellFormed(p) && DeletesRunning(p, ds)
    ensures var q := AfterDeletions(p, ds);
            && WellFormed(q)
            && |q.running| + |q.waiting| == |p.running| + |p.waiting| - |ds|
            && (|ds| == |p.running| + |p.waiting| ==> q.running == q.waiting == [])
    decreases |ds|
  {
    if ds != [] {
      DeleteRemovesOne(p, ds[0].id, ds[0].dialogs);
      HeldIffPooled(p, ds[0].id);
      DeletionsDrain(Deleted(p, ds[0].id, ds[0].dialogs).pool, ds[1..]);
    }
  }

  /** And there is always a running context to end: a pool that is not empty never holds only
      waiters, whatever was deleted before. */
  lemma DrainNeverStuck(p: Pool, ds: seq<Deletion>)
    requires WellFormed(p) && DeletesRunning(p, ds) && |ds| < |p.running| + |p.waiting|
    ensures AfterDeletions(p, ds).running != []
  {
    DeletionsDrain(p, ds);
    if AfterDeletions(p, ds).waiting != [] {
      QueueImpliesRunner(AfterDeletions(p, ds));
    }
  }

  // ----- A sudo context that shows its dialog -----

  /** After a promotion that sees the dialog of `sudo`, any younger request still in the queue
      conflicts with somebody other than `sudo`. */
  lemma DialogDoesNotBlock(p: Pool, dialogs: set<Context>, sudo: Context, i: nat) returns (m: Context)
    requires sudo.kind == SudoAuth && sudo in dialogs
    requires i < |Promoted(p, dialogs).waiting|
    requires Promoted(p, dialogs).waiting[i].createTime > sudo.createTime
    ensures m != sudo && m in Predecessors(Promoted(p, dialogs), i)
    ensures Conflicts(Promoted(p, dialogs).waiting[i], m)
  {
    var q := Promoted(p, dialogs);
    PromotionStalls(p, dialogs);
    assert !Admits(q, dialogs, i);
    m :| m in Predecessors(q, i) && Conflicts(q.waiting[i], m) && !Collects(q.waiting[i], m, dialogs);
    if m == sudo {
      YieldsIff(q.waiting[i], sudo, true);
    }
  }
}
