/** The state of the context pool as a value, and the closed form of one promotion. */
module Promotion {
  import opened Contexts
  import opened Selection

  const MAX_CONTEXT_NUM := 100

  /** Running contexts in the order of their admission, waiting ones in queue order, and the ids
      whose cancellation has been requested but not yet carried out. */
  datatype Pool = Pool(running: seq<Context>, waiting: seq<Context>, cancelRequested: set<ContextId>)

  datatype Plan = Plan(toStop: set<ContextId>, toStart: seq<Context>)

  function Pooled(p: Pool): set<Context> {
    Elems(p.running) + Elems(p.waiting)
  }

  predicate DistinctIds(s: seq<Context>) {
    forall i, j | 0 <= i < j < |s| :: s[i].id != s[j].id
  }

  // ----- One promotion -----

  /** Everyone admitted before the promotion, and everyone ahead in the queue. */
  function Predecessors(p: Pool, i: nat): set<Context>
    requires i <= |p.waiting|
  {
    Elems(p.running) + Elems(p.waiting[..i])
  }

  /** Waiter `i` has no conflicting predecessor except those it may stop. */
  predicate Admits(p: Pool, dialogs: set<Context>, i: nat)
    requires i < |p.waiting|
  {
    forall m | m in Predecessors(p, i) && Conflicts(p.waiting[i], m) :: Collects(p.waiting[i], m, dialogs)
  }

  function Victims(p: Pool, dialogs: set<Context>, i: nat): set<Context>
    requires i < |p.waiting|
  {
    set m | m in Predecessors(p, i) && Collects(p.waiting[i], m, dialogs)
  }

  function Verdicts(p: Pool, dialogs: set<Context>): seq<bool> {
    seq(|p.waiting|, i requires 0 <= i < |p.waiting| => Admits(p, dialogs, i))
  }

  function Admitted(p: Pool, dialogs: set<Context>): seq<Context> {
    Select(p.waiting, Verdicts(p, dialogs), |p.waiting|, true)
  }

  function Blocked(p: Pool, dialogs: set<Context>): seq<Context> {
    Select(p.waiting, Verdicts(p, dialogs), |p.waiting|, false)
  }

  /** Everyone that one of the first `n` waiters puts in the stop plan. */
  function CollectedBy(p: Pool, dialogs: set<Context>, n: nat): set<Context>
    requires n <= |p.waiting|
  {
    set i, m | 0 <= i < n && m in Victims(p, dialogs, i) :: m
  }

  function Collected(p: Pool, dialogs: set<Context>): set<Context> {
    CollectedBy(p, dialogs, |p.waiting|)
  }

  function Promoted(p: Pool, dialogs: set<Context>): Pool {
    p.(running := p.running + Admitted(p, dialogs), waiting := Blocked(p, dialogs))
  }

  function PromotionPlan(p: Pool, dialogs: set<Context>): Plan {
    Plan(set m | m in Collected(p, dialogs) :: m.id, Admitted(p, dialogs))
  }

  // ----- What a promotion does to the two queues -----

  /** A promotion only moves contexts between the two queues. */
  lemma PromotionConserves(p: Pool, dialogs: set<Context>)
    ensures var q := Promoted(p, dialogs);
            && |q.running| + |q.waiting| == |p.running| + |p.waiting|
            && Pooled(q) == Pooled(p)
            && p.running <= q.running
  {
    SplitCounts(p.waiting, Verdicts(p, dialogs), |p.waiting|);
    assert p.waiting[..|p.waiting|] == p.waiting;
    ElemsOfConcat(p.running, Admitted(p, dialogs));
  }

  lemma PromotionKeepsIdsDistinct(p: Pool, dialogs: set<Context>)
    requires DistinctIds(p.running + p.waiting)
    ensures DistinctIds(Promoted(p, dialogs).running + Promoted(p, dialogs).waiting)
  {
    var q := Promoted(p, dialogs);
    forall x, y | 0 <= x < y < |q.running + q.waiting|
      ensures (q.running + q.waiting)[x].id != (q.running + q.waiting)[y].id
    {
      PromotionConserves(p, dialogs);
      var i, j := OldPlaces(p.running, p.waiting, Verdicts(p, dialogs), x, y);
    }
  }

  /** Waiter `i` runs after the promotion exactly when no conflicting predecessor is out of its
      reach; otherwise it still waits. */
  lemma AdmittedIff(p: Pool, dialogs: set<Context>, i: nat)
    requires DistinctIds(p.running + p.waiting) && i < |p.waiting|
    ensures p.waiting[i] in Promoted(p, dialogs).running <==>
            forall m | m in Predecessors(p, i) && Conflicts(p.waiting[i], m) :: Collects(p.waiting[i], m, dialogs)
    ensures p.waiting[i] in Promoted(p, dialogs).waiting <==> p.waiting[i] !in Promoted(p, dialogs).running
  {
    hide Conflicts, Collects, Predecessors, Select;
    var q, w := Promoted(p, dialogs), p.waiting[i];
    assert Verdicts(p, dialogs)[i] == Admits(p, dialogs, i);
    SelectedHas(p.waiting, Verdicts(p, dialogs), |p.waiting|, i);
    PromotionConserves(p, dialogs);
    forall x | 0 <= x < |q.running| + |q.waiting| && (q.running + q.waiting)[x] == w
      ensures x < |q.running| <==> Admits(p, dialogs, i)
    {
      var k := OldPlace(p.running, p.waiting, Verdicts(p, dialogs), x);
      assert (p.running + p.waiting)[|p.running| + i] == w;
      assert k == |p.running| + i;
    }
    if w in q.running {
      var x :| 0 <= x < |q.running| && q.running[x] == w;
      assert (q.running + q.waiting)[x] == w;
    }
    if w in q.waiting {
      var x :| 0 <= x < |q.waiting| && q.waiting[x] == w;
      assert (q.running + q.waiting)[|q.running| + x] == w;
    }
  }

  /** The queue that remains is an order-preserving subsequence of the old one. */
  lemma BlockedInOrder(p: Pool, dialogs: set<Context>, x: nat, y: nat) returns (i: nat, j: nat)
    requires x < y < |Promoted(p, dialogs).waiting|
    ensures i < j < |p.waiting|
    ensures Promoted(p, dialogs).waiting[x] == p.waiting[i] && Promoted(p, dialogs).waiting[y] == p.waiting[j]
  {
    i, j := SelectedInOrder(p.waiting, Verdicts(p, dialogs), |p.waiting|, false, x, y);
  }

  /** Those admitted are lined up behind the running ones in the order in which they waited. */
  lemma AdmittedInOrder(p: Pool, dialogs: set<Context>, x: nat, y: nat) returns (i: nat, j: nat)
    requires |p.running| <= x < y < |Promoted(p, dialogs).running|
    ensures i < j < |p.waiting|
    ensures Promoted(p, dialogs).running[x] == p.waiting[i] && Promoted(p, dialogs).running[y] == p.waiting[j]
  {
    hide Admits, Select;
    var r := |p.running|;
    i, j := SelectedInOrder(p.waiting, Verdicts(p, dialogs), |p.waiting|, true, x - r, y - r);
  }

  /** Nobody overtakes a conflicting waiter that stays behind, unless that one is told to stop. */
  lemma NoOvertaking(p: Pool, dialogs: set<Context>, i: nat, j: nat)
    requires DistinctIds(p.running + p.waiting) && i < j < |p.waiting|
    requires Conflicts(p.waiting[j], p.waiting[i])
    requires p.waiting[i] in Promoted(p, dialogs).waiting && p.waiting[j] in Promoted(p, dialogs).running
    ensures p.waiting[i].id in PromotionPlan(p, dialogs).toStop
  {
    AdmittedIff(p, dialogs, j);
    assert p.waiting[..j][i] == p.waiting[i];
    assert p.waiting[i] in Victims(p, dialogs, j);
    assert p.waiting[i] in Collected(p, dialogs);
  }

  // ----- Nobody is left waiting for nothing -----

  /** Under the given preempt answers no waiter could be admitted now. */
  predicate Stalled(p: Pool, dialogs: set<Context>) {
    forall i | 0 <= i < |p.waiting| :: !Admits(p, dialogs, i)
  }

  lemma PromotionStalls(p: Pool, dialogs: set<Context>)
    ensures Stalled(Promoted(p, dialogs), dialogs)
  {
    var q, v := Promoted(p, dialogs), Verdicts(p, dialogs);
    forall x | 0 <= x < |q.waiting|
      ensures !Admits(q, dialogs, x)
    {
      var i := SelectedFrom(p.waiting, v, |p.waiting|, false, x);
      assert !Admits(p, dialogs, i);
      ElemsOfConcat(p.running, Admitted(p, dialogs));
      assert Predecessors(p, i) <= Predecessors(q, x);
    }
  }

  /** Promoting again with the same preempt answers moves nobody. */
  lemma PromotionIsIdempotent(p: Pool, dialogs: set<Context>)
    ensures Promoted(Promoted(p, dialogs), dialogs) == Promoted(p, dialogs)
  {
    var q := Promoted(p, dialogs);
    PromotionStalls(p, dialogs);
    SelectNone(q.waiting, Verdicts(q, dialogs), |q.waiting|, true);
    assert q.running + [] == q.running;
    assert q.waiting[..|q.waiting|] == q.waiting;
  }
}
