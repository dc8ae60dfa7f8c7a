/**
 * The other half of `PoolOrder`: whenever a threat is not covered, some first-in-first-out continuation
 * starts a context too early. Together the two give the exact condition.
 */
module PoolOvertaking {
  import opened Contexts
  import opened Selection
  import opened Promotion
  import opened PoolOperations
  import PoolCancellation
  import opened PoolRuns
  import opened PoolStarts
  import opened PoolOrder

  // ----- A running context -----

  lemma StepFirst(s: System, step: Step, w: Context)
    requires Enabled(s, step) && (step.Begin? ==> step.place == 0) && MayOvertake(Next(s, step), w)
    ensures MayOvertake(s, w)
  {
    hide StoppedBefore;
    var rest :| Possible(Next(s, step), rest) && FifoRun(rest) && Run(Next(s, step), rest).executor == Starting(w)
                && !StoppedBefore(Run(Next(s, step), rest), w);
    hide Next, Enabled;
    var steps := [step] + rest;
    assert steps[1..] == rest;
    assert Possible(s, steps) && Run(s, steps) == Run(Next(s, step), rest);
  }

  /** `a` is in the way of `w` and nobody is about to stop it. */
  ghost predicate Exposed(s: System, a: Context, w: Context) {
    && Sound(s) && InWay(s.pool.running, a, w) && a !in s.stopped && w.id !in s.pool.cancelRequested
    && s.executor != Stopping(a.id) && s.executor != Halting(a)
  }

  lemma StartingOvertakes(s: System, a: Context, w: Context)
    requires Exposed(s, a, w) && s.executor == Starting(w)
    ensures MayOvertake(s, w)
  {
    assert Possible(s, []) && Run(s, []) == s;
    assert !StoppedBefore(s, w);
  }

  lemma ExecutorKeepsExposed(s: System, a: Context, w: Context)
    requires Exposed(s, a, w) && s.executor != Idle && s.executor != Starting(w)
    ensures Enabled(s, Onward(s.executor))
    ensures var s' := Next(s, Onward(s.executor));
            && Exposed(s', a, w) && s'.queue == s.queue && s'.posting == s.posting
            && Rank(s'.executor) < Rank(s.executor)
  {
    StepIsSound(s, Onward(s.executor));
  }

  lemma BeginKeepsExposed(s: System, a: Context, w: Context)
    requires Exposed(s, a, w) && s.executor == Idle && s.queue != [] && s.queue[0] != Stop(a.id)
    ensures Enabled(s, Begin(0))
    ensures Exposed(Next(s, Begin(0)), a, w) && Next(s, Begin(0)).queue == s.queue[1..]
    ensures s.queue[0] == Start(w.id) ==> Next(s, Begin(0)).executor == Starting(w)
  {
    StepIsSound(s, Begin(0));
    assert w in s.pool.running;
    if s.queue[0] == Start(w.id) {
      SameRunner(s.pool, w, FindIn(s.pool.running, w.id));
    }
  }

  lemma {:induction false} OvertakesFromQueue(s: System, a: Context, w: Context, k: nat)
    requires Exposed(s, a, w)
    requires s.executor == Starting(w) || (k < |s.queue| && s.queue[k] == Start(w.id) && Stop(a.id) !in s.queue[..k])
    ensures MayOvertake(s, w)
    decreases k, Rank(s.executor)
  {
    hide Next, Enabled, Exposed, MayOvertake;
    if s.executor == Starting(w) {
      StartingOvertakes(s, a, w);
    } else if s.executor != Idle {
      ExecutorKeepsExposed(s, a, w);
      OvertakesFromQueue(Next(s, Onward(s.executor)), a, w, k);
      StepFirst(s, Onward(s.executor), w);
    } else {
      assert k > 0 ==> s.queue[0] in s.queue[..k];
      BeginKeepsExposed(s, a, w);
      var s' := Next(s, Begin(0));
      if s'.executor == Starting(w) {
        StartingOvertakes(s', a, w);
      } else {
        assert s'.queue[..k - 1] == s.queue[1..k];
        assert forall t | t in s.queue[1..k] :: t in s.queue[..k];
        OvertakesFromQueue(s', a, w, k - 1);
      }
      StepFirst(s, Begin(0), w);
    }
  }

  lemma PostKeepsExposed(s: System, l: nat, a: Context, w: Context)
    requires Exposed(s, a, w) && Enabled(s, Post(l))
    ensures var s' := Next(s, Post(l));
            && Exposed(s', a, w) && s'.executor == s.executor
            && s'.queue == s.queue + [s.posting[l][0]]
            && s'.posting == s.posting[l := s.posting[l][1..]]
  {
    StepIsSound(s, Post(l));
  }

  lemma {:induction false} OvertakesFromPosting(s: System, a: Context, w: Context, l: nat, k: nat)
    requires Exposed(s, a, w) && Stop(a.id) !in s.queue
    requires l < |s.posting| && k < |s.posting[l]|
    requires s.posting[l][k] == Start(w.id) && Stop(a.id) !in s.posting[l][..k]
    ensures MayOvertake(s, w)
    decreases k
  {
    hide Next, Exposed, MayOvertake;
    var s' := Next(s, Post(l));
    PostKeepsExposed(s, l, a, w);
    if k == 0 {
      assert s'.queue[..|s.queue|] == s.queue;
      OvertakesFromQueue(s', a, w, |s.queue|);
    } else {
      assert s.posting[l][0] in s.posting[l][..k];
      assert s'.posting[l][..k - 1] == s.posting[l][1..k];
      assert forall t | t in s.posting[l][1..k] :: t in s.posting[l][..k];
      OvertakesFromPosting(s', a, w, l, k - 1);
    }
    StepFirst(s, Post(l), w);
  }

  lemma UncoveredIsOvertaken(s: System, a: Context, w: Context)
    requires Sound(s) && w.id !in s.pool.cancelRequested
    requires InWay(s.pool.running, a, w) && !Covered(s, a, w)
    ensures MayOvertake(s, w)
  {
    assert Exposed(s, a, w);
    if s.executor == Starting(w) {
      StartingOvertakes(s, a, w);
    } else if !StopFirst(s.queue, a.id, w.id) {
      var k :| 0 <= k < |s.queue| && s.queue[k] == Start(w.id) && Stop(a.id) !in s.queue[..k];
      OvertakesFromQueue(s, a, w, k);
    } else {
      var l :| 0 <= l < |s.posting| && Stop(a.id) !in s.queue && !StopFirst(s.posting[l], a.id, w.id);
      var k :| 0 <= k < |s.posting[l]| && s.posting[l][k] == Start(w.id) && Stop(a.id) !in s.posting[l][..k];
      OvertakesFromPosting(s, a, w, l, k);
    }
  }

  // ----- A waiting context -----

  lemma CollectsMore(newer: Context, older: Context, dialogs: set<Context>)
    requires Collects(newer, older, {})
    ensures Collects(newer, older, dialogs)
  {
  }

  /** Nobody waits whom the pool could admit with no dialog showing. */
  ghost predicate NobodyLeft(s: System) {
    Stalled(s.pool, {})
  }

  lemma PromotedNobodyLeft(p: Pool, dialogs: set<Context>)
    ensures Stalled(Promoted(p, dialogs), {})
  {
    hide Collects, Conflicts;
    var q := Promoted(p, dialogs);
    PromotionStalls(p, dialogs);
    forall i | 0 <= i < |q.waiting|
      ensures !Admits(q, {}, i)
    {
      assert !Admits(q, dialogs, i);
      forall m | m in Predecessors(q, i) && Collects(q.waiting[i], m, {})
        ensures Collects(q.waiting[i], m, dialogs)
      {
        CollectsMore(q.waiting[i], m, dialogs);
      }
    }
  }

  lemma StepLeavesNobody(s: System, step: Step)
    requires NobodyLeft(s) && Enabled(s, step)
    ensures NobodyLeft(Next(s, step))
  {
    var s' := Next(s, step);
    if s'.pool.running == s.pool.running && s'.pool.waiting == s.pool.waiting {
      SameStalled(s.pool, s'.pool);
    } else {
      match step
      case Schedule(c) => PromotedNobodyLeft(s.pool.(waiting := s.pool.waiting + [c]), s.dialogs);
      case Delete(id) => PromotedNobodyLeft(Removed(s.pool, id), s.dialogs);
      case Notify => PromotedNobodyLeft(s.pool, s.dialogs);
    }
  }

  lemma SameStalled(p: Pool, q: Pool)
    requires Stalled(p, {}) && q.running == p.running && q.waiting == p.waiting
    ensures Stalled(q, {})
  {
    forall i | 0 <= i < |q.waiting|
      ensures !Admits(q, {}, i)
    {
      assert !Admits(p, {}, i) && Predecessors(p, i) == Predecessors(q, i);
    }
  }

  lemma {:induction false} RunLeavesNobody(s: System, steps: seq<Step>)
    requires NobodyLeft(s) && Possible(s, steps)
    ensures NobodyLeft(Run(s, steps))
    decreases |steps|
  {
    if steps != [] {
      StepLeavesNobody(s, steps[0]);
      RunLeavesNobody(Next(s, steps[0]), steps[1..]);
    }
  }

  /** Every waiter of a reachable state has a predecessor that blocks it when no dialog shows. */
  lemma BlockerOf(s: System, w: Context) returns (m: Context)
    requires Reachable(s) && w in s.pool.waiting
    ensures Ahead(s.pool, m, w) && Conflicts(w, m) && !Collects(w, m, {})
  {
    hide Collects, Conflicts;
    var dialogs, steps :| Possible(Init(dialogs), steps) && Run(Init(dialogs), steps) == s;
    RunLeavesNobody(Init(dialogs), steps);
    var i :| 0 <= i < |s.pool.waiting| && s.pool.waiting[i] == w;
    assert !Admits(s.pool, {}, i);
    m :| m in Predecessors(s.pool, i) && Conflicts(w, m) && !Collects(w, m, {});
  }

  /** Of two waiters both admitted, the one ahead is admitted first. */
  lemma {:induction false} SelectKeepsOrder<T>(s: seq<T>, verdict: seq<bool>, n: nat, side: bool, i: nat, j: nat)
    returns (x: nat, y: nat)
    requires i < j < n <= |s| == |verdict| && verdict[i] == verdict[j] == side
    ensures x < y < |Select(s, verdict, n, side)|
    ensures Select(s, verdict, n, side)[x] == s[i] && Select(s, verdict, n, side)[y] == s[j]
  {
    if j < n - 1 {
      x, y := SelectKeepsOrder(s, verdict, n - 1, side, i, j);
    } else {
      SelectedHas(s, verdict, n - 1, i);
      var front := Select(s, verdict, n - 1, side);
      x :| 0 <= x < |front| && front[x] == s[i];
      y := |front|;
    }
  }

  lemma AheadComesFirst(p: Pool, dialogs: set<Context>, a: Context, i: nat)
    requires i < |p.waiting| && a in Predecessors(p, i) && Conflicts(a, p.waiting[i])
    requires Admits(p, dialogs, i)
    requires a in p.running || forall k | 0 <= k < i && p.waiting[k] == a :: Admits(p, dialogs, k)
    ensures InWay(Promoted(p, dialogs).running, a, p.waiting[i])
  {
    hide Conflicts, Admits;
    var v, run, w := Verdicts(p, dialogs), Promoted(p, dialogs).running, p.waiting[i];
    if a in p.running {
      var x :| 0 <= x < |p.running| && p.running[x] == a;
      SelectedHas(p.waiting, v, |p.waiting|, i);
      var y :| 0 <= y < |Admitted(p, dialogs)| && Admitted(p, dialogs)[y] == w;
      assert run[x] == a && run[|p.running| + y] == w;
    } else {
      var k :| 0 <= k < i && p.waiting[k] == a;
      var x, y := SelectKeepsOrder(p.waiting, v, |p.waiting|, true, k, i);
      assert run[|p.running| + x] == a && run[|p.running| + y] == w;
    }
  }

  /** With only `a` left besides it, the waiter behind it is admitted, and `a` is in its way. */
  lemma LastOneIsInWay(p: Pool, dialogs: set<Context>, a: Context, w: Context)
    requires DistinctIds(p.running + p.waiting) && Ahead(p, a, w) && Pooled(p) <= {a, w}
    requires Conflicts(a, w) && Collects(w, a, dialogs)
    ensures InWay(Promoted(p, dialogs).running, a, w)
  {
    hide Conflicts, Collects;
    var i :| 0 <= i < |p.waiting| && p.waiting[i] == w && a in Predecessors(p, i);
    NotAheadOfItself(p, i, i);
    if a !in p.running {
      forall k | 0 <= k < i && p.waiting[k] == a
        ensures Admits(p, dialogs, k)
      {
        NotAheadOfItself(p, k, k);
        NotAheadOfItself(p, k, i);
      }
    }
    AheadComesFirst(p, dialogs, a, i);
  }

  /** Nobody is ahead of itself. */
  lemma NotAheadOfItself(p: Pool, k: nat, i: nat)
    requires DistinctIds(p.running + p.waiting) && k <= i < |p.waiting|
    ensures p.waiting[i] !in Predecessors(p, k) && Predecessors(p, k) <= Pooled(p)
  {
    DistinctParts(p.running, p.waiting);
    forall l | 0 <= l < k
      ensures p.waiting[l] != p.waiting[i]
    {
    }
    assert forall c | c in p.running :: c.id != p.waiting[i].id;
  }

  // ----- Making room for the waiter -----

  /** The waiter `w` has the uncovered threat `a` ahead of it, and `m`, which blocks it while no dialog
      shows. Unless it blocks `w` itself, `a` is one that `w` may stop anyway. */
  ghost predicate Kept(s: System, a: Context, m: Context, w: Context) {
    && Sound(s) && s.dialogs == {} && w.id !in s.pool.cancelRequested && !Covered(s, a, w)
    && w in s.pool.waiting && Ahead(s.pool, a, w) && Ahead(s.pool, m, w)
    && Conflicts(a, w) && a.kind == SudoAuth && a.createTime < w.createTime
    && Conflicts(w, m) && !Collects(w, m, {})
    && (m != a ==> Collects(w, a, {}))
  }

  lemma UncoveredStays(s: System, s': System, a: Context, w: Context)
    requires !Covered(s, a, w)
    requires s'.stopped == s.stopped && s'.executor == s.executor && s'.queue == s.queue && s.posting <= s'.posting
    ensures !Covered(s', a, w)
  {
    if s.executor != Starting(w) && StopFirst(s.queue, a.id, w.id) {
      var l :| 0 <= l < |s.posting| && !(Stop(a.id) in s.queue || StopFirst(s.posting[l], a.id, w.id));
      assert s'.posting[l] == s.posting[l];
    }
  }

  lemma RemovedKeepsAhead(p: Pool, id: ContextId, a: Context, w: Context)
    requires DistinctIds(p.running + p.waiting) && Ahead(p, a, w) && a.id != id && w.id != id
    ensures Ahead(Removed(p, id), a, w)
  {
    var i :| 0 <= i < |p.waiting| && p.waiting[i] == w && a in Predecessors(p, i);
    if a in p.running {
      StaysInPlace(p, id, a);
      StaysInPlace(p, id, w);
      var q := Removed(p, id);
      var y :| 0 <= y < |q.waiting| && q.waiting[y] == w;
      assert a in Predecessors(q, y);
    } else {
      var k :| 0 <= k < i && p.waiting[k] == a;
      var x, y := RemoveIdKeepsOrder(p.waiting, id, k, i);
      assert Removed(p, id).waiting[..y][x] == a;
      assert a in Predecessors(Removed(p, id), y);
    }
  }

  lemma {:induction false} RemoveIdKeepsOrder(cs: seq<Context>, id: ContextId, i: nat, j: nat) returns (x: nat, y: nat)
    requires i < j < |cs| && cs[i].id != id && cs[j].id != id
    ensures x < y < |RemoveId(cs, id)| && RemoveId(cs, id)[x] == cs[i] && RemoveId(cs, id)[y] == cs[j]
  {
    if cs[0].id == id {
      x, y := i - 1, j - 1;
    } else if i > 0 {
      x, y := RemoveIdKeepsOrder(cs[1..], id, i - 1, j - 1);
      x, y := x + 1, y + 1;
    } else {
      y := RemoveIdKeeps(cs[1..], id, j - 1);
      x, y := 0, y + 1;
    }
  }

  lemma {:induction false} RemoveIdKeeps(cs: seq<Context>, id: ContextId, j: nat) returns (y: nat)
    requires j < |cs| && cs[j].id != id
    ensures y < |RemoveId(cs, id)| && RemoveId(cs, id)[y] == cs[j]
  {
    if cs[0].id == id {
      y := j - 1;
    } else if j == 0 {
      y := 0;
    } else {
      y := RemoveIdKeeps(cs[1..], id, j - 1);
      y := y + 1;
    }
  }

  /** Who is blocked still waits after a promotion, behind those it waited behind. */
  lemma BlockedKeepsAhead(p: Pool, dialogs: set<Context>, m: Context, w: Context)
    requires DistinctIds(p.running + p.waiting) && Ahead(p, m, w) && Conflicts(w, m) && !Collects(w, m, dialogs)
    ensures w in Promoted(p, dialogs).waiting
    ensures forall a | Ahead(p, a, w) :: Ahead(Promoted(p, dialogs), a, w)
  {
    hide Conflicts, Collects;
    var i :| 0 <= i < |p.waiting| && p.waiting[i] == w && m in Predecessors(p, i);
    AdmittedIff(p, dialogs, i);
    forall a | Ahead(p, a, w)
      ensures Ahead(Promoted(p, dialogs), a, w)
    {
      WaiterKeepsAhead(p, dialogs, a, w);
    }
  }

  lemma WaiterKeepsAhead(p: Pool, dialogs: set<Context>, a: Context, w: Context)
    requires DistinctIds(p.running + p.waiting) && Ahead(p, a, w) && w in Promoted(p, dialogs).waiting
    ensures Ahead(Promoted(p, dialogs), a, w)
  {
    hide Admits;
    var q, v := Promoted(p, dialogs), Verdicts(p, dialogs);
    var x :| 0 <= x < |q.waiting| && q.waiting[x] == w;
    var k := SelectedFrom(p.waiting, v, |p.waiting|, false, x);
    var i :| 0 <= i < |p.waiting| && p.waiting[i] == w && a in Predecessors(p, i);
    DistinctParts(p.running, p.waiting);
    assert i == k;
    ElemsOfConcat(p.running, Admitted(p, dialogs));
    assert a in Predecessors(q, x);
  }

  lemma DeleteKeepsKept(s: System, a: Context, m: Context, w: Context, c: Context)
    requires Kept(s, a, m, w) && c in Pooled(s.pool) && c !in {a, m, w}
    ensures var s' := Next(s, Delete(c.id));
            && Kept(s', a, m, w)
            && |s'.pool.running| + |s'.pool.waiting| < |s.pool.running| + |s.pool.waiting|
  {
    hide Conflicts, Collects, Ahead, Covered;
    var p := Removed(s.pool, c.id);
    AheadArePooled(s.pool, a, w);
    AheadArePooled(s.pool, m, w);
    OthersIds(s.pool, c, a);
    OthersIds(s.pool, c, m);
    OthersIds(s.pool, c, w);
    HeldIffPooled(s.pool, c.id);
    DeleteRemovesOne(s.pool, c.id, s.dialogs);
    StepIsSound(s, Delete(c.id));
    RemovedKeepsIdsDistinct(s.pool, c.id);
    RemovedKeepsAhead(s.pool, c.id, a, w);
    RemovedKeepsAhead(s.pool, c.id, m, w);
    BlockedKeepsAhead(p, s.dialogs, m, w);
    UncoveredStays(s, Next(s, Delete(c.id)), a, w);
  }

  lemma AheadArePooled(p: Pool, a: Context, w: Context)
    requires Ahead(p, a, w)
    ensures a in Pooled(p) && w in Pooled(p)
  {
  }

  lemma OthersIds(p: Pool, c: Context, d: Context)
    requires WellFormed(p) && c in Pooled(p) && d in Pooled(p) && c != d
    ensures c.id != d.id
  {
    if c.id == d.id {
      PoolCancellation.SoleHolder(p, c, d);
    }
  }

  lemma {:induction false} KeptIsOvertaken(s: System, a: Context, m: Context, w: Context)
    requires Kept(s, a, m, w)
    ensures MayOvertake(s, w)
    decreases |s.pool.running| + |s.pool.waiting|
  {
    hide Kept, MayOvertake, Next;
    if c :| c in Pooled(s.pool) && c !in {a, m, w} {
      DeleteKeepsKept(s, a, m, w, c);
      KeptIsOvertaken(Next(s, Delete(c.id)), a, m, w);
      StepFirst(s, Delete(c.id), w);
    } else if m == a {
      ShowingOvertakes(s, a, w);
    } else {
      UnblockingOvertakes(s, a, m, w);
    }
  }

  /** Only `a` holds `w` back: its dialog shows, and the pool is told. */
  lemma ShowingOvertakes(s: System, a: Context, w: Context)
    requires Kept(s, a, a, w) && Pooled(s.pool) <= {a, w}
    ensures MayOvertake(s, w)
  {
    hide Conflicts, Collects, Covered, MayOvertake, Ahead;
    var s1 := Next(s, Dialogs({a}));
    var s2 := Next(s1, Notify);
    StepIsSound(s, Dialogs({a}));
    StepIsSound(s1, Notify);
    DialogCollects(a, w);
    LastOneIsInWay(s.pool, {a}, a, w);
    UncoveredStays(s, s2, a, w);
    UncoveredIsOvertaken(s2, a, w);
    StepFirst(s1, Notify, w);
    StepFirst(s, Dialogs({a}), w);
  }

  lemma DialogCollects(a: Context, w: Context)
    requires Conflicts(a, w) && a.kind == SudoAuth && a.createTime < w.createTime
    ensures Collects(w, a, {a})
  {
    YieldsIff(w, a, true);
    ConflictIsSymmetric(a, w);
  }

  /** `w` may stop `a` anyway: once `m` is gone both are admitted, `a` first. */
  lemma UnblockingOvertakes(s: System, a: Context, m: Context, w: Context)
    requires Kept(s, a, m, w) && m != a && Pooled(s.pool) <= {a, m, w}
    ensures MayOvertake(s, w)
  {
    hide Conflicts, Collects, Covered, MayOvertake, Ahead;
    var s', p := Next(s, Delete(m.id)), Removed(s.pool, m.id);
    AheadArePooled(s.pool, m, w);
    BlockerIsAnother(s, a, m, w);
    HeldIffPooled(s.pool, m.id);
    RemovedKeepsIdsDistinct(s.pool, m.id);
    RemovedKeepsAhead(s.pool, m.id, a, w);
    LastOneIsInWay(p, {}, a, w);
    StepIsSound(s, Delete(m.id));
    UncoveredStays(s, s', a, w);
    UncoveredIsOvertaken(s', a, w);
    StepFirst(s, Delete(m.id), w);
  }

  lemma BlockerIsAnother(s: System, a: Context, m: Context, w: Context)
    requires Kept(s, a, m, w) && m != a
    ensures m.id != a.id && m.id != w.id
  {
    hide Conflicts, Collects, Covered;
    AheadArePooled(s.pool, a, w);
    AheadArePooled(s.pool, m, w);
    OthersIds(s.pool, m, a);
    var i :| 0 <= i < |s.pool.waiting| && s.pool.waiting[i] == w && m in Predecessors(s.pool, i);
    NotAheadOfItself(s.pool, i, i);
    OthersIds(s.pool, m, w);
  }

  lemma WaiterIsOvertaken(s: System, a: Context, w: Context)
    requires Reachable(s) && w in s.pool.waiting && w.id !in s.pool.cancelRequested
    requires Ahead(s.pool, a, w) && Conflicts(a, w) && a.kind == SudoAuth && a.createTime < w.createTime
    requires !Covered(s, a, w)
    ensures MayOvertake(s, w)
  {
    hide Conflicts, Collects, Covered, MayOvertake, Ahead, Reachable;
    ReachableIsSound(s);
    var s' := Next(s, Dialogs({}));
    StepIsSound(s, Dialogs({}));
    ConflictIsSymmetric(a, w);
    var m := a;
    if Collects(w, a, {}) {
      m := BlockerOf(s, w);
    }
    UncoveredStays(s, s', a, w);
    assert Kept(s', a, m, w);
    KeptIsOvertaken(s', a, m, w);
    StepFirst(s, Dialogs({}), w);
  }

  // ----- The exact condition -----

  /** A pooled context that nobody asks to cancel, whether it runs or waits, can be started too early on a
      first-in-first-out executor if and only if some threat to it is not covered: that one is not
      stopped, and some list of tasks brings a start for its id in front of every stop for that one. */
  lemma OvertakesIff(s: System, w: Context)
    requires Reachable(s) && w in Pooled(s.pool) && w.id !in s.pool.cancelRequested
    ensures MayOvertake(s, w) <==> exists a | Threat(s.pool, a, w) :: !Covered(s, a, w)
  {
    ReachableIsSound(s);
    if a :| Threat(s.pool, a, w) && !Covered(s, a, w) {
      if InWay(s.pool.running, a, w) {
        UncoveredIsOvertaken(s, a, w);
      } else {
        WaiterIsOvertaken(s, a, w);
      }
    } else {
      StartingRuns(s);
      assert Orderly(s, w);
      OrderlyIsNotOvertaken(s, w);
    }
  }

  /** The same asked of the tasks on their way before a newcomer is taken in. */
  lemma NewcomerOvertakesIff(s: System, w: Context)
    requires Reachable(s) && Enabled(s, Schedule(w)) && Scheduled(s.pool, w, s.dialogs).ok
    requires w.id !in s.pool.cancelRequested
    ensures var s' := Next(s, Schedule(w));
            MayOvertake(s', w) <==> exists a | Threat(s'.pool, a, w) :: !Covered(s, a, w)
  {
    hide Threat, Covered, Scheduled, MayOvertake;
    var s' := Next(s, Schedule(w));
    NextIsReachable(s, Schedule(w));
    ReachableNewcomer(s, w);
    ReachableIsTidy(s);
    OvertakesIff(s', w);
    forall a | Threat(s'.pool, a, w)
      ensures Covered(s', a, w) <==> Covered(s, a, w)
    {
      NewcomerCovers(s, a, w);
    }
  }

  /** Nobody who waits is about to be started. */
  lemma StartingRuns(s: System)
    requires Reachable(s)
    ensures s.executor.Starting? ==> s.executor.context !in s.pool.waiting
  {
    var dialogs, steps :| Possible(Init(dialogs), steps) && Run(Init(dialogs), steps) == s;
    RunStartsRunners(Init(dialogs), steps);
  }

  ghost predicate StartsRunner(s: System) {
    s.executor.Starting? ==> s.executor.context in s.known && s.executor.context !in s.pool.waiting
  }

  lemma {:induction false} RunStartsRunners(s: System, steps: seq<Step>)
    requires Sound(s) && StartsRunner(s) && Possible(s, steps)
    ensures StartsRunner(Run(s, steps))
    decreases |steps|
  {
    if steps != [] {
      StepIsSound(s, steps[0]);
      StepStartsRunner(s, steps[0]);
      RunStartsRunners(Next(s, steps[0]), steps[1..]);
    }
  }

  lemma StepStartsRunner(s: System, step: Step)
    requires Sound(s) && StartsRunner(s) && Enabled(s, step)
    ensures StartsRunner(Next(s, step))
  {
    match step
    case Schedule(c) =>
      if Scheduled(s.pool, c, s.dialogs).ok {
        NewcomerIsDistinct(s.pool, c);
        AdmittedAreDistinct(s.pool.(waiting := s.pool.waiting + [c]), s.dialogs);
      }
    case Delete(id) =>
      if Deleted(s.pool, id, s.dialogs).ok {
        RemovedKeepsIdsDistinct(s.pool, id);
        AdmittedAreDistinct(Removed(s.pool, id), s.dialogs);
        if s.executor.Starting? {
          StaysInPlace(s.pool, id, s.executor.context);
        }
      }
    case Notify => AdmittedAreDistinct(s.pool, s.dialogs);
    case Begin(k) =>
      var e := Next(s, step).executor;
      if e.Starting? {
        RunningIsNotWaiting(s.pool, e.context);
        assert e.context in Pooled(s.pool);
      }
    case _ =>
  }

  lemma NextIsReachable(s: System, step: Step)
    requires Reachable(s) && Enabled(s, step)
    ensures Reachable(Next(s, step))
  {
    var dialogs, steps :| Possible(Init(dialogs), steps) && Run(Init(dialogs), steps) == s;
    hide Next, Enabled;
    RunOneMore(Init(dialogs), steps, step);
  }

  lemma {:induction false} RunOneMore(s: System, steps: seq<Step>, step: Step)
    requires Possible(s, steps) && Enabled(Run(s, steps), step)
    ensures Possible(s, steps + [step]) && Run(s, steps + [step]) == Next(Run(s, steps), step)
    decreases |steps|
  {
    var more := steps + [step];
    if steps == [] {
      assert more == [step] && more[1..] == [];
    } else {
      assert more[0] == steps[0] && more[1..] == steps[1..] + [step];
      RunOneMore(Next(s, steps[0]), steps[1..], step);
    }
  }
}
