/**
 * The life of a sudo context: the start/stop gate it inherits, its own phases with one child, and
 * what holds over all interleavings of its critical sections. A result is decided under the lock and
 * handed over afterwards.
 */
module SudoLifecycle {
  import opened Common

  // ----- The gate of the base class -----

  datatype Gate = Gate(hasStarted: bool, stopRequested: bool, startFailDelivered: bool, latestError: int)

  datatype StopAnswer = BeforeStart | Repeated | ToOnStop

  /** Whether `Start` goes on to OnStart(), and the gate afterwards. */
  function StartAsked(g: Gate): (bool, Gate) {
    if g.hasStarted then (false, g)
    else if g.stopRequested then (false, g.(latestError := CANCELED))
    else (true, g.(hasStarted := true))
  }

  function StopAsked(g: Gate): (StopAnswer, Gate) {
    if g.hasStarted then (ToOnStop, g)
    else if g.stopRequested then (Repeated, g)
    else (BeforeStart, g.(stopRequested := true))
  }

  /** Whether a start failure is still to be told to the caller. */
  function StartFailureReported(g: Gate): (bool, Gate) {
    (!g.startFailDelivered, g.(startFailDelivered := true))
  }

  // ----- The sudo context -----

  datatype SudoPhase = Query | Running | Ended

  /** What the pool is asked around a launch, with what it would find in the context at that moment. */
  datatype PoolCall =
    | Notify(dialogActive: bool)
    | ScheduleChild(id: nat, phase: SudoPhase, childId: Option<nat>, dialogActive: bool)

  /** `owed` holds the results decided but not yet handed to the caller; `asked`, `cancels` and `deletes`
      are what was asked of the pool. */
  datatype Sudo = Sudo(
    gate: Gate,
    phase: SudoPhase,
    dialogActive: bool,
    childId: Option<nat>,
    childIsWidget: bool,
    stopping: bool,
    owed: seq<int>,
    delivered: seq<int>,
    asked: seq<PoolCall>,
    cancels: seq<nat>,
    deletes: nat)

  datatype Profile = Profile(remainTimes: int, freezingTime: int)

  /** A child that could not be built, or one with its id, taken in by the pool or not. */
  datatype Child = NotBuilt | Built(id: nat, scheduled: bool)

  function NewSudo(): Sudo {
    Sudo(Gate(false, false, false, GENERAL_ERROR), Query, false, None, false, false, [], [], [], [], 0)
  }

  function EndedWith(s: Sudo, code: int): Sudo {
    if s.phase == Ended then s
    else s.(phase := Ended, dialogActive := false, childId := None, owed := s.owed + [code])
  }

  function ChildLaunched(s: Sudo, id: nat): Sudo {
    s.(childId := Some(id), phase := Running,
       asked := s.asked + [ScheduleChild(id, Running, Some(id), s.dialogActive)])
  }

  /** The dialog flag goes up and the pool is told. */
  function DialogShown(s: Sudo): Sudo {
    s.(childIsWidget := true, dialogActive := true, asked := s.asked + [Notify(true)])
  }

  function Dispatched(s: Sudo, profile: Profile, child: Child): Sudo {
    if s.phase != Query then s
    else if profile.freezingTime > 0 then EndedWith(s, LOCKED)
    else
      var widget := profile.remainTimes == 1;
      match child
      case NotBuilt => EndedWith(if widget then s.(childIsWidget := false) else s, GENERAL_ERROR)
      case Built(id, scheduled) =>
        var shown := if widget then DialogShown(s) else s;
        if scheduled then ChildLaunched(shown, id)
        else
          var launched := ChildLaunched(shown, id);
          EndedWith(if widget then launched.(childIsWidget := false) else launched, GENERAL_ERROR)
  }

  /** What OnStart() does with the answer to its credential query. */
  function Queried(s: Sudo, ret: int, profile: Profile, child: Child): Sudo {
    if ret == NOT_ENROLLED then EndedWith(s, NOT_ENROLLED)
    else if ret != SUCCESS then EndedWith(s, GENERAL_ERROR)
    else Dispatched(s, profile, child)
  }

  /** `requery` is the freezing time found by asking again, if that succeeds. */
  function ChildResultCode(s: Sudo, code: int, requery: Option<int>): int {
    if s.stopping || code == CANCELED then CANCELED
    else if code == SUCCESS || !s.childIsWidget then code
    else if requery.Some? && requery.value > 0 then LOCKED
    else code
  }

  function ChildReported(s: Sudo, code: int, requery: Option<int>): Sudo {
    if s.phase != Running then s else EndedWith(s, ChildResultCode(s, code, requery))
  }

  function OnStopRun(s: Sudo): Sudo {
    if s.phase == Ended then s
    else if s.phase != Running || s.childId == None then EndedWith(s, CANCELED)
    else s.(stopping := true, cancels := s.cancels + [s.childId.value])
  }

  function StartFailed(s: Sudo, code: int): Sudo {
    var (tell, g) := StartFailureReported(s.gate);
    s.(gate := g, owed := if tell then s.owed + [code] else s.owed)
  }

  /** The caller gets its result, and then the cleaner takes the context out of the pool. */
  function HandedOver(s: Sudo): Sudo
    requires s.owed != []
  {
    s.(owed := s.owed[1..], delivered := s.delivered + [s.owed[0]], deletes := s.deletes + 1)
  }

  /** Everything the caller has been or will be told by the decisions taken so far. */
  function Results(s: Sudo): seq<int> {
    s.delivered + s.owed
  }

  // ----- All interleavings -----

  /**
   * A sudo context and the calls on it that are under way: queries that are out, failed starts and
   * early stops not yet reported, and stops on their way to OnStop().
   */
  datatype Session = Session(
    s: Sudo,
    querying: nat,
    failing: nat,
    refusing: nat,
    stoppingCalls: nat)

  datatype Step =
    | Start
    | QueryReturns(ret: int, profile: Profile, child: Child)
    | FailStart
    | Stop
    | FinishStop
    | OnStop
    | ChildResult(code: int, requery: Option<int>)
    | HandOver

  function NewSession(): Session {
    Session(NewSudo(), 0, 0, 0, 0)
  }

  predicate Enabled(x: Session, step: Step) {
    match step
    case QueryReturns(_, _, _) => x.querying > 0
    case FailStart => x.failing > 0
    case FinishStop => x.refusing > 0
    case OnStop => x.stoppingCalls > 0
    case HandOver => x.s.owed != []
    case _ => true
  }

  function Next(x: Session, step: Step): Session
    requires Enabled(x, step)
  {
    match step
    case Start =>
      var (proceeds, g) := StartAsked(x.s.gate);
      x.(s := x.s.(gate := g),
         querying := if proceeds then x.querying + 1 else x.querying,
         failing := if proceeds then x.failing else x.failing + 1)
    case QueryReturns(ret, profile, child) =>
      x.(s := Queried(x.s, ret, profile, child), querying := x.querying - 1)
    case FailStart => x.(s := StartFailed(x.s, x.s.gate.latestError), failing := x.failing - 1)
    case Stop =>
      var (answer, g) := StopAsked(x.s.gate);
      x.(s := x.s.(gate := g),
         refusing := if answer == BeforeStart then x.refusing + 1 else x.refusing,
         stoppingCalls := if answer == ToOnStop then x.stoppingCalls + 1 else x.stoppingCalls)
    case FinishStop => x.(s := StartFailed(x.s, CANCELED), refusing := x.refusing - 1)
    case OnStop => x.(s := OnStopRun(x.s), stoppingCalls := x.stoppingCalls - 1)
    case ChildResult(code, requery) => x.(s := ChildReported(x.s, code, requery))
    case HandOver => x.(s := HandedOver(x.s))
  }

  /** Nobody calls `Start` on a context that has started. After an early stop it may be called again. */
  predicate NoRestart(x: Session, step: Step) {
    step.Start? ==> !x.s.gate.hasStarted
  }

  predicate Possible(x: Session, steps: seq<Step>)
    decreases |steps|
  {
    steps != [] ==>
      Enabled(x, steps[0]) && NoRestart(x, steps[0]) && Possible(Next(x, steps[0]), steps[1..])
  }

  function Run(x: Session, steps: seq<Step>): Session
    requires Possible(x, steps)
    decreases |steps|
  {
    if steps == [] then x else Run(Next(x, steps[0]), steps[1..])
  }

  ghost predicate Reachable(x: Session) {
    exists steps | Possible(NewSession(), steps) :: Run(NewSession(), steps) == x
  }

  // ----- The invariant -----

  predicate Shaped(s: Sudo) {
    && (s.childId.Some? <==> s.phase == Running)
    && (s.dialogActive <==> s.phase == Running && s.childIsWidget)
    && (s.stopping ==> s.phase != Query)
    && s.deletes == |s.delivered|
    && (s.phase == Query ==> s.asked == [] && !s.childIsWidget)
    && (s.phase == Running ==> |s.asked| == if s.childIsWidget then 2 else 1)
    && AskedInOrder(s.asked)
  }

  /** The pool is asked for at most one child, after the context knows it and runs; and if a dialog is to
      show, the flag was up and the pool told before. */
  predicate AskedInOrder(asked: seq<PoolCall>) {
    || asked == []
    || (|asked| == 1 && LaunchOf(asked[0], false))
    || (|asked| == 2 && asked[0] == Notify(true) && LaunchOf(asked[1], true))
  }

  predicate LaunchOf(call: PoolCall, dialogActive: bool) {
    call.ScheduleChild? && call.phase == Running && call.childId == Some(call.id) && call.dialogActive == dialogActive
  }

  predicate Gated(x: Session) {
    var g := x.s.gate;
    && (g.hasStarted ==> !g.stopRequested)
    && (!g.stopRequested ==> g.latestError == GENERAL_ERROR)
    && (g.startFailDelivered || x.refusing > 0 ==> g.stopRequested)
    && (g.stopRequested && !g.startFailDelivered ==> x.refusing > 0)
    && (x.failing > 0 ==> g.stopRequested && g.latestError == CANCELED)
    && x.querying <= (if x.s.phase == Running then 0 else 1)
    && (x.querying > 0 || x.stoppingCalls > 0 || x.s.phase != Query ==> g.hasStarted)
    && (g.hasStarted && x.s.phase == Query ==> x.querying > 0)
  }

  function Decisions(s: Sudo): nat {
    (if s.phase == Ended then 1 else 0) + (if s.gate.startFailDelivered then 1 else 0)
  }

  predicate OneDecision(s: Sudo) {
    && |Results(s)| == Decisions(s)
    && (s.gate.stopRequested ==> Results(s) == [] || Results(s) == [CANCELED])
  }

  predicate Sound(x: Session) {
    Shaped(x.s) && Gated(x) && OneDecision(x.s)
  }

  lemma QueryKeepsShape(s: Sudo, ret: int, profile: Profile, child: Child)
    requires Shaped(s) && s.phase != Running
    ensures var q := Queried(s, ret, profile, child);
            Shaped(q) && q.gate == s.gate && q.deletes == s.deletes && q.delivered == s.delivered
  {
  }

  lemma StepKeepsShape(x: Session, step: Step)
    requires Sound(x) && Enabled(x, step) && NoRestart(x, step)
    ensures Shaped(Next(x, step).s)
  {
    hide Queried, OneDecision, AskedInOrder;
    if step.QueryReturns? {
      QueryKeepsShape(x.s, step.ret, step.profile, step.child);
    }
  }

  lemma StepKeepsGate(x: Session, step: Step)
    requires Sound(x) && Enabled(x, step) && NoRestart(x, step)
    ensures Gated(Next(x, step))
  {
    hide AskedInOrder, OneDecision;
  }

  lemma HandingOverKeeps(s: Sudo)
    requires s.owed != []
    ensures Results(HandedOver(s)) == Results(s)
  {
  }

  lemma FailureAppends(s: Sudo, code: int) returns (more: seq<int>)
    ensures more == if s.gate.startFailDelivered then [] else [code]
    ensures Results(StartFailed(s, code)) == Results(s) + more
  {
    more := if s.gate.startFailDelivered then [] else [code];
  }

  lemma EndAppends(s: Sudo, code: int) returns (more: seq<int>)
    ensures more == if s.phase == Ended then [] else [code]
    ensures Results(EndedWith(s, code)) == Results(s) + more
  {
    more := if s.phase == Ended then [] else [code];
  }

  /** What ends the context when its query returns. */
  function QueryCode(ret: int, profile: Profile): int {
    if ret == NOT_ENROLLED then NOT_ENROLLED
    else if ret == SUCCESS && profile.freezingTime > 0 then LOCKED else GENERAL_ERROR
  }

  lemma DispatchAppends(s: Sudo, profile: Profile, child: Child)
    ensures var q := Dispatched(s, profile, child);
            && q.delivered == s.delivered
            && q.owed == s.owed + if s.phase != Ended && q.phase == Ended then [QueryCode(SUCCESS, profile)] else []
  {
    hide EndedWith;
    if s.phase == Query {
      if profile.freezingTime > 0 {
        EndingAppends(s, LOCKED);
      } else if child.NotBuilt? {
        EndingAppends(if profile.remainTimes == 1 then s.(childIsWidget := false) else s, GENERAL_ERROR);
      } else if !child.scheduled {
        var launched := ChildLaunched(if profile.remainTimes == 1 then DialogShown(s) else s, child.id);
        EndingAppends(if profile.remainTimes == 1 then launched.(childIsWidget := false) else launched, GENERAL_ERROR);
      }
    }
  }

  lemma EndingAppends(s: Sudo, code: int)
    ensures var q := EndedWith(s, code);
            && q.phase == Ended && q.delivered == s.delivered
            && q.owed == s.owed + if s.phase != Ended then [code] else []
  {
  }

  lemma QueryAppends(s: Sudo, ret: int, profile: Profile, child: Child) returns (more: seq<int>)
    ensures var q := Queried(s, ret, profile, child);
            Results(q) == Results(s) + more && |more| == if s.phase != Ended && q.phase == Ended then 1 else 0
  {
    hide Results, Dispatched;
    DispatchAppends(s, profile, child);
    var q := Queried(s, ret, profile, child);
    more := if s.phase != Ended && q.phase == Ended then [QueryCode(ret, profile)] else [];
    SameOrOneMore(s, q, QueryCode(ret, profile));
  }

  lemma SameOrOneMore(s: Sudo, q: Sudo, code: int)
    requires q.delivered == s.delivered
    ensures q.owed == s.owed ==> Results(q) == Results(s) + []
    ensures q.owed == s.owed + [code] ==> Results(q) == Results(s) + [code]
  {
  }

  /** A step decides as many results as it takes the two ways to an end; after an early stop only
      CANCELED. */
  lemma StepResults(x: Session, step: Step) returns (more: seq<int>)
    requires Sound(x) && Enabled(x, step) && NoRestart(x, step)
    ensures var s := Next(x, step).s;
            && Results(s) == Results(x.s) + more
            && Decisions(s) == Decisions(x.s) + |more|
            && (s.gate.stopRequested ==> more == [] || more == [CANCELED])
            && (x.s.phase == Ended ==> s.phase == Ended)
  {
    hide OneDecision;
    more := [];
    match step
    case HandOver => HandingOverKeeps(x.s);
    case FailStart => more := FailureAppends(x.s, x.s.gate.latestError);
    case FinishStop => more := FailureAppends(x.s, CANCELED);
    case QueryReturns(ret, profile, child) => more := QueryAppends(x.s, ret, profile, child);
    case OnStop => more := EndAppends(x.s, CANCELED);
      if x.s.phase == Running { more := []; }
    case ChildResult(code, requery) => more := EndAppends(x.s, ChildResultCode(x.s, code, requery));
      if x.s.phase != Running { more := []; }
    case _ =>
  }

  lemma StepDecidesOnce(x: Session, step: Step)
    requires Sound(x) && Enabled(x, step) && NoRestart(x, step)
    ensures OneDecision(Next(x, step).s)
    ensures Results(x.s) <= Results(Next(x, step).s)
  {
    hide Next, Enabled, Results;
    StepKeepsShape(x, step);
    StepKeepsGate(x, step);
    var more := StepResults(x, step);
  }

  lemma StepIsSound(x: Session, step: Step)
    requires Sound(x) && Enabled(x, step) && NoRestart(x, step)
    ensures Sound(Next(x, step))
    ensures Results(x.s) <= Results(Next(x, step).s)
  {
    hide Next;
    StepKeepsShape(x, step);
    StepKeepsGate(x, step);
    StepDecidesOnce(x, step);
  }

  lemma {:induction false} RunIsSound(x: Session, steps: seq<Step>)
    requires Sound(x) && Possible(x, steps)
    ensures Sound(Run(x, steps))
    ensures Results(x.s) <= Results(Run(x, steps).s)
    decreases |steps|
  {
    if steps != [] {
      StepIsSound(x, steps[0]);
      RunIsSound(Next(x, steps[0]), steps[1..]);
    }
  }

  lemma ReachableIsSound(x: Session)
    requires Reachable(x)
    ensures Sound(x)
  {
    var steps :| Possible(NewSession(), steps) && Run(NewSession(), steps) == x;
    RunIsSound(NewSession(), steps);
  }

  // ----- Results over a whole life -----

  /** However starts, queries, stops and child reports interleave, at most one result is decided: one
      exactly if the context has ended or its early stop has been reported, which exclude each other.
      Once decided it is never revised. */
  lemma ExactlyOneResult(x: Session, steps: seq<Step>)
    requires Reachable(x) && Possible(x, steps)
    ensures |Results(x.s)| <= 1
    ensures |Results(x.s)| == 1 <==> x.s.phase == Ended || x.s.gate.startFailDelivered
    ensures Results(x.s) != [] ==> Results(Run(x, steps).s) == Results(x.s)
  {
    ReachableIsSound(x);
    hide Next, Reachable;
    RunIsSound(x, steps);
  }

  /** The pool deletion is issued exactly once, with the result: never before it, and a decided result
      that has not been handed over yet is the one that issues it. */
  lemma LeavesPoolWithResult(x: Session)
    requires Reachable(x)
    ensures x.s.deletes == |x.s.delivered| <= 1
    ensures Results(x.s) != [] && x.s.deletes == 0 ==>
              Enabled(x, HandOver) && Next(x, HandOver).s.deletes == 1
              && Next(x, HandOver).s.delivered == Results(x.s)
  {
    ReachableIsSound(x);
    assert |Results(x.s)| <= 1;
    if x.s.deletes == 0 {
      assert x.s.delivered == [];
    }
  }

  /** Every way of stopping it decides the result: stopped before it started, or while its query is
      out, it is CANCELED at once; with a live child the child's report decides. */
  lemma StopsDecide(x: Session)
    requires Reachable(x)
    ensures Enabled(x, FinishStop) ==> Results(Next(x, FinishStop).s) == [CANCELED]
    ensures Enabled(x, OnStop) && x.s.phase == Query ==> Results(Next(x, OnStop).s) == [CANCELED]
    ensures Enabled(x, OnStop) && x.s.phase == Running ==>
              x.s.childId.Some?
              && Next(x, OnStop).s == x.s.(stopping := true, cancels := x.s.cancels + [x.s.childId.value])
    ensures x.s.phase == Running && x.s.stopping ==>
              forall code, requery :: Results(Next(x, ChildResult(code, requery)).s) == [CANCELED]
  {
    ReachableIsSound(x);
    assert x.s.phase != Ended && !x.s.gate.startFailDelivered ==> x.s.owed == x.s.delivered == [];
  }

  /** The report of a child that nobody has stopped decides the result: it is what the child reports, unless
      a widget child failed and the factor turns out to be frozen, which makes it LOCKED. */
  lemma ChildReportDecides(x: Session, code: int, requery: Option<int>)
    requires Reachable(x) && x.s.phase == Running && !x.s.stopping
    ensures var frozen := x.s.childIsWidget && code != SUCCESS && code != CANCELED && requery.Some?
                      && requery.value > 0;
            Results(Next(x, ChildResult(code, requery)).s) == if frozen then [LOCKED] else [code]
  {
    ReachableIsSound(x);
    assert x.s.owed == x.s.delivered == [];
  }

  /** What each answer of the credential query leads to in a context that still waits for it: an error that
      ends it, or one running child, which has a dialog exactly if only one attempt is left. */
  lemma QueryDecides(x: Session, ret: int, profile: Profile, child: Child)
    requires Reachable(x) && Enabled(x, QueryReturns(ret, profile, child)) && x.s.phase == Query
    ensures var s := Next(x, QueryReturns(ret, profile, child)).s;
            var launches := ret == SUCCESS && profile.freezingTime <= 0 && child.Built? && child.scheduled;
            && (ret == NOT_ENROLLED ==> Results(s) == [NOT_ENROLLED])
            && (ret == SUCCESS && profile.freezingTime > 0 ==> Results(s) == [LOCKED])
            && (ret != NOT_ENROLLED && !(ret == SUCCESS && profile.freezingTime > 0) && !launches ==>
                  Results(s) == [GENERAL_ERROR])
            && (launches <==> s.phase == Running)
            && (launches ==>
                  && Results(s) == [] && s.childId == Some(child.id)
                  && (s.childIsWidget <==> profile.remainTimes == 1)
                  && (s.dialogActive <==> profile.remainTimes == 1)
                  && s.asked == (if profile.remainTimes == 1 then [Notify(true)] else [])
                                + [ScheduleChild(child.id, Running, Some(child.id), profile.remainTimes == 1)])
  {
    ReachableIsSound(x);
    assert x.s.owed == x.s.delivered == [] && x.s.asked == [];
  }

  /** A query that comes back to a context past it changes nothing. */
  lemma LateQueryIsIgnored(x: Session, ret: int, profile: Profile, child: Child)
    requires Reachable(x) && Enabled(x, QueryReturns(ret, profile, child)) && x.s.phase != Query
    ensures Next(x, QueryReturns(ret, profile, child)).s == x.s
  {
    ReachableIsSound(x);
  }

  /** What a start leads to: the query if it is the first and no stop came before, and otherwise a report
      of the failure, with CANCELED after a stop. */
  lemma StartLeadsTo(x: Session)
    requires Reachable(x)
    ensures var y := Next(x, Start);
            && (y.s.gate.hasStarted <==> x.s.gate.hasStarted || !x.s.gate.stopRequested)
            && y.querying == x.querying + (if !x.s.gate.hasStarted && !x.s.gate.stopRequested then 1 else 0)
            && y.failing == x.failing + (if !x.s.gate.hasStarted && !x.s.gate.stopRequested then 0 else 1)
            && (y.failing > x.failing ==>
                  y.s.gate.latestError == if x.s.gate.hasStarted then GENERAL_ERROR else CANCELED)
  {
    ReachableIsSound(x);
  }

  /** A first stop before the start refuses the start, and its second section tells the caller; a second one
      has no effect, and one after the start goes on to OnStop(). */
  lemma StopLeadsTo(x: Session)
    requires Reachable(x)
    ensures var y := Next(x, Stop);
            && (x.s.gate.hasStarted ==> y == x.(stoppingCalls := x.stoppingCalls + 1))
            && (!x.s.gate.hasStarted && x.s.gate.stopRequested ==> y == x)
            && (!x.s.gate.hasStarted && !x.s.gate.stopRequested ==>
                  && y == x.(s := x.s.(gate := x.s.gate.(stopRequested := true)), refusing := x.refusing + 1)
                  && Results(Next(y, FinishStop).s) == [CANCELED])
  {
    ReachableIsSound(x);
    assert !x.s.gate.hasStarted && !x.s.gate.stopRequested ==> x.s.owed == x.s.delivered == [];
  }

  /** A context that was started or stopped, and whose result is not decided, has somebody to decide it: its
      query, its child, or the report of its early stop. */
  lemma SomebodyDecides(x: Session)
    requires Reachable(x) && (x.s.gate.hasStarted || x.s.gate.stopRequested) && Results(x.s) == []
    ensures || (x.s.phase == Query && x.querying > 0)
            || (x.s.phase == Running && x.s.childId.Some?)
            || x.refusing > 0
  {
    ReachableIsSound(x);
  }

  /** Once stopped with a live child, whatever the child reports the result is CANCELED. */
  lemma {:induction false} StoppedChildIsCanceled(x: Session, steps: seq<Step>)
    requires Sound(x) && Possible(x, steps) && StoppedOnly(x.s)
    ensures StoppedOnly(Run(x, steps).s)
    ensures Results(Run(x, steps).s) <= [CANCELED]
    decreases |steps|
  {
    if steps != [] {
      StepIsSound(x, steps[0]);
      StoppedStep(x, steps[0]);
      StoppedChildIsCanceled(Next(x, steps[0]), steps[1..]);
    }
  }

  /** A stop has found a live child, and nothing but CANCELED has been decided. */
  predicate StoppedOnly(s: Sudo) {
    s.stopping && s.phase != Query && Results(s) <= [CANCELED]
  }

  lemma StopOfLiveChild(x: Session)
    requires Reachable(x) && Enabled(x, OnStop) && x.s.phase == Running
    ensures Sound(Next(x, OnStop)) && StoppedOnly(Next(x, OnStop).s)
  {
    ReachableIsSound(x);
    StepIsSound(x, OnStop);
  }

  lemma StoppedStep(x: Session, step: Step)
    requires Sound(x) && Enabled(x, step) && NoRestart(x, step) && StoppedOnly(x.s)
    ensures StoppedOnly(Next(x, step).s)
  {
    StepIsSound(x, step);
    if step.HandOver? {
      assert Results(HandedOver(x.s)) == Results(x.s);
    } else if Next(x, step).s.owed != x.s.owed {
      assert Results(x.s) == [];
      assert Results(Next(x, step).s) == [CANCELED];
    }
  }

  /** At step boundaries there is a child exactly while running, and the dialog shows exactly while a
      widget child runs. The pool is asked for the child once, after child and phase are set, and for a
      widget child after it was told of the dialog. */
  lemma ChildAndDialog(x: Session)
    requires Reachable(x)
    ensures x.s.childId.Some? <==> x.s.phase == Running
    ensures x.s.dialogActive <==> x.s.phase == Running && x.s.childIsWidget
    ensures AskedInOrder(x.s.asked) && (x.s.phase == Running ==> x.s.asked != [])
  {
    ReachableIsSound(x);
  }

  // ----- Where the promise ends -----

  /** Some continuation, without a further restart, gives the caller a second result. */
  ghost predicate MayGiveTwo(x: Session) {
    exists steps | Possible(x, steps) :: |Results(Run(x, steps).s)| >= 2
  }

  /** A start of a started context is refused, and the refusal is reported as one more result on top of
      the one the context has given or will. */
  lemma RestartAddsResult(x: Session)
    requires Reachable(x) && x.s.gate.hasStarted
    ensures var y := Next(x, Start);
            && Enabled(y, FailStart)
            && Results(Next(y, FailStart).s) == Results(x.s) + [GENERAL_ERROR]
  {
    ReachableIsSound(x);
    var y := Next(x, Start);
    assert Results(Next(y, FailStart).s) == x.s.delivered + (x.s.owed + [GENERAL_ERROR]);
  }

  /** The step that ends a started context, whatever it is waiting for. */
  function Ending(x: Session): Step {
    if x.s.phase == Query then QueryReturns(NOT_ENROLLED, Profile(0, 0), NotBuilt) else ChildResult(CANCELED, None)
  }

  lemma RestartMayGiveTwo(x: Session)
    requires Reachable(x) && x.s.gate.hasStarted
    ensures MayGiveTwo(Next(x, Start))
  {
    ReachableIsSound(x);
    RestartAddsResult(x);
    var y := Next(x, Start);
    var z := Next(y, FailStart);
    if x.s.phase == Ended {
      OneStep(y, FailStart);
    } else {
      var code := if x.s.phase == Query then NOT_ENROLLED else CANCELED;
      var end := Next(z, Ending(x));
      assert end.s.owed == z.s.owed + [code] && end.s.delivered == z.s.delivered;
      assert Results(end.s) == Results(z.s) + [code];
      TwoSteps(y, FailStart, Ending(x));
    }
  }

  lemma OneStep(x: Session, a: Step)
    requires Enabled(x, a) && NoRestart(x, a)
    ensures Possible(x, [a]) && Run(x, [a]) == Next(x, a)
  {
    hide Next, Enabled, NoRestart;
    assert [a][1..] == [];
    assert Possible(Next(x, a), []) && Run(Next(x, a), []) == Next(x, a);
  }

  lemma TwoSteps(x: Session, a: Step, b: Step)
    requires Enabled(x, a) && NoRestart(x, a) && Enabled(Next(x, a), b) && NoRestart(Next(x, a), b)
    ensures Possible(x, [a, b]) && Run(x, [a, b]) == Next(Next(x, a), b)
  {
    hide Next, Enabled, NoRestart;
    OneStep(Next(x, a), b);
    assert [a, b][1..] == [b];
  }

  /** A start makes a second result possible if and only if the context has started before. */
  lemma TwoResultsIffRestarted(x: Session)
    requires Reachable(x)
    ensures MayGiveTwo(Next(x, Start)) <==> x.s.gate.hasStarted
  {
    if x.s.gate.hasStarted {
      RestartMayGiveTwo(x);
    } else {
      ReachableIsSound(x);
      StepIsSound(x, Start);
      var y := Next(x, Start);
      forall steps | Possible(y, steps)
        ensures |Results(Run(y, steps).s)| < 2
      {
        RunIsSound(y, steps);
      }
    }
  }
}
