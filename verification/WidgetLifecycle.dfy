/**
 * The life of a widget context: every critical section as a function on its state, and what holds
 * over all interleavings of those sections.
 */
module WidgetLifecycle {
  import opened Common

  datatype Phase = NotStarted | Running | Stopping | ResultDelivered | Released {
    function Rank(): nat {
      match this
      case NotStarted => 0
      case Running => 1
      case Stopping => 2
      case ResultDelivered => 3
      case Released => 4
    }

    predicate Before(other: Phase) {
      Rank() < other.Rank()
    }
  }

  /** What is fixed when the context is built: whose session it is, whether a companion device alone
      decides it, whether frozen factors are skipped, whether a face or a fingerprint is the only factor,
      and whether there is a navigation button. */
  datatype Setup = Setup(userId: int, directAuth: bool, skipLocked: bool, singleBiometric: bool, navigation: bool)

  /** What a success will be reported with. */
  datatype AuthInfo = AuthInfo(token: seq<nat>, digest: nat, count: nat, authType: int, userId: int)

  /** What a child's result makes the context tell its schedule, or the caller in the case of a tip. */
  datatype Notice =
    | NotifyAuthSuccess(authType: int)
    | NotifyAuthFail(authType: int)
    | StopAuthList(authType: int)
    | NaviPinAuth
    | ReleaseSchedule
    | Tip(authType: int, tipCode: int)

  /** The fields of the context, and what it has done to the world: the results given to the caller,
      the pool deletions issued, the child tasks it asked the pool to cancel, and its notices. */
  datatype Widget = Widget(
    setup: Setup,
    phase: Phase,
    activeChildren: nat,
    scheduleReleased: bool,
    timerArmed: bool,
    runTasks: seq<nat>,
    info: AuthInfo,
    latestError: int,
    delivered: seq<int>,
    deletes: nat,
    cancels: seq<nat>,
    notices: seq<Notice>)

  /** How `Start` answers: it goes on to OnStart, it swallows a start that comes after a stop, or it
      reports a failure. */
  datatype StartAnswer = Proceeds | Absorbed | Fails

  /** How the launch of one child ends. A failed launch reports through the child's callback, or,
      when not even that could be built, only counts the child as gone. */
  datatype Launch = Launched(taskId: nat) | FailsWithReport(authType: int) | FailsSilently

  /** What a child hands back: its code and type, and what it attached. `scheduled` says that the widget
      has a schedule. */
  datatype ChildResult = ChildResult(
    code: int,
    authType: int,
    signature: Option<seq<nat>>,
    digest: Option<nat>,
    count: Option<nat>,
    freezingTime: int,
    scheduled: bool)

  /** The bare error of a child that could not be launched. */
  function LaunchError(authType: int, scheduled: bool): ChildResult {
    ChildResult(GENERAL_ERROR, authType, None, None, None, -1, scheduled)
  }

  function NewWidget(setup: Setup): Widget {
    Widget(setup, NotStarted, 0, false, false, [], AuthInfo([], 0, 0, 0, 0), GENERAL_ERROR, [], 0, [], [])
  }

  // ----- The critical sections -----

  function Deliver(w: Widget, code: int): Widget {
    w.(delivered := w.delivered + [code])
  }

  function WithError(w: Widget, code: int): Widget {
    if code != SUCCESS then w.(latestError := code) else w
  }

  function EndLocked(w: Widget): Widget {
    if w.phase == Released then w
    else
      var gone := w.(phase := Released, timerArmed := false, deletes := w.deletes + 1);
      if w.phase.Before(ResultDelivered) then Deliver(gone, CANCELED) else gone
  }

  function TryEndLocked(w: Widget): Widget {
    if w.phase == Released || !w.scheduleReleased then w
    else if w.activeChildren > 0 && w.phase.Before(ResultDelivered) then w.(timerArmed := true)
    else EndLocked(w)
  }

  function StartAnswered(w: Widget): (StartAnswer, Widget) {
    match w.phase
    case NotStarted => (Proceeds, w.(phase := Running))
    case Running => (Fails, w.(latestError := GENERAL_ERROR))
    case _ => (Absorbed, w)
  }

  function StartFailed(w: Widget, code: int): Widget {
    if !w.phase.Before(ResultDelivered) then w
    else EndLocked(Deliver(w.(phase := ResultDelivered), code))
  }

  /** First section of `Stop`; a context that has not started yields its seat. */
  function StopSeated(w: Widget): (bool, Widget) {
    if w.phase == NotStarted then (true, w.(phase := Stopping)) else (false, w)
  }

  /** The code the caller gets when `End(code)` is the call that ends the context. `stored` says
      whether the attributes of a successful result could all be set. */
  function EndCode(w: Widget, code: int, stored: bool): int {
    if (code == SUCCESS || w.info.token != []) && !stored then GENERAL_ERROR else code
  }

  function Ended(w: Widget, code: int, stored: bool): Widget {
    if !w.phase.Before(Stopping) then w
    else
      var quiet := w.(cancels := w.cancels + w.runTasks, runTasks := []);
      TryEndLocked(Deliver(quiet, EndCode(w, code, stored)).(phase := ResultDelivered, timerArmed := true))
  }

  function ChildTerminated(w: Widget): Widget {
    var fewer := w.(activeChildren := if w.activeChildren > 0 then w.activeChildren - 1 else 0);
    if fewer.activeChildren != 0 then fewer else TryEndLocked(fewer)
  }

  const INT32_MAX := 0x7fff_ffff
  const TIP_CODE_FAIL := 1
  const TIP_CODE_TIMEOUT := 2
  const TIP_CODE_TEMPORARILY_LOCKED := 3
  const TIP_CODE_PERMANENTLY_LOCKED := 4
  const TIP_CODE_COMPARE_FAIL_WITH_FROZEN := 7

  function AuthTipCode(code: int, freezingTime: int): int {
    if code == TIMEOUT then TIP_CODE_TIMEOUT
    else if code == LOCKED then
      if freezingTime == INT32_MAX then TIP_CODE_PERMANENTLY_LOCKED else TIP_CODE_TEMPORARILY_LOCKED
    else if freezingTime > 0 then TIP_CODE_COMPARE_FAIL_WITH_FROZEN
    else TIP_CODE_FAIL
  }

  function OrElse<T>(attached: Option<T>, kept: T): T {
    if attached.Some? then attached.value else kept
  }

  predicate Passes(code: int) {
    code == SUCCESS || code == COMPLEXITY_CHECK_FAILED
  }

  /** The only factor is frozen and frozen factors are skipped: the session is over. */
  predicate LocksOut(setup: Setup, r: ChildResult) {
    !setup.directAuth && setup.skipLocked && r.freezingTime > 0 && setup.singleBiometric
  }

  /** What is told about a result, in order. */
  function NoticesOf(setup: Setup, r: ChildResult): seq<Notice> {
    if Passes(r.code) then
      [NotifyAuthSuccess(r.authType)] + if setup.directAuth then [ReleaseSchedule] else []
    else if setup.directAuth then [NotifyAuthFail(r.authType), ReleaseSchedule]
    else
      (if r.code != CANCELED then [Tip(r.authType, AuthTipCode(r.code, r.freezingTime))] else [])
      + [if LocksOut(setup, r) then NotifyAuthFail(r.authType)
         else if setup.skipLocked && r.freezingTime > 0 && setup.navigation then NaviPinAuth
         else StopAuthList(r.authType)]
  }

  function ResultProcessed(w: Widget, r: ChildResult): Widget {
    if !r.scheduled then w
    else
      var told := w.(notices := w.notices + NoticesOf(w.setup, r));
      if Passes(r.code) then
        WithError(told.(info := AuthInfo(OrElse(r.signature, w.info.token), OrElse(r.digest, w.info.digest),
                                         OrElse(r.count, w.info.count), r.authType, w.setup.userId)), r.code)
      else WithError(told, if LocksOut(w.setup, r) then LOCKED else r.code)
  }

  /** What the schedule hands back for the whole session. A success is checked against the credentials
      enrolled: `enrolled` is the answer to that query. */
  datatype ScheduleResult = ScheduleResult(
    code: int,
    authType: int,
    token: seq<nat>,
    enrolled: int,
    digest: nat,
    count: nat)

  function ScheduleAnswered(w: Widget, r: ScheduleResult, stored: bool): Widget {
    if r.code != SUCCESS then Ended(w, r.code, stored)
    else
      var w1 := w.(info := w.info.(token := r.token, authType := r.authType, userId := w.setup.userId));
      if r.enrolled != SUCCESS then Ended(w1, r.enrolled, stored)
      else Ended(w1.(info := w1.info.(digest := r.digest % 0x1_0000, count := r.count)), SUCCESS, stored)
  }

  function ChildReported(w: Widget, r: ChildResult): Widget {
    ChildTerminated(if w.phase == Released then w else ResultProcessed(w, r))
  }

  function ScheduleCleared(w: Widget): Widget {
    if w.phase == Released then w else TryEndLocked(w.(scheduleReleased := true))
  }

  function TimedOut(w: Widget): Widget {
    if w.phase == Released then w else EndLocked(w.(timerArmed := false, activeChildren := 0))
  }

  function ChildLaunched(w: Widget, l: Launch, scheduled: bool): Widget {
    var more := w.(activeChildren := w.activeChildren + 1);
    match l
    case Launched(id) => more.(runTasks := w.runTasks + [id])
    case FailsWithReport(authType) => ChildReported(more, LaunchError(authType, scheduled))
    case FailsSilently => ChildTerminated(more)
  }

  function ChildrenLaunched(w: Widget, ls: seq<Launch>, scheduled: bool): Widget {
    if ls == [] then w
    else ChildLaunched(ChildrenLaunched(w, ls[..|ls| - 1], scheduled), ls[|ls| - 1], scheduled)
  }

  function AuthListExecuted(w: Widget, ls: seq<Launch>, scheduled: bool): Widget {
    if !w.phase.Before(Stopping) then w else ChildrenLaunched(w, ls, scheduled)
  }

  // ----- All interleavings -----

  /**
   * A widget context and the calls on it that are under way: starts inside OnStart, failed starts not
   * yet reported back, stops between their two sections; and how many children were ever launched and
   * have reported.
   */
  datatype Session = Session(
    w: Widget,
    opening: nat,
    failing: nat,
    stopping: nat,
    launched: nat,
    reported: nat)

  datatype Step =
    | Start
    | OnStartReturns(ok: bool)
    | FailStart(code: int)
    | Stop
    | FinishStop
    | End(code: int, stored: bool)
    | ScheduleEnds(answer: ScheduleResult, stored: bool)
    | ExecuteAuthList(launches: seq<Launch>, scheduled: bool)
    | Report(result: ChildResult)
    | ClearSchedule
    | Timeout

  function NewSession(setup: Setup): Session {
    Session(NewWidget(setup), 0, 0, 0, 0, 0)
  }

  function Failures(ls: seq<Launch>): nat {
    if ls == [] then 0
    else Failures(ls[..|ls| - 1]) + if ls[|ls| - 1].Launched? then 0 else 1
  }

  /** A child reports at most once; everything else may happen at any time. */
  predicate Enabled(s: Session, step: Step) {
    match step
    case OnStartReturns(_) => s.opening > 0
    case FailStart(_) => s.failing > 0
    case FinishStop => s.stopping > 0
    case Report(_) => s.reported < s.launched
    case _ => true
  }

  function Next(s: Session, step: Step): Session
    requires Enabled(s, step)
  {
    match step
    case Start =>
      var (answer, w) := StartAnswered(s.w);
      s.(w := w,
         opening := if answer == Proceeds then s.opening + 1 else s.opening,
         failing := if answer == Fails then s.failing + 1 else s.failing)
    case OnStartReturns(ok) =>
      s.(opening := s.opening - 1, failing := if ok then s.failing else s.failing + 1)
    case FailStart(code) => s.(w := StartFailed(s.w, code), failing := s.failing - 1)
    case Stop =>
      var (seated, w) := StopSeated(s.w);
      s.(w := w, stopping := if seated then s.stopping + 1 else s.stopping)
    case FinishStop => s.(w := StartFailed(s.w, CANCELED), stopping := s.stopping - 1)
    case End(code, stored) => s.(w := Ended(s.w, code, stored))
    case ScheduleEnds(r, stored) => s.(w := ScheduleAnswered(s.w, r, stored))
    case ExecuteAuthList(ls, scheduled) =>
      if !s.w.phase.Before(Stopping) then s
      else s.(w := AuthListExecuted(s.w, ls, scheduled),
              launched := s.launched + |ls|,
              reported := s.reported + Failures(ls))
    case Report(r) => s.(w := ChildReported(s.w, r), reported := s.reported + 1)
    case ClearSchedule => s.(w := ScheduleCleared(s.w))
    case Timeout => s.(w := TimedOut(s.w))
  }

  predicate Possible(s: Session, steps: seq<Step>)
    decreases |steps|
  {
    steps != [] ==> Enabled(s, steps[0]) && Possible(Next(s, steps[0]), steps[1..])
  }

  function Run(s: Session, steps: seq<Step>): Session
    requires Possible(s, steps)
    decreases |steps|
  {
    if steps == [] then s else Run(Next(s, steps[0]), steps[1..])
  }

  // ----- The invariant -----

  predicate OneResult(w: Widget) {
    |w.delivered| == if w.phase.Before(ResultDelivered) then 0 else 1
  }

  predicate OneDelete(w: Widget) {
    w.deletes == if w.phase == Released then 1 else 0
  }

  /** A context that only waits for its cleanup has the terminate timer running. */
  predicate Guarded(w: Widget) {
    && (w.phase == ResultDelivered || (w.scheduleReleased && w.phase != Released) ==> w.timerArmed)
    && (w.phase == Released ==> !w.timerArmed)
    && (w.scheduleReleased && w.phase != Released ==> w.phase.Before(ResultDelivered) && w.activeChildren > 0)
  }

  predicate Sound(s: Session) {
    && OneResult(s.w) && OneDelete(s.w) && Guarded(s.w)
    && (s.w.phase == Stopping ==> s.stopping > 0)
    && (s.w.phase == NotStarted ==> s.opening == s.failing == 0)
    && s.reported <= s.launched
    && (s.w.phase != Released ==> s.w.activeChildren == s.launched - s.reported)
  }

  /** What a child hands back touches neither phase nor counters. */
  lemma ProcessingKeepsPhase(w: Widget, r: ChildResult)
    ensures var w' := ResultProcessed(w, r);
            && w'.phase == w.phase && w'.activeChildren == w.activeChildren && w'.scheduleReleased == w.scheduleReleased
            && w'.timerArmed == w.timerArmed && w'.delivered == w.delivered && w'.deletes == w.deletes
            && w'.cancels == w.cancels
  {
  }

  /** Same but for children, tasks, errors and notices. */
  predicate SamePlace(w: Widget, w': Widget) {
    && w'.phase == w.phase && w'.delivered == w.delivered && w'.deletes == w.deletes
    && w'.scheduleReleased == w.scheduleReleased && w'.timerArmed == w.timerArmed
  }

  lemma OneLaunchKeepsPhase(w: Widget, l: Launch, scheduled: bool)
    requires w.phase.Before(Stopping) && Guarded(w)
    ensures var w' := ChildLaunched(w, l, scheduled);
            SamePlace(w, w') && Guarded(w') && w'.activeChildren == w.activeChildren + if l.Launched? then 1 else 0
  {
    hide ResultProcessed;
    if l.FailsWithReport? {
      ProcessingKeepsPhase(w.(activeChildren := w.activeChildren + 1), LaunchError(l.authType, scheduled));
    }
  }

  /** Launching children, failed launches included, never moves the phase; it adds exactly the
      children that are still to report. */
  lemma {:induction false} LaunchingKeepsPhase(w: Widget, ls: seq<Launch>, scheduled: bool)
    requires w.phase.Before(Stopping) && Guarded(w)
    ensures var w' := ChildrenLaunched(w, ls, scheduled);
            && Failures(ls) <= |ls| && SamePlace(w, w') && Guarded(w')
            && w'.activeChildren == w.activeChildren + |ls| - Failures(ls)
  {
    hide ChildLaunched, Guarded;
    if ls != [] {
      LaunchingKeepsPhase(w, ls[..|ls| - 1], scheduled);
      OneLaunchKeepsPhase(ChildrenLaunched(w, ls[..|ls| - 1], scheduled), ls[|ls| - 1], scheduled);
    }
  }

  /** The phase has not gone back, and what was delivered stays delivered. */
  predicate Forward(s: Session, t: Session) {
    s.w.phase.Rank() <= t.w.phase.Rank() && s.w.delivered <= t.w.delivered
  }

  lemma LaunchIsSound(s: Session, ls: seq<Launch>, scheduled: bool)
    requires Sound(s)
    ensures Sound(Next(s, ExecuteAuthList(ls, scheduled))) && Forward(s, Next(s, ExecuteAuthList(ls, scheduled)))
  {
    if s.w.phase.Before(Stopping) {
      LaunchingKeepsPhase(s.w, ls, scheduled);
    }
  }

  lemma EndIsSound(s: Session, code: int, stored: bool)
    requires Sound(s)
    ensures Sound(Next(s, End(code, stored))) && Forward(s, Next(s, End(code, stored)))
  {
  }

  /** The schedule ends the session just as `End` does, after new information is stored. */
  lemma AnswerEnds(w: Widget, r: ScheduleResult, stored: bool)
    ensures exists info, code :: ScheduleAnswered(w, r, stored) == Ended(w.(info := info), code, stored)
  {
    if r.code != SUCCESS {
      assert ScheduleAnswered(w, r, stored) == Ended(w.(info := w.info), r.code, stored);
    } else {
      var info := w.info.(token := r.token, authType := r.authType, userId := w.setup.userId);
      if r.enrolled != SUCCESS {
        assert ScheduleAnswered(w, r, stored) == Ended(w.(info := info), r.enrolled, stored);
      } else {
        assert ScheduleAnswered(w, r, stored) ==
               Ended(w.(info := info.(digest := r.digest % 0x1_0000, count := r.count)), SUCCESS, stored);
      }
    }
  }

  lemma ScheduleEndIsSound(s: Session, r: ScheduleResult, stored: bool)
    requires Sound(s)
    ensures Sound(Next(s, ScheduleEnds(r, stored))) && Forward(s, Next(s, ScheduleEnds(r, stored)))
  {
    hide ScheduleAnswered, Ended, OneResult, OneDelete, Guarded;
    AnswerEnds(s.w, r, stored);
    var info, code :| ScheduleAnswered(s.w, r, stored) == Ended(s.w.(info := info), code, stored);
    SoundWithAnyInfo(s, info);
    EndIsSound(s.(w := s.w.(info := info)), code, stored);
  }

  lemma SoundWithAnyInfo(s: Session, info: AuthInfo)
    requires Sound(s)
    ensures Sound(s.(w := s.w.(info := info)))
  {
  }

  lemma ReportIsSound(s: Session, r: ChildResult)
    requires Sound(s) && Enabled(s, Report(r))
    ensures Sound(Next(s, Report(r))) && Forward(s, Next(s, Report(r)))
  {
    ProcessingKeepsPhase(s.w, r);
    hide ResultProcessed;
  }

  lemma StartIsSound(s: Session, step: Step)
    requires Sound(s) && Enabled(s, step) && (step.Start? || step.OnStartReturns? || step.FailStart?)
    ensures Sound(Next(s, step)) && Forward(s, Next(s, step))
  {
  }

  lemma StopIsSound(s: Session, step: Step)
    requires Sound(s) && Enabled(s, step) && (step.Stop? || step.FinishStop?)
    ensures Sound(Next(s, step)) && Forward(s, Next(s, step))
  {
  }

  lemma ReleaseIsSound(s: Session, step: Step)
    requires Sound(s) && (step.ClearSchedule? || step.Timeout?)
    ensures Sound(Next(s, step)) && Forward(s, Next(s, step))
  {
  }

  lemma StepIsSound(s: Session, step: Step)
    requires Sound(s) && Enabled(s, step)
    ensures Sound(Next(s, step)) && Forward(s, Next(s, step))
  {
    hide Sound, Next, Forward;
    match step
    case ExecuteAuthList(ls, scheduled) => LaunchIsSound(s, ls, scheduled);
    case End(code, stored) => EndIsSound(s, code, stored);
    case ScheduleEnds(r, stored) => ScheduleEndIsSound(s, r, stored);
    case Report(r) => ReportIsSound(s, r);
    case Stop => StopIsSound(s, step);
    case FinishStop => StopIsSound(s, step);
    case ClearSchedule => ReleaseIsSound(s, step);
    case Timeout => ReleaseIsSound(s, step);
    case _ => StartIsSound(s, step);
  }

  lemma {:induction false} RunIsSound(s: Session, steps: seq<Step>)
    requires Sound(s) && Possible(s, steps)
    ensures Sound(Run(s, steps))
    decreases |steps|
  {
    if steps != [] {
      StepIsSound(s, steps[0]);
      RunIsSound(Next(s, steps[0]), steps[1..]);
    }
  }

  /** Some interleaving from the creation of the context leads to this state. */
  ghost predicate Reachable(s: Session) {
    exists setup, steps | Possible(NewSession(setup), steps) :: Run(NewSession(setup), steps) == s
  }

  lemma ReachableIsSound(s: Session)
    requires Reachable(s)
    ensures Sound(s)
  {
    var setup, steps :| Possible(NewSession(setup), steps) && Run(NewSession(setup), steps) == s;
    RunIsSound(NewSession(setup), steps);
  }

  // ----- Results over a whole life -----

  /** At every step boundary of every life, the caller has had exactly one result if the phase is
      RESULT_DELIVERED or RELEASED, and none before; and the pool deletion was issued exactly once if
      the context is released, and not before. */
  lemma ExactlyOneResult(s: Session)
    requires Reachable(s)
    ensures |s.w.delivered| <= 1
    ensures |s.w.delivered| == 1 <==> s.w.phase == ResultDelivered || s.w.phase == Released
    ensures s.w.deletes <= 1
    ensures s.w.deletes == 1 <==> s.w.phase == Released
  {
    ReachableIsSound(s);
  }

  /** The phase never goes back, and a result once given is the only one ever given. */
  lemma {:induction false} RunMovesForward(s: Session, steps: seq<Step>)
    requires Sound(s) && Possible(s, steps)
    ensures s.w.phase.Rank() <= Run(s, steps).w.phase.Rank()
    ensures s.w.delivered != [] ==> Run(s, steps).w.delivered == s.w.delivered
    decreases |steps|
  {
    if steps != [] {
      StepIsSound(s, steps[0]);
      RunMovesForward(Next(s, steps[0]), steps[1..]);
    }
  }

  /** The first `End` that finds the context not yet stopping decides the result, whatever happened
      before and whatever happens afterwards: it is the code of that call, unless there was something to
      attach, for a success or a token, and it could not be attached. */
  lemma FirstEndFixesOutcome(s: Session, code: int, stored: bool, after: seq<Step>)
    requires Reachable(s) && s.w.phase.Before(Stopping)
    requires Possible(Next(s, End(code, stored)), after)
    ensures var fails := (code == SUCCESS || s.w.info.token != []) && !stored;
            Run(Next(s, End(code, stored)), after).w.delivered == if fails then [GENERAL_ERROR] else [code]
  {
    ReachableIsSound(s);
    StepIsSound(s, End(code, stored));
    EndDelivers(s, code, stored);
    hide Next, Reachable, Sound;
    RunMovesForward(Next(s, End(code, stored)), after);
  }

  lemma EndDelivers(s: Session, code: int, stored: bool)
    requires Sound(s) && s.w.phase.Before(Stopping)
    ensures var fails := (code == SUCCESS || s.w.info.token != []) && !stored;
            Next(s, End(code, stored)).w.delivered == if fails then [GENERAL_ERROR] else [code]
  {
  }

  // ----- A stop before the start -----

  /** Stop came first: no call is in OnStart or will get there, and only CANCELED can be the result. */
  predicate SeatTaken(s: Session) {
    && !s.w.phase.Before(Stopping) && s.opening == 0 && s.failing == 0
    && (s.w.delivered == [] || s.w.delivered == [CANCELED])
    && s.w.phase != ResultDelivered
  }

  lemma SeatStays(s: Session, step: Step)
    requires Sound(s) && Enabled(s, step) && SeatTaken(s)
    ensures SeatTaken(Next(s, step))
  {
  }

  /** A stop that finds the context not started keeps OnStart from ever running and makes CANCELED the
      only possible result, whoever gets in between the two sections of `Stop` and afterwards. The
      second section delivers it at the latest. */
  lemma {:induction false} StopBeforeStart(s: Session, steps: seq<Step>)
    requires Sound(s) && SeatTaken(s) && Possible(s, steps)
    ensures var t := Run(s, steps);
            && t.opening == 0
            && t.w.delivered <= [CANCELED]
            && (Enabled(t, FinishStop) ==> Next(t, FinishStop).w.delivered == [CANCELED])
    decreases |steps|
  {
    if steps != [] {
      StepIsSound(s, steps[0]);
      SeatStays(s, steps[0]);
      StopBeforeStart(Next(s, steps[0]), steps[1..]);
    }
  }

  lemma StopTakesSeat(s: Session)
    requires Reachable(s) && s.w.phase == NotStarted
    ensures Sound(Next(s, Stop)) && SeatTaken(Next(s, Stop)) && Enabled(Next(s, Stop), FinishStop)
  {
    ReachableIsSound(s);
  }

  // ----- No leak -----

  /** Whoever only waits for cleanup has the timer running; the timer's expiry releases any context
      with exactly one result and one deletion; and a context in STOPPING has a stop under way whose
      second section releases it. */
  lemma NeverLeaks(s: Session)
    requires Reachable(s)
    ensures s.w.phase == ResultDelivered || (s.w.scheduleReleased && s.w.phase.Before(Released)) ==> s.w.timerArmed
    ensures s.w.phase == Stopping ==> Enabled(s, FinishStop) && Next(s, FinishStop).w.phase == Released
    ensures var t := Next(s, Timeout).w;
            t.phase == Released && |t.delivered| == 1 && t.deletes == 1 && !t.timerArmed
  {
    ReachableIsSound(s);
  }

  /** Until release the counter is the number of children launched and not yet heard of. */
  lemma CountsChildren(s: Session)
    requires Reachable(s) && s.w.phase.Before(Released)
    ensures s.w.activeChildren == s.launched - s.reported
  {
    ReachableIsSound(s);
  }

  /** What a start leads to: OnStart() if it is the first and no stop came before; a failure to report while
      the session runs; and nothing afterwards. */
  lemma StartLeadsTo(s: Session)
    requires Reachable(s)
    ensures var t := Next(s, Start);
            && (s.w.phase == NotStarted ==> t == s.(w := s.w.(phase := Running), opening := s.opening + 1))
            && (s.w.phase == Running ==>
                  t == s.(w := s.w.(latestError := GENERAL_ERROR), failing := s.failing + 1))
            && (!s.w.phase.Before(Stopping) ==> t == s)
  {
  }

  /** A reported failure releases a context that has no result yet with that code, and no other. */
  lemma FailureLeadsTo(s: Session, code: int)
    requires Reachable(s) && Enabled(s, FailStart(code))
    ensures var w := Next(s, FailStart(code)).w;
            && (s.w.delivered == [] ==> w.phase == Released && w.delivered == [code] && w.deletes == 1)
            && (s.w.delivered != [] ==> w == s.w)
  {
    ReachableIsSound(s);
  }

  /** A context whose schedule is gone is released as soon as its result is delivered or no child is out. */
  lemma ReleasedWhenDone(s: Session)
    requires Reachable(s) && s.w.scheduleReleased
    ensures s.w.phase == Released <==> s.w.delivered != []
    ensures s.w.phase != Released ==> s.w.activeChildren > 0
  {
    ReachableIsSound(s);
  }

  /** A release that has to make up the result itself happens only on timeout or when no child is
      outstanding. `End`, and a failed or pre-empted start, give the result before they release. */
  lemma ReleasesOnlyWhenChildless(s: Session, step: Step)
    requires Reachable(s) && Enabled(s, step)
    requires !step.Timeout? && !step.End? && !step.ScheduleEnds? && !step.FailStart? && !step.FinishStop?
    requires s.w.phase.Before(ResultDelivered) && Next(s, step).w.phase == Released
    ensures var t := Next(s, step);
            t.launched == t.reported && t.w.scheduleReleased && t.w.delivered == [CANCELED]
  {
    ReachableIsSound(s);
    hide ResultProcessed, ScheduleAnswered;
    if step.ExecuteAuthList? && s.w.phase.Before(Stopping) {
      LaunchingKeepsPhase(s.w, step.launches, step.scheduled);
    } else if step.Report? {
      ProcessingKeepsPhase(s.w, step.result);
    }
  }
}
