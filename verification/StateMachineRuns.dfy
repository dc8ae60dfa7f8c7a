/**
 * A machine, those who schedule events on it, and the thread handler that runs its tasks. An event is
 * queued first and its task posted afterwards. A reaction is taken apart into its callbacks, the events
 * each of them pushes, and the store of the new state; events of others come in between any two of those.
 */
module StateMachineRuns {
  import opened Common
  import opened PackedKeys
  import opened StateMachines

  // ----- A reaction in its parts -----

  datatype Work = Observe(moment: Moment) | Store(state: Word)

  function Reaction(t: Table, state: Word, event: Word): seq<Work> {
    var key := TransitionIndex(state, event);
    if key !in t.transitions then []
    else
      var next := t.transitions[key].next;
      (if t.transitions[key].action.Some? then [Observe(Acted(t.transitions[key].action.value, event))] else [])
      + [Store(next)]
      + if next == state then []
        else [Observe(Left(state, ActionOn(t.leave, state))), Observe(Entered(next, ActionOn(t.enter, next)))]
  }

  function Do(c: Config, work: Work): Config {
    match work
    case Observe(m) => c.(trace := c.trace + [m])
    case Store(state) => c.(state := state)
  }

  /** Where the rest of a reaction leads. */
  function Complete(c: Config, todo: seq<Work>): Config
    decreases |todo|
  {
    if todo == [] then c else Complete(Do(c, todo[0]), todo[1..])
  }

  lemma {:induction false} CompleteSplits(c: Config, first: seq<Work>, rest: seq<Work>)
    ensures Complete(c, first + rest) == Complete(Complete(c, first), rest)
    decreases |first|
  {
    if first == [] {
      assert first + rest == rest;
    } else {
      assert (first + rest)[1..] == first[1..] + rest;
      CompleteSplits(Do(c, first[0]), first[1..], rest);
    }
  }

  /** Its parts together are the reaction. */
  lemma PartsMakeReaction(t: Table, c: Config, event: Word)
    ensures Complete(c, Reaction(t, c.state, event)) == React(t, c, event)
  {
    hide TransitionIndex;
    var key := TransitionIndex(c.state, event);
    if key in t.transitions {
      var entry := t.transitions[key];
      var act := if entry.action.Some? then [Observe(Acted(entry.action.value, event))] else [];
      var move := if entry.next == c.state then []
                  else [Observe(Left(c.state, ActionOn(t.leave, c.state))),
                        Observe(Entered(entry.next, ActionOn(t.enter, entry.next)))];
      CompleteSplits(c, act + [Store(entry.next)], move);
      CompleteSplits(c, act, [Store(entry.next)]);
      OneWork(c, act);
      OneWork(Complete(c, act), [Store(entry.next)]);
      TwoWorks(Complete(c, act + [Store(entry.next)]), move);
    }
  }

  lemma OneWork(c: Config, todo: seq<Work>)
    requires |todo| <= 1
    ensures Complete(c, todo) == if todo == [] then c else Do(c, todo[0])
  {
  }

  lemma TwoWorks(c: Config, todo: seq<Work>)
    requires |todo| == 0 || |todo| == 2
    ensures Complete(c, todo) == if todo == [] then c else Do(Do(c, todo[0]), todo[1])
  {
    if todo != [] {
      OneWork(Do(c, todo[0]), todo[1..]);
    }
  }

  lemma {:induction false} CompleteExtendsTrace(c: Config, todo: seq<Work>)
    ensures c.trace <= Complete(c, todo).trace
    decreases |todo|
  {
    if todo != [] {
      CompleteExtendsTrace(Do(c, todo[0]), todo[1..]);
    }
  }

  // ----- The system -----

  /**
   * `pushed` and `popped` list every event ever queued and ever taken, `inner` those the callbacks pushed.
   * `running` counts the pops of the task under way, `todo` is what is left of its reaction, and `toPush`
   * what the callback under way has still to push.
   */
  datatype System = System(
    config: Config,
    pending: seq<Word>,
    pushed: seq<Word>,
    popped: seq<Word>,
    inner: seq<Word>,
    posting: nat,
    tasks: nat,
    running: Option<nat>,
    todo: seq<Work>,
    toPush: seq<Word>,
    ownerAlive: bool)

  datatype Step = Push(event: Word) | PostTask | BeginTask | Pop | Proceed | PushInner | EndTask | OwnerDies

  function Init(state: Word): System {
    System(Config(state, []), [], [], [], [], 0, 0, None, [], [], true)
  }

  predicate Enabled(s: System, step: Step) {
    match step
    case PostTask => s.posting > 0
    case BeginTask => s.tasks > 0 && s.running == None
    case Pop => Between(s) && s.running.value < MAX_SCHEDULE_TIMES && s.pending != []
    case Proceed => s.running.Some? && s.toPush == [] && s.todo != []
    case PushInner => s.running.Some? && s.toPush != []
    case EndTask => Between(s) && (s.running.value >= MAX_SCHEDULE_TIMES || s.pending == [])
    case _ => true
  }

  /** A task is under way and has finished a reaction. */
  predicate Between(s: System) {
    s.running.Some? && s.todo == [] && s.toPush == []
  }

  function Next(t: Table, cb: Callbacks, s: System, step: Step): System
    requires Enabled(s, step)
  {
    match step
    case Push(e) => s.(pending := s.pending + [e], pushed := s.pushed + [e], posting := s.posting + 1)
    case PostTask => s.(posting := s.posting - 1, tasks := s.tasks + 1)
    case BeginTask => s.(tasks := s.tasks - 1, running := if s.ownerAlive then Some(0) else None)
    case Pop =>
      s.(pending := s.pending[1..],
         popped := s.popped + [s.pending[0]],
         running := Some(s.running.value + 1),
         todo := Reaction(t, s.config.state, s.pending[0]))
    case Proceed =>
      var after := Do(s.config, s.todo[0]);
      s.(config := after, todo := s.todo[1..],
         toPush := if s.todo[0].Observe? && Invokes(s.todo[0].moment) then cb(after.trace) else [])
    case PushInner =>
      var e := s.toPush[0];
      s.(pending := s.pending + [e], pushed := s.pushed + [e], inner := s.inner + [e], toPush := s.toPush[1..])
    case EndTask => s.(running := None)
    case OwnerDies => s.(ownerAlive := false)
  }

  predicate Possible(t: Table, cb: Callbacks, s: System, steps: seq<Step>)
    decreases |steps|
  {
    steps != [] ==> Enabled(s, steps[0]) && Possible(t, cb, Next(t, cb, s, steps[0]), steps[1..])
  }

  function Run(t: Table, cb: Callbacks, s: System, steps: seq<Step>): System
    requires Possible(t, cb, s, steps)
    decreases |steps|
  {
    if steps == [] then s else Run(t, cb, Next(t, cb, s, steps[0]), steps[1..])
  }

  // ----- Every run is a fold over the events it took -----

  ghost predicate Folds(t: Table, cb: Callbacks, c0: Config, s: System) {
    && Complete(s.config, s.todo) == Fold(t, c0, s.popped)
    && s.popped + s.pending == s.pushed
    && s.inner + s.toPush == PushedSince(cb, s.config.trace, 0)
    && (s.running == None ==> s.todo == [] && s.toPush == [])
  }

  lemma PopFolds(t: Table, cb: Callbacks, c0: Config, s: System)
    requires Folds(t, cb, c0, s) && Enabled(s, Pop)
    ensures Folds(t, cb, c0, Next(t, cb, s, Pop))
  {
    hide React, PushedSince, Reaction;
    PartsMakeReaction(t, s.config, s.pending[0]);
    assert (s.popped + [s.pending[0]])[..|s.popped|] == s.popped;
    assert s.pending == [s.pending[0]] + s.pending[1..];
  }

  lemma ProceedFolds(t: Table, cb: Callbacks, c0: Config, s: System)
    requires Folds(t, cb, c0, s) && Enabled(s, Proceed)
    ensures Folds(t, cb, c0, Next(t, cb, s, Proceed))
  {
    hide Fold;
    var after := Do(s.config, s.todo[0]);
    if s.todo[0].Observe? {
      assert after.trace[..|after.trace| - 1] == s.config.trace;
    }
  }

  lemma StepFolds(t: Table, cb: Callbacks, c0: Config, s: System, step: Step)
    requires Folds(t, cb, c0, s) && Enabled(s, step)
    ensures Folds(t, cb, c0, Next(t, cb, s, step))
  {
    hide Fold, Complete, PushedSince;
    match step
    case Pop => PopFolds(t, cb, c0, s);
    case Proceed => ProceedFolds(t, cb, c0, s);
    case PushInner =>
      assert s.inner + s.toPush == s.inner + [s.toPush[0]] + s.toPush[1..];
    case _ =>
  }

  lemma {:induction false} RunFolds(t: Table, cb: Callbacks, c0: Config, s: System, steps: seq<Step>)
    requires Folds(t, cb, c0, s) && Possible(t, cb, s, steps)
    ensures Folds(t, cb, c0, Run(t, cb, s, steps))
    decreases |steps|
  {
    if steps != [] {
      StepFolds(t, cb, c0, s, steps[0]);
      RunFolds(t, cb, c0, Next(t, cb, s, steps[0]), steps[1..]);
    }
  }

  /** However tasks batch the events, whatever the callbacks push and whoever else pushes in between:
      with the rest of the reaction under way, state and trace are those of taking the popped events one
      at a time; events are popped in the order they were queued; and what the callbacks have queued or
      have still to push is what the trace so far made them push. */
  lemma RunIsFold(t: Table, cb: Callbacks, state: Word, steps: seq<Step>)
    requires Possible(t, cb, Init(state), steps)
    ensures var s := Run(t, cb, Init(state), steps);
            && Complete(s.config, s.todo) == Fold(t, Config(state, []), s.popped)
            && (s.running == None ==> s.config == Fold(t, Config(state, []), s.popped))
            && s.popped + s.pending == s.pushed
            && s.inner + s.toPush == PushedSince(cb, s.config.trace, 0)
  {
    RunFolds(t, cb, Config(state, []), Init(state), steps);
  }

  // ----- Leaving and entering -----

  /** The state after a trace: the one entered last. */
  function StateAfter(initial: Word, trace: seq<Moment>): Word {
    if trace == [] then initial
    else if trace[|trace| - 1].Entered? then trace[|trace| - 1].state
    else StateAfter(initial, trace[..|trace| - 1])
  }

  /** Every leave names the state entered last, and the very next moment enters a different one. */
  ghost predicate Alternates(initial: Word, trace: seq<Moment>) {
    forall k | 0 <= k < |trace| && trace[k].Left? ::
      && trace[k].state == StateAfter(initial, trace[..k])
      && k + 1 < |trace| && trace[k + 1].Entered? && trace[k + 1].state != trace[k].state
  }

  lemma ActingAlternates(initial: Word, trace: seq<Moment>, action: ActionId, event: Word)
    requires Alternates(initial, trace)
    ensures var d := trace + [Acted(action, event)];
            Alternates(initial, d) && StateAfter(initial, d) == StateAfter(initial, trace)
  {
    var d := trace + [Acted(action, event)];
    assert d[..|trace|] == trace;
    forall k | 0 <= k < |d| && d[k].Left?
      ensures d[..k] == trace[..k]
    {
    }
  }

  lemma MovingAlternates(initial: Word, trace: seq<Moment>, from: Word, to: Word,
                         leave: Option<ActionId>, enter: Option<ActionId>)
    requires Alternates(initial, trace) && StateAfter(initial, trace) == from != to
    ensures var d := trace + [Left(from, leave), Entered(to, enter)];
            Alternates(initial, d) && StateAfter(initial, d) == to
  {
    var d := trace + [Left(from, leave), Entered(to, enter)];
    assert d[|d| - 1] == Entered(to, enter);
    forall k | 0 <= k < |d| && d[k].Left?
      ensures d[k].state == StateAfter(initial, d[..k])
      ensures k + 1 < |d| && d[k + 1].Entered? && d[k + 1].state != d[k].state
    {
      if k < |trace| {
        assert d[..k] == trace[..k] && d[k] == trace[k];
      } else {
        assert d[..k] == trace;
      }
    }
  }

  lemma ReactAlternates(t: Table, initial: Word, c: Config, event: Word)
    requires Alternates(initial, c.trace) && StateAfter(initial, c.trace) == c.state
    ensures var d := React(t, c, event);
            Alternates(initial, d.trace) && StateAfter(initial, d.trace) == d.state
  {
    hide Alternates, StateAfter, TransitionIndex;
    var d, key := React(t, c, event), TransitionIndex(c.state, event);
    if key in t.transitions {
      var entry, mid := t.transitions[key], c.trace;
      if entry.action.Some? {
        ActingAlternates(initial, mid, entry.action.value, event);
        mid := mid + [Acted(entry.action.value, event)];
      }
      if entry.next != c.state {
        var leave, enter := ActionOn(t.leave, c.state), ActionOn(t.enter, entry.next);
        MovingAlternates(initial, mid, c.state, entry.next, leave, enter);
        assert d.trace == mid + [Left(c.state, leave), Entered(entry.next, enter)];
      } else {
        assert d.trace == mid;
      }
    }
  }

  lemma {:induction false} FoldAlternates(t: Table, initial: Word, events: seq<Word>)
    ensures var d := Fold(t, Config(initial, []), events);
            Alternates(initial, d.trace) && StateAfter(initial, d.trace) == d.state
  {
    if events != [] {
      FoldAlternates(t, initial, events[..|events| - 1]);
      ReactAlternates(t, initial, Fold(t, Config(initial, []), events[..|events| - 1]), events[|events| - 1]);
    }
  }

  /** In every run each leave matches the latest enter, or the initial state, and is followed at once
      by the enter of another state; and the current state is the one entered last. A reaction under way
      is to be completed first. */
  lemma LeavesMatchEnters(t: Table, cb: Callbacks, state: Word, steps: seq<Step>)
    requires Possible(t, cb, Init(state), steps)
    ensures var s := Run(t, cb, Init(state), steps);
            var c := Complete(s.config, s.todo);
            && Alternates(state, c.trace) && StateAfter(state, c.trace) == c.state
            && s.config.trace <= c.trace && (s.running == None ==> s.config == c)
  {
    hide Alternates, StateAfter, Fold;
    RunIsFold(t, cb, state, steps);
    var s := Run(t, cb, Init(state), steps);
    FoldAlternates(t, state, s.popped);
    CompleteExtendsTrace(s.config, s.todo);
  }

  // ----- No event is forgotten -----

  ghost predicate Silent(cb: Callbacks) {
    forall trace :: cb(trace) == []
  }

  lemma {:induction false} SilentPushesNothing(cb: Callbacks, trace: seq<Moment>, n: nat)
    requires Silent(cb)
    ensures PushedSince(cb, trace, n) == []
  {
    if |trace| > n {
      SilentPushesNothing(cb, trace[..|trace| - 1], n);
    }
  }

  /** Every pending event has a task to come, counting posts under way and a task that has not yet
      popped; and no callback pushes. */
  predicate Provided(s: System) {
    s.toPush == [] && |s.pending| <= s.tasks + s.posting + if s.running == Some(0) then 1 else 0
  }

  lemma {:induction false} RunProvides(t: Table, cb: Callbacks, s: System, steps: seq<Step>)
    requires Silent(cb) && Provided(s) && s.ownerAlive && OwnerDies !in steps
    requires Possible(t, cb, s, steps)
    ensures Provided(Run(t, cb, s, steps))
    decreases |steps|
  {
    if steps != [] {
      RunProvides(t, cb, Next(t, cb, s, steps[0]), steps[1..]);
    }
  }

  /** With a live owner and callbacks that push nothing, pending events never outnumber the tasks on
      their way; when all tasks are done every event queued has been taken. */
  lemma NoEventForgotten(t: Table, cb: Callbacks, state: Word, steps: seq<Step>)
    requires Silent(cb) && OwnerDies !in steps && Possible(t, cb, Init(state), steps)
    ensures var s := Run(t, cb, Init(state), steps);
            && Provided(s)
            && (s.tasks == s.posting == 0 && s.running == None ==> s.pending == [] && s.popped == s.pushed)
  {
    RunProvides(t, cb, Init(state), steps);
    RunIsFold(t, cb, state, steps);
    var s := Run(t, cb, Init(state), steps);
    assert s.pending == [] ==> s.popped + s.pending == s.popped;
  }

  // ----- And exactly when one is -----

  /** An event is pending and no task is there to take it. */
  predicate Stranded(s: System) {
    s.pending != [] && s.tasks == s.posting == 0 && s.running == None
  }

  /** The events that were pending when the task under way began, or have been pushed since: all ever
      queued but those taken before. */
  function Supply(s: System): int
    requires s.running.Some?
  {
    |s.pushed| - (|s.popped| - s.running.value)
  }

  lemma {:induction false} RunKeepsOwner(t: Table, cb: Callbacks, s: System, steps: seq<Step>)
    requires OwnerDies !in steps && Possible(t, cb, s, steps) && s.ownerAlive
    requires s.running.Some? ==> s.running.value <= MAX_SCHEDULE_TIMES
    ensures var r := Run(t, cb, s, steps);
            r.ownerAlive && (r.running.Some? ==> r.running.value <= MAX_SCHEDULE_TIMES)
    decreases |steps|
  {
    if steps != [] {
      RunKeepsOwner(t, cb, Next(t, cb, s, steps[0]), steps[1..]);
    }
  }

  /** At any moment of any run with a live owner, whatever the callbacks push: the next step leaves an
      event behind with no task to take it if and only if it ends a task that had more than 100 events to
      take, with no other task posted or about to be. */
  lemma StrandsIff(t: Table, cb: Callbacks, state: Word, steps: seq<Step>, step: Step)
    requires OwnerDies !in steps + [step] && Possible(t, cb, Init(state), steps)
    requires Enabled(Run(t, cb, Init(state), steps), step)
    ensures var s := Run(t, cb, Init(state), steps);
            Stranded(Next(t, cb, s, step)) <==>
            step == EndTask && s.tasks == s.posting == 0 && Supply(s) > MAX_SCHEDULE_TIMES
  {
    RunIsFold(t, cb, state, steps);
    RunKeepsOwner(t, cb, Init(state), steps);
    var s := Run(t, cb, Init(state), steps);
    assert |s.popped| + |s.pending| == |s.pushed|;
    assert step != OwnerDies by {
      assert step in steps + [step];
    }
  }

  /** It stays behind until somebody pushes another one. */
  lemma StrandedUntilPush(s: System, step: Step)
    requires Stranded(s) && Enabled(s, step)
    ensures step.Push? || step.OwnerDies?
  {
  }

  // ----- A machine that strands one -----

  /** A callback that answers every event with another one. */
  function Echo(): Callbacks {
    trace => [1]
  }

  /** A machine with one state that acts on event 1 and stays where it is. */
  function SelfLoop(): Table {
    Table(map[TransitionIndex(0, 1) := Transition(0, Some(7))], map[], map[])
  }

  const ROUND := [Pop, Proceed, PushInner, Proceed]

  function Rounds(n: nat): seq<Step> {
    if n == 0 then [] else ROUND + Rounds(n - 1)
  }

  predicate Echoing(s: System, k: nat) {
    && s.config.state == 0 && s.pending == [1] && s.running == Some(k) && s.todo == [] && s.toPush == []
    && s.tasks == s.posting == 0 && s.ownerAlive
  }

  lemma {:induction false} StepsFirst(t: Table, cb: Callbacks, s: System, first: seq<Step>, rest: seq<Step>)
    requires Possible(t, cb, s, first) && Possible(t, cb, Run(t, cb, s, first), rest)
    ensures Possible(t, cb, s, first + rest)
    ensures Run(t, cb, s, first + rest) == Run(t, cb, Run(t, cb, s, first), rest)
    decreases |first|
  {
    hide Next, Enabled;
    if first == [] {
      assert first + rest == rest;
    } else {
      assert (first + rest)[1..] == first[1..] + rest;
      StepsFirst(t, cb, Next(t, cb, s, first[0]), first[1..], rest);
    }
  }

  lemma OneRound(s: System, k: nat)
    requires Echoing(s, k) && k < MAX_SCHEDULE_TIMES
    ensures Possible(SelfLoop(), Echo(), s, ROUND) && Echoing(Run(SelfLoop(), Echo(), s, ROUND), k + 1)
  {
    var t, cb := SelfLoop(), Echo();
    var s1 := Next(t, cb, s, Pop);
    assert s1.todo == [Observe(Acted(7, 1)), Store(0)];
    var s2 := Next(t, cb, s1, Proceed);
    assert s2.toPush == [1] && s2.todo == [Store(0)];
    var s3 := Next(t, cb, s2, PushInner);
    var s4 := Next(t, cb, s3, Proceed);
    assert Echoing(s4, k + 1);
    OneStep(t, cb, s, Pop);
    OneStep(t, cb, s1, Proceed);
    OneStep(t, cb, s2, PushInner);
    OneStep(t, cb, s3, Proceed);
    hide Next, Run, Possible, Enabled, Echoing;
    StepsFirst(t, cb, s, [Pop], [Proceed]);
    StepsFirst(t, cb, s, [Pop] + [Proceed], [PushInner]);
    StepsFirst(t, cb, s, [Pop] + [Proceed] + [PushInner], [Proceed]);
    assert [Pop] + [Proceed] + [PushInner] + [Proceed] == ROUND;
  }

  lemma OneStep(t: Table, cb: Callbacks, s: System, step: Step)
    requires Enabled(s, step)
    ensures Possible(t, cb, s, [step]) && Run(t, cb, s, [step]) == Next(t, cb, s, step)
  {
    assert [step][1..] == [];
  }

  lemma {:induction false} AllRounds(s: System, k: nat, n: nat)
    requires Echoing(s, k) && k + n <= MAX_SCHEDULE_TIMES
    ensures Possible(SelfLoop(), Echo(), s, Rounds(n))
    ensures Echoing(Run(SelfLoop(), Echo(), s, Rounds(n)), k + n)
    ensures OwnerDies !in Rounds(n)
    decreases n
  {
    hide Echoing, SelfLoop, Echo;
    if n > 0 {
      OneRound(s, k);
      var s' := Run(SelfLoop(), Echo(), s, ROUND);
      AllRounds(s', k + 1, n - 1);
      StepsFirst(SelfLoop(), Echo(), s, ROUND, Rounds(n - 1));
    }
  }

  lemma FirstTask() returns (steps: seq<Step>)
    ensures steps == [Push(1), PostTask, BeginTask] && Possible(SelfLoop(), Echo(), Init(0), steps)
    ensures Echoing(Run(SelfLoop(), Echo(), Init(0), steps), 0)
  {
    hide SelfLoop, Echo;
    var t, cb := SelfLoop(), Echo();
    var s1 := Next(t, cb, Init(0), Push(1));
    var s2 := Next(t, cb, s1, PostTask);
    OneStep(t, cb, Init(0), Push(1));
    OneStep(t, cb, s1, PostTask);
    OneStep(t, cb, s2, BeginTask);
    assert Echoing(Next(t, cb, s2, BeginTask), 0);
    hide Next, Run, Possible, Enabled, Echoing;
    StepsFirst(t, cb, Init(0), [Push(1)], [PostTask]);
    StepsFirst(t, cb, Init(0), [Push(1)] + [PostTask], [BeginTask]);
    steps := [Push(1)] + [PostTask] + [BeginTask];
  }

  lemma EndStrands(t: Table, cb: Callbacks, s: System)
    requires Echoing(s, MAX_SCHEDULE_TIMES)
    ensures Possible(t, cb, s, [EndTask]) && Stranded(Run(t, cb, s, [EndTask]))
  {
    OneStep(t, cb, s, EndTask);
  }

  /** The condition is met by a machine that answers itself: its one task leaves an event behind. */
  lemma PushingCallbacksStrandEvents() returns (steps: seq<Step>)
    ensures OwnerDies !in steps && Possible(SelfLoop(), Echo(), Init(0), steps)
    ensures Stranded(Run(SelfLoop(), Echo(), Init(0), steps))
  {
    hide Run, Possible, Rounds, Echoing, SelfLoop, Echo, Init, Stranded;
    var t, cb, s := SelfLoop(), Echo(), Init(0);
    var first := FirstTask();
    var rounds := Rounds(MAX_SCHEDULE_TIMES);
    AllRounds(Run(t, cb, s, first), 0, MAX_SCHEDULE_TIMES);
    StepsFirst(t, cb, s, first, rounds);
    EndStrands(t, cb, Run(t, cb, s, first + rounds));
    StepsFirst(t, cb, s, first + rounds, [EndTask]);
    steps := first + rounds + [EndTask];
    assert OwnerDies !in first;
  }
}
