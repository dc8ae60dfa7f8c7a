/** The packed key of the transition table. */
module PackedKeys {

  /** An unsigned 32-bit number. */
  type Word = x: nat | x < 0x1_0000_0000

  /** The state in the upper half of a 64-bit number and the event in the lower. */
  function TransitionIndex(state: Word, event: Word): (key: nat)
    ensures key < 0x1_0000_0000_0000_0000
  {
    state * 0x1_0000_0000 + event
  }

  /** On machine words, shifting the state up and or-ing the event in is that sum. */
  lemma ShiftOrIsSum(state: bv32, event: bv32)
    ensures ((state as bv64) << 32) | (event as bv64) == (state as bv64) * 0x1_0000_0000 + (event as bv64)
  {
  }

  /** Two pairs of state and event share a key only if they are the same pair. */
  lemma TransitionIndexIsInjective(s: Word, e: Word, s': Word, e': Word)
    ensures TransitionIndex(s, e) == TransitionIndex(s', e') <==> s == s' && e == e'
  {
  }
}

/** The generic finite state machine: its tables, its event loop, and what the loop amounts to. */
module StateMachines {
  import opened Common
  import opened PackedKeys

  type ActionId = nat

  const MAX_SCHEDULE_TIMES := 100

  datatype Transition = Transition(next: Word, action: Option<ActionId>)

  datatype Table = Table(
    transitions: map<nat, Transition>,
    enter: map<Word, Option<ActionId>>,
    leave: map<Word, Option<ActionId>>)

  function ActionOn(m: map<Word, Option<ActionId>>, state: Word): Option<ActionId> {
    if state in m then m[state] else None
  }

  // ----- What a machine does with an event -----

  /** One observable moment. A state change is always observed, with the action it invokes if any. */
  datatype Moment =
    | Acted(action: ActionId, event: Word)
    | Left(state: Word, invoked: Option<ActionId>)
    | Entered(state: Word, invoked: Option<ActionId>)

  datatype Config = Config(state: Word, trace: seq<Moment>)

  /** Transition action first, then leaving the old state, then entering the new one. */
  function React(t: Table, c: Config, event: Word): Config {
    var key := TransitionIndex(c.state, event);
    if key !in t.transitions then c
    else
      var next := t.transitions[key].next;
      var acted := if t.transitions[key].action.Some? then [Acted(t.transitions[key].action.value, event)] else [];
      var moved := if next == c.state then []
                   else [Left(c.state, ActionOn(t.leave, c.state)), Entered(next, ActionOn(t.enter, next))];
      Config(next, c.trace + acted + moved)
  }

  /** The events taken one at a time. */
  function Fold(t: Table, c: Config, events: seq<Word>): Config {
    if events == [] then c else React(t, Fold(t, c, events[..|events| - 1]), events[|events| - 1])
  }

  /** What the callbacks push, given everything observed up to and including their own invocation. */
  type Callbacks = seq<Moment> -> seq<Word>

  predicate Invokes(m: Moment) {
    m.Acted? || m.invoked.Some?
  }

  /** The events pushed by the callbacks invoked after the first `n` moments. */
  function PushedSince(cb: Callbacks, trace: seq<Moment>, n: nat): seq<Word> {
    if |trace| <= n then []
    else
      PushedSince(cb, trace[..|trace| - 1], n) + if Invokes(trace[|trace| - 1]) then cb(trace) else []
  }

  lemma {:induction false} PushedSplits(cb: Callbacks, trace: seq<Moment>, n: nat, k: nat)
    requires n <= k <= |trace|
    ensures PushedSince(cb, trace, n) == PushedSince(cb, trace[..k], n) + PushedSince(cb, trace, k)
  {
    if k < |trace| {
      var shorter := trace[..|trace| - 1];
      PushedSplits(cb, shorter, n, k);
      assert shorter[..k] == trace[..k];
    } else {
      assert trace[..k] == trace;
    }
  }

  /** A moment makes its callback push if it invokes one, and pushes nothing otherwise. */
  lemma PushedByOneMore(cb: Callbacks, trace: seq<Moment>, m: Moment, n: nat)
    requires n <= |trace|
    ensures var more := if m.Acted? || m.invoked.Some? then cb(trace + [m]) else [];
            PushedSince(cb, trace + [m], n) == PushedSince(cb, trace, n) + more
  {
    assert (trace + [m])[..|trace|] == trace;
  }

  lemma PushedNothing(cb: Callbacks, trace: seq<Moment>)
    ensures PushedSince(cb, trace, |trace|) == []
  {
  }

  lemma FoldNone(t: Table, c: Config)
    ensures Fold(t, c, []) == c
  {
  }

  lemma FoldOneMore(t: Table, c: Config, events: seq<Word>, event: Word)
    ensures Fold(t, c, events + [event]) == React(t, Fold(t, c, events), event)
  {
    assert (events + [event])[..|events|] == events;
  }

  lemma ReactExtendsTrace(t: Table, c: Config, event: Word)
    ensures c.trace <= React(t, c, event).trace
  {
  }

  lemma {:induction false} FoldExtendsTrace(t: Table, c: Config, events: seq<Word>)
    ensures c.trace <= Fold(t, c, events).trace
  {
    if events != [] {
      FoldExtendsTrace(t, c, events[..|events| - 1]);
    }
  }

  // ----- The machine -----

  class FiniteStateMachine {
    const table: Table
    const callbacks: Callbacks
    var currentState: Word
    var pendingEvents: seq<Word>
    var posted: nat              // tasks handed to the thread handler
    var trace: seq<Moment>       // what the callbacks have seen so far

    function Now(): Config
      reads this
    {
      Config(currentState, trace)
    }

    constructor (table: Table, callbacks: Callbacks, initialState: Word)
      ensures this.table == table && this.callbacks == callbacks
      ensures Now() == Config(initialState, []) && pendingEvents == [] && posted == 0
    {
      this.table, this.callbacks := table, callbacks;
      currentState, pendingEvents, posted, trace := initialState, [], 0, [];
    }

    method Schedule(event: Word)
      modifies this`pendingEvents, this`posted
      ensures pendingEvents == old(pendingEvents) + [event] && posted == old(posted) + 1
    {
      pendingEvents := pendingEvents + [event];
      posted := posted + 1;
    }

    /** Records a moment and lets the callback it invokes push its events. */
    method Observe(m: Moment)
      modifies this`trace, this`pendingEvents
      ensures trace == old(trace) + [m]
      ensures pendingEvents == old(pendingEvents) + PushedSince(callbacks, trace, |old(trace)|)
    {
      trace := trace + [m];
      assert trace[..|trace| - 1] == old(trace);
      if Invokes(m) {
        pendingEvents := pendingEvents + callbacks(trace);
      }
    }

    method DealWithStateLeaveAndEnter(oldState: Word, newState: Word)
      modifies this`trace, this`pendingEvents
      ensures trace == old(trace) + if oldState == newState then []
                                    else [Left(oldState, ActionOn(table.leave, oldState)),
                                          Entered(newState, ActionOn(table.enter, newState))]
      ensures pendingEvents == old(pendingEvents) + PushedSince(callbacks, trace, |old(trace)|)
    {
      if oldState == newState {
        return;
      }
      Observe(Left(oldState, ActionOn(table.leave, oldState)));
      Observe(Entered(newState, ActionOn(table.enter, newState)));
      PushedSplits(callbacks, trace, |old(trace)|, |old(trace)| + 1);
    }

    /** Takes one event from the queue and reacts to it. */
    method ReactToNext()
      requires pendingEvents != []
      modifies this`currentState, this`trace, this`pendingEvents
      ensures Now() == React(table, old(Now()), old(pendingEvents)[0])
      ensures pendingEvents == old(pendingEvents)[1..] + PushedSince(callbacks, trace, |old(trace)|)
    {
      hide TransitionIndex, PushedSince;
      PushedNothing(callbacks, trace);
      var event := pendingEvents[0];
      pendingEvents := pendingEvents[1..];
      var oldState := currentState;
      var newState := oldState;
      var key := TransitionIndex(oldState, event);
      if key in table.transitions {
        if table.transitions[key].action.Some? {
          Observe(Acted(table.transitions[key].action.value, event));
        }
        newState := table.transitions[key].next;
        currentState := newState;
      }
      ghost var mid := |trace|;
      DealWithStateLeaveAndEnter(oldState, newState);
      PushedSplits(callbacks, trace, |old(trace)|, mid);
      assert trace[..mid] == old(trace) + trace[|old(trace)|..mid];
    }

    /** One task: at most 100 events, fewer only if the queue runs dry. It empties the queue exactly if
        what was pending and what the callbacks pushed come to no more than that. */
    method ScheduleInner() returns (ghost popped: seq<Word>)
      modifies this`currentState, this`trace, this`pendingEvents
      ensures |popped| <= 100 && (|popped| < 100 ==> pendingEvents == [])
      ensures Now() == Fold(table, old(Now()), popped)
      ensures old(trace) <= trace
      ensures popped + pendingEvents == old(pendingEvents) + PushedSince(callbacks, trace, |old(trace)|)
      ensures pendingEvents == [] <==>
              |old(pendingEvents)| + |PushedSince(callbacks, trace, |old(trace)|)| <= 100
    {
      hide React, Fold, TransitionIndex, PushedSince;
      popped := [];
      FoldNone(table, Now());
      PushedNothing(callbacks, trace);
      var runTimes := 0;
      while runTimes < MAX_SCHEDULE_TIMES
        invariant |popped| == runTimes <= MAX_SCHEDULE_TIMES
        invariant Now() == Fold(table, old(Now()), popped)
        invariant old(trace) <= trace
        invariant popped + pendingEvents == old(pendingEvents) + PushedSince(callbacks, trace, |old(trace)|)
      {
        if pendingEvents == [] {
          break;
        }
        ghost var event, state, before, queue := pendingEvents[0], currentState, trace, pendingEvents;
        ReactToNext();
        ReactExtendsTrace(table, Config(state, before), event);
        PushedSplits(callbacks, trace, |old(trace)|, |before|);
        assert trace[..|before|] == before;
        FoldOneMore(table, old(Now()), popped, event);
        ghost var more := PushedSince(callbacks, trace, |before|);
        ghost var earlier := PushedSince(callbacks, before, |old(trace)|);
        assert popped + [event] + (queue[1..] + more) == popped + queue + more;
        assert old(pendingEvents) + earlier + more == old(pendingEvents) + (earlier + more);
        popped := popped + [event];
        runTimes := runTimes + 1;
      }
      assert |popped| + |pendingEvents| == |old(pendingEvents)| + |PushedSince(callbacks, trace, |old(trace)|)|;
    }
  }
}
