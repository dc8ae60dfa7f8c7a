/** The builder: a table with packed keys that stands for the transitions that were asked for. */
module StateMachineBuilders {
  import opened Common
  import opened PackedKeys
  import opened StateMachines

  /** One call on the builder. */
  datatype Request =
    | OnEvent(state: Word, event: Word, next: Word, action: Option<ActionId>)
    | OnEnter(state: Word, action: Option<ActionId>)
    | OnLeave(state: Word, action: Option<ActionId>)

  predicate Clash(a: Request, b: Request) {
    match a
    case OnEvent(s, e, _, _) => b.OnEvent? && b.state == s && b.event == e
    case OnEnter(s, _) => b.OnEnter? && b.state == s
    case OnLeave(s, _) => b.OnLeave? && b.state == s
  }

  predicate NoDuplicates(rs: seq<Request>) {
    forall i, j | 0 <= i < j < |rs| :: !Clash(rs[i], rs[j])
  }

  /** The first request a given one clashes with, if any. */
  function FirstClash(rs: seq<Request>, r: Request): Option<Request> {
    if rs == [] then None
    else
      var earlier := FirstClash(rs[..|rs| - 1], r);
      if earlier.Some? then earlier else if Clash(rs[|rs| - 1], r) then Some(rs[|rs| - 1]) else None
  }

  lemma {:induction false} FirstClashIff(rs: seq<Request>, r: Request)
    ensures FirstClash(rs, r).Some? <==> exists i | 0 <= i < |rs| :: Clash(rs[i], r)
    ensures FirstClash(rs, r).Some? ==> Clash(FirstClash(rs, r).value, r) && FirstClash(rs, r).value in rs
  {
    if rs != [] {
      FirstClashIff(rs[..|rs| - 1], r);
    }
  }

  /** The table answers every state and event as the first request for that pair says, and likewise
      the enter and leave actions. */
  ghost predicate Answers(t: Table, rs: seq<Request>) {
    && (forall s, e :: TransitionsAgree(t, rs, s, e))
    && (forall s :: HooksAgree(t, rs, s))
  }

  ghost predicate TransitionsAgree(t: Table, rs: seq<Request>, s: Word, e: Word) {
    var first := FirstClash(rs, OnEvent(s, e, 0, None));
    && (TransitionIndex(s, e) in t.transitions <==> first.Some?)
    && (first.Some? ==> first.value.OnEvent?)
    && (first.Some? ==> t.transitions[TransitionIndex(s, e)] == Transition(first.value.next, first.value.action))
  }

  ghost predicate HooksAgree(t: Table, rs: seq<Request>, s: Word) {
    var onEnter, onLeave := FirstClash(rs, OnEnter(s, None)), FirstClash(rs, OnLeave(s, None));
    && (s in t.enter <==> onEnter.Some?) && (onEnter.Some? ==> t.enter[s] == onEnter.value.action)
    && (s in t.leave <==> onLeave.Some?) && (onLeave.Some? ==> t.leave[s] == onLeave.value.action)
  }

  /** Emplacing one more request: it counts only if nothing it clashes with is there. */
  function Emplaced(t: Table, r: Request): Table {
    match r
    case OnEvent(s, e, next, action) =>
      var key := TransitionIndex(s, e);
      if key in t.transitions then t else t.(transitions := t.transitions[key := Transition(next, action)])
    case OnEnter(s, action) => if s in t.enter then t else t.(enter := t.enter[s := action])
    case OnLeave(s, action) => if s in t.leave then t else t.(leave := t.leave[s := action])
  }

  lemma EmplacedAnswers(t: Table, rs: seq<Request>, r: Request)
    requires Answers(t, rs)
    ensures Answers(Emplaced(t, r), rs + [r])
  {
    var more := rs + [r];
    forall s: Word, e: Word
      ensures TransitionsAgree(Emplaced(t, r), more, s, e)
    {
      assert TransitionsAgree(t, rs, s, e);
      FirstClashOneMore(rs, r, OnEvent(s, e, 0, None));
      if r.OnEvent? {
        assert TransitionsAgree(t, rs, r.state, r.event);
        TransitionIndexIsInjective(s, e, r.state, r.event);
        SameProbe(rs, s, e, r);
      }
    }
    forall s: Word
      ensures HooksAgree(Emplaced(t, r), more, s)
    {
      assert HooksAgree(t, rs, s);
      FirstClashOneMore(rs, r, OnEnter(s, None));
      FirstClashOneMore(rs, r, OnLeave(s, None));
    }
  }

  lemma FirstClashOneMore(rs: seq<Request>, r: Request, probe: Request)
    ensures FirstClash(rs + [r], probe) ==
            if FirstClash(rs, probe).Some? then FirstClash(rs, probe)
            else if Clash(r, probe) then Some(r) else None
  {
    assert (rs + [r])[..|rs|] == rs;
  }

  lemma SameProbe(rs: seq<Request>, s: Word, e: Word, r: Request)
    requires r.OnEvent?
    ensures r.state == s && r.event == e ==> FirstClash(rs, r) == FirstClash(rs, OnEvent(s, e, 0, None))
  {
    if r.state == s && r.event == e {
      ProbeByPair(rs, r, OnEvent(s, e, 0, None));
    }
  }

  lemma {:induction false} ProbeByPair(rs: seq<Request>, a: Request, b: Request)
    requires forall x :: Clash(x, a) == Clash(x, b)
    ensures FirstClash(rs, a) == FirstClash(rs, b)
  {
    if rs != [] {
      ProbeByPair(rs[..|rs| - 1], a, b);
    }
  }

  // ----- What a table that answers makes of an event -----

  /** `rs[i]` asks for that state and event, and none before it does. */
  ghost predicate FirstFor(rs: seq<Request>, i: nat, s: Word, e: Word)
    requires i < |rs|
  {
    && rs[i].OnEvent? && rs[i].state == s && rs[i].event == e
    && forall j | 0 <= j < i :: !(rs[j].OnEvent? && rs[j].state == s && rs[j].event == e)
  }

  /** `action` is what the first request for leaving `s` asks for, or none if there is no such request. */
  ghost predicate OnLeaving(rs: seq<Request>, s: Word, action: Option<ActionId>) {
    || (action == None && forall j | 0 <= j < |rs| :: !(rs[j].OnLeave? && rs[j].state == s))
    || exists i | 0 <= i < |rs| :: rs[i] == OnLeave(s, action)
                                   && forall j | 0 <= j < i :: !(rs[j].OnLeave? && rs[j].state == s)
  }

  ghost predicate OnEntering(rs: seq<Request>, s: Word, action: Option<ActionId>) {
    || (action == None && forall j | 0 <= j < |rs| :: !(rs[j].OnEnter? && rs[j].state == s))
    || exists i | 0 <= i < |rs| :: rs[i] == OnEnter(s, action)
                                   && forall j | 0 <= j < i :: !(rs[j].OnEnter? && rs[j].state == s)
  }

  /** From `c` to `d` the machine has taken `event` the way the first request for its state and that event
      asks for: to the requested state, with the requested action first, and then, if the state is another
      one, leaving the old state and entering the new one. With no such request nothing happens. */
  ghost predicate Responds(rs: seq<Request>, c: Config, event: Word, d: Config) {
    && ((forall i | 0 <= i < |rs| :: !FirstFor(rs, i, c.state, event)) ==> d == c)
    && forall i | 0 <= i < |rs| && FirstFor(rs, i, c.state, event) ::
         && d.state == rs[i].next
         && exists leave, enter | OnLeaving(rs, c.state, leave) && OnEntering(rs, d.state, enter) ::
              d.trace == c.trace + (if rs[i].action.Some? then [Acted(rs[i].action.value, event)] else [])
                         + if d.state == c.state then [] else [Left(c.state, leave), Entered(d.state, enter)]
  }

  lemma {:induction false} FirstClashIsFirst(rs: seq<Request>, probe: Request) returns (i: nat)
    requires FirstClash(rs, probe).Some?
    ensures i < |rs| && rs[i] == FirstClash(rs, probe).value && Clash(rs[i], probe)
    ensures forall j | 0 <= j < i :: !Clash(rs[j], probe)
  {
    var n := |rs| - 1;
    if FirstClash(rs[..n], probe).Some? {
      i := FirstClashIsFirst(rs[..n], probe);
    } else {
      i := n;
      FirstClashIff(rs[..n], probe);
      forall j | 0 <= j < n
        ensures !Clash(rs[j], probe)
      {
        assert rs[..n][j] == rs[j];
      }
    }
  }

  lemma HooksAreFirst(t: Table, rs: seq<Request>, s: Word)
    requires Answers(t, rs)
    ensures OnLeaving(rs, s, ActionOn(t.leave, s)) && OnEntering(rs, s, ActionOn(t.enter, s))
  {
    assert HooksAgree(t, rs, s);
    FirstClashIff(rs, OnLeave(s, None));
    FirstClashIff(rs, OnEnter(s, None));
    if s in t.leave {
      var i := FirstClashIsFirst(rs, OnLeave(s, None));
      assert rs[i] == OnLeave(s, t.leave[s]);
    }
    if s in t.enter {
      var i := FirstClashIsFirst(rs, OnEnter(s, None));
      assert rs[i] == OnEnter(s, t.enter[s]);
    }
  }

  /** A machine whose table answers the requests reacts to every event, in every state, as they ask. */
  lemma ReactResponds(t: Table, rs: seq<Request>, c: Config, event: Word)
    requires Answers(t, rs)
    ensures Responds(rs, c, event, React(t, c, event))
  {
    hide TransitionIndex, OnLeaving, OnEntering, FirstClash, FirstFor, HooksAgree;
    var d := React(t, c, event);
    assert TransitionsAgree(t, rs, c.state, event);
    HooksAreFirst(t, rs, c.state);
    HooksAreFirst(t, rs, d.state);
    forall i | 0 <= i < |rs| && FirstFor(rs, i, c.state, event)
      ensures FirstClash(rs, OnEvent(c.state, event, 0, None)) == Some(rs[i])
    {
      FirstForIsFirst(rs, i, c.state, event);
    }
    if FirstClash(rs, OnEvent(c.state, event, 0, None)).Some? {
      var first := SomeIsFirst(rs, c.state, event);
    }
  }

  lemma FirstForIsFirst(rs: seq<Request>, i: nat, s: Word, e: Word)
    requires i < |rs| && FirstFor(rs, i, s, e)
    ensures FirstClash(rs, OnEvent(s, e, 0, None)) == Some(rs[i])
  {
    var probe := OnEvent(s, e, 0, None);
    FirstClashIff(rs, probe);
    assert Clash(rs[i], probe);
    var first := FirstClashIsFirst(rs, probe);
    assert first == i;
  }

  lemma SomeIsFirst(rs: seq<Request>, s: Word, e: Word) returns (i: nat)
    requires FirstClash(rs, OnEvent(s, e, 0, None)).Some?
    ensures i < |rs| && FirstFor(rs, i, s, e)
  {
    i := FirstClashIsFirst(rs, OnEvent(s, e, 0, None));
  }

  /** The requests leave no choice. */
  lemma ResponseIsUnique(rs: seq<Request>, c: Config, event: Word, d: Config, d': Config)
    requires Responds(rs, c, event, d) && Responds(rs, c, event, d')
    ensures d == d'
  {
    if i :| 0 <= i < |rs| && FirstFor(rs, i, c.state, event) {
      forall leave, leave' | OnLeaving(rs, c.state, leave) && OnLeaving(rs, c.state, leave')
        ensures leave == leave'
      {
      }
      forall enter, enter' | OnEntering(rs, d.state, enter) && OnEntering(rs, d.state, enter')
        ensures enter == enter'
      {
      }
      hide OnLeaving, OnEntering;
    }
  }

  class FiniteStateMachineBuilder {
    const initialState: Word
    var transitionMap: map<nat, Transition>
    var enterMap: map<Word, Option<ActionId>>
    var leaveMap: map<Word, Option<ActionId>>
    var valid: bool
    ghost var requests: seq<Request>
    ghost var built: bool

    function MakeTable(): Table
      reads this
    {
      Table(transitionMap, enterMap, leaveMap)
    }

    ghost predicate Consistent()
      reads this
    {
      && (valid <==> !built && NoDuplicates(requests))
      && (!built ==> Answers(MakeTable(), requests))
    }

    constructor (initialState: Word)
      ensures Consistent() && requests == [] && !built && this.initialState == initialState
    {
      this.initialState := initialState;
      transitionMap, enterMap, leaveMap, valid := map[], map[], map[], true;
      requests, built := [], false;
    }

    method MakeTransition(state: Word, event: Word, next: Word, action: Option<ActionId>)
      requires Consistent()
      modifies this
      ensures Consistent() && built == old(built)
      ensures requests == old(requests) + [OnEvent(state, event, next, action)]
    {
      ghost var r := OnEvent(state, event, next, action);
      AskMore(r, MakeTable());
      var key := TransitionIndex(state, event);
      if key in transitionMap {
        valid := false;
      } else {
        transitionMap := transitionMap[key := Transition(next, action)];
      }
      requests := requests + [r];
    }

    method MakeOnStateEnter(state: Word, action: Option<ActionId>)
      requires Consistent()
      modifies this
      ensures Consistent() && built == old(built)
      ensures requests == old(requests) + [OnEnter(state, action)]
    {
      ghost var r := OnEnter(state, action);
      AskMore(r, MakeTable());
      if state in enterMap {
        valid := false;
      } else {
        enterMap := enterMap[state := action];
      }
      requests := requests + [r];
    }

    method MakeOnStateLeave(state: Word, action: Option<ActionId>)
      requires Consistent()
      modifies this
      ensures Consistent() && built == old(built)
      ensures requests == old(requests) + [OnLeave(state, action)]
    {
      ghost var r := OnLeave(state, action);
      AskMore(r, MakeTable());
      if state in leaveMap {
        valid := false;
      } else {
        leaveMap := leaveMap[state := action];
      }
      requests := requests + [r];
    }

    /** The next request leaves the list free of duplicates exactly if the table has no room taken. */
    lemma AskMore(r: Request, t: Table)
      requires Consistent() && t == MakeTable()
      ensures !built ==> Answers(Emplaced(t, r), requests + [r])
      ensures !built ==> (NoDuplicates(requests + [r]) <==> NoDuplicates(requests) && Emplaced(t, r) != t)
      ensures built ==> !valid
    {
      if !built {
        EmplacedAnswers(t, requests, r);
        OneMoreRequest(t, requests, r);
      }
    }

    /** Gives the machine away, once, and only if no pair was asked for twice. */
    method Build(callbacks: Callbacks) returns (machine: Option<FiniteStateMachine>)
      requires Consistent()
      modifies this
      ensures Consistent() && requests == old(requests)
      ensures machine.Some? <==> !old(built) && NoDuplicates(old(requests))
      ensures machine.Some? ==>
                && built && fresh(machine.value)
                && Answers(machine.value.table, requests)
                && (forall c, e :: Responds(requests, c, e, React(machine.value.table, c, e)))
                && machine.value.Now() == Config(initialState, [])
      ensures machine.None? ==> built == old(built)
    {
      if !valid {
        return None;
      }
      valid := false;
      var m := new FiniteStateMachine(MakeTable(), callbacks, initialState);
      RespondsAlways(m.table, requests);
      transitionMap, enterMap, leaveMap := map[], map[], map[];
      built := true;
      return Some(m);
    }
  }

  lemma RespondsAlways(t: Table, rs: seq<Request>)
    requires Answers(t, rs)
    ensures forall c, e :: Responds(rs, c, e, React(t, c, e))
  {
    forall c, e
      ensures Responds(rs, c, e, React(t, c, e))
    {
      ReactResponds(t, rs, c, e);
    }
  }

  lemma OneMoreRequest(t: Table, rs: seq<Request>, r: Request)
    requires Answers(t, rs)
    ensures NoDuplicates(rs + [r]) <==> NoDuplicates(rs) && Emplaced(t, r) != t
  {
    FirstClashIff(rs, r);
    TakenIff(t, rs, r);
    var more := rs + [r];
    if NoDuplicates(more) {
      forall i, j | 0 <= i < j < |rs|
        ensures !Clash(rs[i], rs[j])
      {
        assert more[i] == rs[i] && more[j] == rs[j];
      }
      forall i | 0 <= i < |rs|
        ensures !Clash(rs[i], r)
      {
        assert more[i] == rs[i] && more[|rs|] == r;
      }
    }
  }

  lemma TakenIff(t: Table, rs: seq<Request>, r: Request)
    requires Answers(t, rs)
    ensures Emplaced(t, r) == t <==> FirstClash(rs, r).Some?
  {
    match r
    case OnEvent(s, e, _, _) =>
      assert TransitionsAgree(t, rs, s, e);
      SameProbe(rs, s, e, r);
    case OnEnter(s, _) =>
      assert HooksAgree(t, rs, s);
      ProbeByPair(rs, r, OnEnter(s, None));
    case OnLeave(s, _) =>
      assert HooksAgree(t, rs, s);
      ProbeByPair(rs, r, OnLeave(s, None));
  }
}
