/** That a machine goes where it was asked to go, over its tasks and over all of its runs. */
module StateMachineRequests {
  import opened Common
  import opened PackedKeys
  import opened StateMachines
  import opened StateMachineBuilders
  import R = StateMachineRuns

  /** `path` takes the events one at a time, each as the requests ask for. */
  ghost predicate Follows(rs: seq<Request>, path: seq<Config>, events: seq<Word>) {
    |path| == |events| + 1 && forall k | 0 <= k < |events| :: Responds(rs, path[k], events[k], path[k + 1])
  }

  /** What one task, or any number of them, makes of the events it takes: from where the machine is, one
      response after the other. */
  lemma {:induction false} FoldFollows(t: Table, rs: seq<Request>, c: Config, events: seq<Word>)
    returns (path: seq<Config>)
    requires Answers(t, rs)
    ensures Follows(rs, path, events) && path[0] == c && path[|events|] == Fold(t, c, events)
  {
    hide Answers, Responds, React;
    if events == [] {
      path := [c];
    } else {
      var n := |events| - 1;
      var front := FoldFollows(t, rs, c, events[..n]);
      ReactResponds(t, rs, front[n], events[n]);
      path := front + [Fold(t, c, events)];
      forall k | 0 <= k < |events|
        ensures Responds(rs, path[k], events[k], path[k + 1])
      {
        assert k < n ==> Responds(rs, front[k], events[..n][k], front[k + 1]);
      }
    }
  }

  /** Two such paths from one place are the same. */
  lemma {:induction false} PathIsUnique(rs: seq<Request>, a: seq<Config>, b: seq<Config>, events: seq<Word>)
    requires Follows(rs, a, events) && Follows(rs, b, events) && a[0] == b[0]
    ensures a == b
    decreases |events|
  {
    hide Responds;
    if events != [] {
      assert Responds(rs, a[0], events[0], a[1]) && Responds(rs, b[0], events[0], b[1]);
      ResponseIsUnique(rs, a[0], events[0], a[1], b[1]);
      PathIsUnique(rs, a[1..], b[1..], events[1..]);
      assert a == [a[0]] + a[1..] && b == [b[0]] + b[1..];
    }
  }

  /** In every run, however tasks batch the events and whoever pushes in between, a machine whose table
      answers the requests is, between two reactions, where a path along the popped events leads. */
  lemma RunFollowsRequests(t: Table, rs: seq<Request>, cb: Callbacks, state: Word, steps: seq<R.Step>)
    returns (path: seq<Config>)
    requires Answers(t, rs) && R.Possible(t, cb, R.Init(state), steps)
    ensures var s := R.Run(t, cb, R.Init(state), steps);
            && Follows(rs, path, s.popped) && path[0] == Config(state, [])
            && path[|s.popped|] == R.Complete(s.config, s.todo)
            && (s.running == None ==> path[|s.popped|] == s.config)
  {
    R.RunIsFold(t, cb, state, steps);
    hide R.Run, R.Possible, Answers, Follows;
    path := FoldFollows(t, rs, Config(state, []), R.Run(t, cb, R.Init(state), steps).popped);
  }
}
