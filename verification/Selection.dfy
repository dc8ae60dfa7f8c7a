/** Splitting a sequence by a verdict on each of its positions. */
module Selection {

  /** The elements among the first `n` whose verdict is `side`, in their old order. */
  function Select<T>(s: seq<T>, verdict: seq<bool>, n: nat, side: bool): seq<T>
    requires n <= |s| == |verdict|
  {
    if n == 0 then []
    else Select(s, verdict, n - 1, side) + if verdict[n - 1] == side then [s[n - 1]] else []
  }

  function Elems<T>(s: seq<T>): set<T> {
    set x | x in s
  }

  lemma ElemsOfConcat<T>(s: seq<T>, t: seq<T>)
    ensures Elems(s + t) == Elems(s) + Elems(t)
  {
  }

  lemma ElemsOfPrefix<T>(s: seq<T>, n: nat)
    requires n < |s|
    ensures Elems(s[..n + 1]) == Elems(s[..n]) + {s[n]}
  {
    assert s[..n + 1] == s[..n] + [s[n]];
  }

  lemma ElemsOfSelect<T>(s: seq<T>, verdict: seq<bool>, n: nat, side: bool)
    requires 0 < n <= |s| == |verdict|
    ensures Elems(Select(s, verdict, n, side)) ==
            Elems(Select(s, verdict, n - 1, side)) + if verdict[n - 1] == side then {s[n - 1]} else {}
    ensures |Select(s, verdict, n, side)| == |Select(s, verdict, n - 1, side)| + if verdict[n - 1] == side then 1 else 0
  {
    ElemsOfConcat(Select(s, verdict, n - 1, side), if verdict[n - 1] == side then [s[n - 1]] else []);
  }

  lemma Regroup<T>(a: set<T>, b: set<T>, x: set<T>)
    ensures a + x + b == a + b + x == a + (b + x)
    ensures a + {} == a && b + {} == b
  {
  }

  lemma {:induction false} SplitCounts<T>(s: seq<T>, verdict: seq<bool>, n: nat)
    requires n <= |s| == |verdict|
    ensures |Select(s, verdict, n, true)| + |Select(s, verdict, n, false)| == n
    ensures Elems(Select(s, verdict, n, true)) + Elems(Select(s, verdict, n, false)) == Elems(s[..n])
  {
    if n > 0 {
      hide Elems, Select;
      SplitCounts(s, verdict, n - 1);
      ElemsOfPrefix(s, n - 1);
      ElemsOfSelect(s, verdict, n, true);
      ElemsOfSelect(s, verdict, n, false);
      var chosen, others := Elems(Select(s, verdict, n - 1, true)), Elems(Select(s, verdict, n - 1, false));
      Regroup(chosen, others, {s[n - 1]});
      assert s[..n] == s[..n - 1 + 1];
    }
  }

  /** Where the element at place `x` of one side comes from. Everything of that side before it comes
      from before, and everything from before is on the other side or before it on this one. */
  lemma {:induction false} SelectedFrom<T>(s: seq<T>, verdict: seq<bool>, n: nat, side: bool, x: nat) returns (i: nat)
    requires n <= |s| == |verdict| && x < |Select(s, verdict, n, side)|
    ensures i < n && verdict[i] == side && Select(s, verdict, n, side)[x] == s[i]
    ensures Elems(Select(s, verdict, n, side)[..x]) <= Elems(s[..i])
    ensures Elems(s[..i]) <= Elems(Select(s, verdict, n, side)[..x]) + Elems(Select(s, verdict, n, !side))
  {
    var shorter, longer := Select(s, verdict, n - 1, side), Select(s, verdict, n, side);
    assert Select(s, verdict, n - 1, !side) <= Select(s, verdict, n, !side);
    if x < |shorter| {
      i := SelectedFrom(s, verdict, n - 1, side, x);
      assert longer[..x] == shorter[..x];
    } else {
      i := n - 1;
      SplitCounts(s, verdict, n - 1);
      assert longer[..x] == shorter;
    }
  }

  lemma {:induction false} SelectedInOrder<T>(s: seq<T>, verdict: seq<bool>, n: nat, side: bool, x: nat, y: nat)
    returns (i: nat, j: nat)
    requires n <= |s| == |verdict| && x < y < |Select(s, verdict, n, side)|
    ensures i < j < n && verdict[i] == verdict[j] == side
    ensures Select(s, verdict, n, side)[x] == s[i] && Select(s, verdict, n, side)[y] == s[j]
  {
    if y < |Select(s, verdict, n - 1, side)| {
      i, j := SelectedInOrder(s, verdict, n - 1, side, x, y);
    } else {
      i := SelectedFrom(s, verdict, n - 1, side, x);
      j := n - 1;
    }
  }

  lemma {:induction false} SelectedHas<T>(s: seq<T>, verdict: seq<bool>, n: nat, i: nat)
    requires i < n <= |s| == |verdict|
    ensures s[i] in Select(s, verdict, n, verdict[i])
  {
    if i < n - 1 {
      SelectedHas(s, verdict, n - 1, i);
    }
  }

  lemma {:induction false} SelectNone<T>(s: seq<T>, verdict: seq<bool>, n: nat, side: bool)
    requires n <= |s| == |verdict|
    requires forall i | 0 <= i < n :: verdict[i] != side
    ensures Select(s, verdict, n, side) == [] && Select(s, verdict, n, !side) == s[..n]
  {
    if n > 0 {
      SelectNone(s, verdict, n - 1, side);
      assert s[..n] == s[..n - 1] + [s[n - 1]];
    }
  }

  /** `r` grows by the chosen part of `s`; two places of the new pair of sequences come from two
      places of the old pair. */
  lemma OldPlaces<T>(r: seq<T>, s: seq<T>, verdict: seq<bool>, x: nat, y: nat) returns (i: nat, j: nat)
    requires |s| == |verdict| && x < y < |r| + |s|
    ensures |Select(s, verdict, |s|, true)| + |Select(s, verdict, |s|, false)| == |s|
    ensures i < |r| + |s| && j < |r| + |s| && i != j
    ensures var t := r + Select(s, verdict, |s|, true) + Select(s, verdict, |s|, false);
            t[x] == (r + s)[i] && t[y] == (r + s)[j]
    ensures x < |r| ==> i == x
  {
    SplitCounts(s, verdict, |s|);
    var m := |r| + |Select(s, verdict, |s|, true)|;
    if |r| <= x && y < m {
      i, j := SelectedInOrder(s, verdict, |s|, true, x - |r|, y - |r|);
      i, j := |r| + i, |r| + j;
    } else if m <= x {
      i, j := SelectedInOrder(s, verdict, |s|, false, x - m, y - m);
      i, j := |r| + i, |r| + j;
    } else {
      i := OldPlace(r, s, verdict, x);
      j := OldPlace(r, s, verdict, y);
    }
  }

  lemma OldPlace<T>(r: seq<T>, s: seq<T>, verdict: seq<bool>, x: nat) returns (i: nat)
    requires |s| == |verdict| && x < |r| + |s|
    ensures |Select(s, verdict, |s|, true)| + |Select(s, verdict, |s|, false)| == |s|
    ensures i < |r| + |s|
    ensures (r + Select(s, verdict, |s|, true) + Select(s, verdict, |s|, false))[x] == (r + s)[i]
    ensures x < |r| ==> i == x
    ensures |r| <= x ==> |r| <= i && (x < |r| + |Select(s, verdict, |s|, true)| <==> verdict[i - |r|])
  {
    SplitCounts(s, verdict, |s|);
    var m := |r| + |Select(s, verdict, |s|, true)|;
    if x < |r| {
      i := x;
    } else {
      i := SelectedFrom(s, verdict, |s|, x < m, if x < m then x - |r| else x - m);
      i := |r| + i;
    }
  }
}
