/** What it is to pick some elements out of a list, keeping their order: the reading of a filter that
    names no loop. */
module Selections {

  /** Positions, each further on than the one before. */
  ghost predicate Ascending(at: seq<int>) {
    forall i, j :: 0 <= i < j < |at| ==> at[i] < at[j]
  }

  /** r is what s has at the positions `at`, which are the chosen ones. */
  ghost predicate PickedAt<T>(r: seq<T>, s: seq<T>, chosen: set<int>, at: seq<int>) {
    && |at| == |r| && Ascending(at)
    && (forall i :: 0 <= i < |at| ==> at[i] in chosen && 0 <= at[i] < |s| && r[i] == s[at[i]])
    && (forall k :: k in chosen ==> k in at)
  }

  /** r is s without the elements that are not chosen. */
  ghost predicate PicksOut<T>(r: seq<T>, s: seq<T>, chosen: set<int>) {
    exists at: seq<int> :: PickedAt(r, s, chosen, at)
  }

  lemma NothingPicked<T>(s: seq<T>)
    ensures PicksOut([], s, {})
  {
    assert PickedAt([], s, {}, []);
  }

  lemma PickedSkips<T>(r: seq<T>, s: seq<T>, chosen: set<int>, x: T)
    requires PicksOut(r, s, chosen)
    ensures PicksOut(r, s + [x], chosen)
  {
    var at: seq<int> :| PickedAt(r, s, chosen, at);
    assert PickedAt(r, s + [x], chosen, at);
  }

  lemma PickedTakes<T>(r: seq<T>, s: seq<T>, chosen: set<int>, x: T)
    requires PicksOut(r, s, chosen)
    ensures PicksOut(r + [x], s + [x], chosen + {|s|})
  {
    var at: seq<int> :| PickedAt(r, s, chosen, at);
    TakenAt(r, s, chosen, x, at);
    assert PickedAt(r + [x], s + [x], chosen + {|s|}, at + [|s|]);
  }

  lemma TakenAt<T>(r: seq<T>, s: seq<T>, chosen: set<int>, x: T, at: seq<int>)
    requires PickedAt(r, s, chosen, at)
    ensures PickedAt(r + [x], s + [x], chosen + {|s|}, at + [|s|])
  {
    var at' := at + [|s|];
    forall i | 0 <= i < |at'|
      ensures at'[i] in chosen + {|s|} && 0 <= at'[i] < |s + [x]| && (r + [x])[i] == (s + [x])[at'[i]] {
      if i < |at| {
        assert at'[i] == at[i] && (r + [x])[i] == r[i];
      }
    }
    forall k | k in chosen + {|s|} ensures k in at' {
      if k == |s| {
        assert at'[|at|] == |s|;
      } else {
        assert k in at;
      }
    }
  }

  /** One element more, picked or not. */
  lemma PickedOneMore<T>(r: seq<T>, s: seq<T>, chosen: set<int>, x: T, take: bool, r': seq<T>, chosen': set<int>)
    requires PicksOut(r, s, chosen)
    requires r' == if take then r + [x] else r
    requires chosen' == if take then chosen + {|s|} else chosen
    ensures PicksOut(r', s + [x], chosen')
  {
    if take {
      PickedTakes(r, s, chosen, x);
    } else {
      PickedSkips(r, s, chosen, x);
    }
  }

  /** Picking leaves no choice: the chosen positions determine the result. */
  lemma PickedOnce<T>(r: seq<T>, r': seq<T>, s: seq<T>, chosen: set<int>)
    requires PicksOut(r, s, chosen) && PicksOut(r', s, chosen)
    ensures r == r'
  {
    var at: seq<int> :| PickedAt(r, s, chosen, at);
    var at': seq<int> :| PickedAt(r', s, chosen, at');
    SameAscent(at, at');
  }

  lemma {:induction false} SameAscent(a: seq<int>, b: seq<int>)
    requires Ascending(a) && Ascending(b) && forall k :: k in a <==> k in b
    ensures a == b
  {
    assert a != [] ==> a[|a| - 1] in a;
    assert b != [] ==> b[|b| - 1] in b;
    if a != [] {
      var m := a[|a| - 1];
      LastIsGreatest(a);
      LastIsGreatest(b);
      var front, front' := a[..|a| - 1], b[..|b| - 1];
      assert a == front + [m] && b == front' + [m];
      forall k ensures k in front <==> k in front' {
        assert k in a <==> k in b;
      }
      SameAscent(front, front');
    }
  }

  lemma LastIsGreatest(a: seq<int>)
    requires a != [] && Ascending(a)
    ensures forall k :: k in a ==> k <= a[|a| - 1]
    ensures a[|a| - 1] !in a[..|a| - 1]
  {
  }
}
