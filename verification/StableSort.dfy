/** The sort both the engine and the scorer end with: stable, highest priority first. */
module StableSort {
  import opened Observations

  /** x goes after everything of its own priority or higher. */
  function Insert(s: seq<Observation>, x: Observation): (r: seq<Observation>)
    ensures |r| == |s| + 1
  {
    if s == [] || s[|s| - 1].priority >= x.priority then s + [x]
    else Insert(s[..|s| - 1], x) + [s[|s| - 1]]
  }

  function Sort(s: seq<Observation>): (r: seq<Observation>)
    ensures |r| == |s|
  {
    if s == [] then [] else Insert(Sort(s[..|s| - 1]), s[|s| - 1])
  }

  ghost predicate Descending(s: seq<Observation>) {
    forall i, j :: 0 <= i < j < |s| ==> s[i].priority >= s[j].priority
  }

  /** The observations of one priority, in the order they stand in. */
  ghost function Level(s: seq<Observation>, p: int): seq<Observation> {
    if s == [] then []
    else Level(s[..|s| - 1], p) + (if s[|s| - 1].priority == p then [s[|s| - 1]] else [])
  }

  lemma LevelOfSnoc(s: seq<Observation>, x: Observation, p: int)
    ensures Level(s + [x], p) == Level(s, p) + (if x.priority == p then [x] else [])
  {
  }

  lemma {:induction false} InsertMembers(s: seq<Observation>, x: Observation)
    ensures multiset(Insert(s, x)) == multiset(s) + multiset{x}
    ensures forall o :: o in Insert(s, x) <==> o in s || o == x
  {
    if !(s == [] || s[|s| - 1].priority >= x.priority) {
      assert s == s[..|s| - 1] + [s[|s| - 1]];
      InsertMembers(s[..|s| - 1], x);
    }
  }

  lemma {:induction false} InsertSorted(s: seq<Observation>, x: Observation)
    requires Descending(s)
    ensures Descending(Insert(s, x))
    ensures multiset(Insert(s, x)) == multiset(s) + multiset{x}
  {
    InsertMembers(s, x);
    if !(s == [] || s[|s| - 1].priority >= x.priority) {
      var front, last := s[..|s| - 1], s[|s| - 1];
      InsertSorted(front, x);
      InsertMembers(front, x);
      var r := Insert(front, x);
      forall i | 0 <= i < |r| ensures r[i].priority >= last.priority {
        assert r[i] in r;
      }
    }
  }

  lemma {:induction false} InsertLevel(s: seq<Observation>, x: Observation, p: int)
    requires Descending(s)
    ensures Level(Insert(s, x), p) == Level(s, p) + (if x.priority == p then [x] else [])
  {
    if s == [] || s[|s| - 1].priority >= x.priority {
      LevelOfSnoc(s, x, p);
    } else {
      var last, front := s[|s| - 1], s[..|s| - 1];
      InsertLevel(front, x, p);
      LevelOfSnoc(Insert(front, x), last, p);
      LastStaysLast(Level(front, p), if x.priority == p then [x] else [], if last.priority == p then [last] else []);
    }
  }

  /** Two that are not of one level do not overtake each other in any. */
  lemma LastStaysLast(l: seq<Observation>, a: seq<Observation>, b: seq<Observation>)
    requires a == [] || b == []
    ensures l + a + b == l + b + a
  {
  }

  /** The result holds the same observations, highest priority first, and keeps the order of equals. */
  lemma {:induction false} SortCorrect(s: seq<Observation>)
    ensures Descending(Sort(s))
    ensures multiset(Sort(s)) == multiset(s)
    ensures forall p :: Level(Sort(s), p) == Level(s, p)
  {
    if s != [] {
      var front, x := s[..|s| - 1], s[|s| - 1];
      assert s == front + [x];
      SortCorrect(front);
      InsertSorted(Sort(front), x);
      forall p ensures Level(Sort(s), p) == Level(s, p) {
        InsertLevel(Sort(front), x, p);
      }
    }
  }

  lemma {:induction false} LevelMembers(s: seq<Observation>, p: int)
    ensures forall o :: o in Level(s, p) ==> o in s && o.priority == p
    ensures forall o :: o in s && o.priority == p ==> o in Level(s, p)
  {
    if s != [] {
      LevelMembers(s[..|s| - 1], p);
      assert s == s[..|s| - 1] + [s[|s| - 1]];
    }
  }

  ghost predicate SameLevels(s: seq<Observation>, t: seq<Observation>) {
    forall p :: Level(s, p) == Level(t, p)
  }

  lemma SameLevelsSameMembers(s: seq<Observation>, t: seq<Observation>, o: Observation)
    requires SameLevels(s, t)
    ensures o in s <==> o in t
  {
    LevelMembers(s, o.priority);
    LevelMembers(t, o.priority);
  }

  lemma LastOfLevel(s: seq<Observation>)
    requires s != []
    ensures var l := Level(s, s[|s| - 1].priority); l != [] && l[|l| - 1] == s[|s| - 1]
  {
  }

  lemma SameLevelsSameLast(s: seq<Observation>, t: seq<Observation>)
    requires Descending(s) && Descending(t) && s != [] && t != []
    requires SameLevels(s, t)
    ensures s[|s| - 1] == t[|t| - 1]
  {
    var x, y := s[|s| - 1], t[|t| - 1];
    SameLevelsSameMembers(s, t, x);
    SameLevelsSameMembers(s, t, y);
    assert x.priority == y.priority;
    LastOfLevel(s);
    LastOfLevel(t);
  }

  lemma SameLevelsOfFronts(s: seq<Observation>, t: seq<Observation>, x: Observation)
    requires SameLevels(s + [x], t + [x])
    ensures SameLevels(s, t)
  {
    forall p ensures Level(s, p) == Level(t, p) {
      LevelOfSnoc(s, x, p);
      LevelOfSnoc(t, x, p);
      var l, suffix := Level(s + [x], p), if x.priority == p then [x] else [];
      assert Level(s, p) == l[..|l| - |suffix|];
      assert Level(t, p) == l[..|l| - |suffix|];
    }
  }

  /** Any arrangement with those properties is this one: a stable sort has no freedom left. */
  lemma {:induction false} SortUnique(s: seq<Observation>, t: seq<Observation>)
    requires Descending(s) && Descending(t)
    requires SameLevels(s, t)
    ensures s == t
  {
    BothOrNeitherEmpty(s, t);
    if s != [] {
      SameLevelsSameLast(s, t);
      SameLevelsOfTheFronts(s, t);
      SortUnique(s[..|s| - 1], t[..|t| - 1]);
      assert s == s[..|s| - 1] + [s[|s| - 1]] && t == t[..|t| - 1] + [t[|t| - 1]];
    }
  }

  lemma BothOrNeitherEmpty(s: seq<Observation>, t: seq<Observation>)
    requires SameLevels(s, t)
    ensures s == [] <==> t == []
  {
    if s != [] {
      SameLevelsSameMembers(s, t, s[0]);
    }
    if t != [] {
      SameLevelsSameMembers(s, t, t[0]);
    }
  }

  lemma SameLevelsOfTheFronts(s: seq<Observation>, t: seq<Observation>)
    requires s != [] && t != [] && SameLevels(s, t) && s[|s| - 1] == t[|t| - 1]
    ensures SameLevels(s[..|s| - 1], t[..|t| - 1])
  {
    var x, s', t' := s[|s| - 1], s[..|s| - 1], t[..|t| - 1];
    assert s == s' + [x] && t == t' + [x];
    SameLevelsOfFronts(s', t', x);
  }

  /** What the callers need of a permutation: the ids, which are actionable, and that none doubles. */
  lemma {:induction false} SortKeepsIds(s: seq<Observation>)
    ensures forall o :: o in Sort(s) <==> o in s
    ensures Ids(Sort(s)) == Ids(s) && ActionableIds(Sort(s)) == ActionableIds(s)
    ensures Distinct(s) ==> Distinct(Sort(s))
  {
    SortCorrect(s);
    forall o ensures o in Sort(s) <==> o in s {
      assert o in multiset(Sort(s)) <==> o in multiset(s);
    }
    SameMembersSameIds(s, Sort(s));
    if Distinct(s) {
      SortKeepsDistinct(s);
    }
  }

  lemma {:induction false} InsertKeepsDistinct(s: seq<Observation>, x: Observation)
    ensures Distinct(Insert(s, x)) <==> Distinct(s) && x.id !in Ids(s)
    ensures Ids(Insert(s, x)) == Ids(s) + {x.id}
  {
    if s == [] || s[|s| - 1].priority >= x.priority {
      SnocIds(s, x);
      SnocDistinct(s, x);
    } else {
      var last, front := s[|s| - 1], s[..|s| - 1];
      assert s == front + [last];
      InsertKeepsDistinct(front, x);
      SnocIds(front, last);
      SnocIds(Insert(front, x), last);
      SnocDistinct(front, last);
      SnocDistinct(Insert(front, x), last);
    }
  }

  lemma {:induction false} SortKeepsDistinct(s: seq<Observation>)
    requires Distinct(s)
    ensures Distinct(Sort(s)) && Ids(Sort(s)) == Ids(s)
  {
    if s != [] {
      var front, x := s[..|s| - 1], s[|s| - 1];
      assert s == front + [x];
      SnocDistinct(front, x);
      SortKeepsDistinct(front);
      InsertKeepsDistinct(Sort(front), x);
    }
  }
}
