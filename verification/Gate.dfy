/** The orient half of a tick: what the ranking is made of, when the gate opens, and what a closed
    gate keeps and what it drops. */
module Gate {
  import opened Observations
  import opened Core
  import opened Inventory
  import Scorer
  import StableSort

  // ---------- the ranking stands for the batch ----------

  lemma {:induction false} BoostEachAt(s: seq<Observation>, n: nat, boosts: map<string, int>)
    requires n <= |s|
    ensures forall i :: 0 <= i < n ==> BoostEach(s, n, boosts)[i] == Boost(s[i], boosts)
  {
    if n > 0 {
      BoostEachAt(s, n - 1, boosts);
    }
  }

  lemma BoostKeeps(o: Observation, boosts: map<string, int>)
    ensures Scorer.SameButPriority(o, Boost(o, boosts))
  {
  }

  lemma BoostEachKeepsIds(scored: seq<Observation>, boosts: map<string, int>, each: seq<Observation>)
    requires each == BoostEach(scored, |scored|, boosts)
    ensures |each| == |scored| && forall i :: 0 <= i < |scored| ==> each[i] == Boost(scored[i], boosts)
    ensures Ids(each) == Ids(scored) && ActionableIds(each) == ActionableIds(scored)
    ensures Distinct(scored) ==> Distinct(each)
  {
    BoostEachAt(scored, |scored|, boosts);
    forall i | 0 <= i < |scored| ensures Scorer.SameButPriority(scored[i], each[i]) {
      BoostKeeps(scored[i], boosts);
    }
    Scorer.RelabelKeepsIds(scored, each);
  }

  lemma NoBoosts(scored: seq<Observation>, boosts: map<string, int>)
    requires |boosts| == 0
    ensures BoostEach(scored, |scored|, boosts) == scored
  {
    assert boosts == map[];
    BoostEachAt(scored, |scored|, boosts);
  }

  lemma BoostedMembers(scored: seq<Observation>, boosts: map<string, int>, each: seq<Observation>, r: seq<Observation>)
    requires |each| == |scored| && forall i :: 0 <= i < |scored| ==> each[i] == Boost(scored[i], boosts)
    requires forall o :: o in r <==> o in each
    ensures forall o :: o in r ==> exists i :: 0 <= i < |scored| && o == Boost(scored[i], boosts)
    ensures forall i :: 0 <= i < |scored| ==> Boost(scored[i], boosts) in r
  {
  }

  lemma {:induction false} BoostedSorted(scored: seq<Observation>, boosts: map<string, int>, each: seq<Observation>,
      r: seq<Observation>)
    requires StableSort.Descending(scored)
    requires each == BoostEach(scored, |scored|, boosts) && r == Boosted(scored, boosts)
    ensures |r| == |each| && StableSort.Descending(r) && Ids(r) == Ids(each) && ActionableIds(r) == ActionableIds(each)
    ensures Distinct(each) ==> Distinct(r)
    ensures forall o :: o in r <==> o in each
  {
    if |boosts| == 0 {
      NoBoosts(scored, boosts);
    } else {
      StableSort.SortKeepsIds(each);
      StableSort.SortCorrect(each);
    }
  }

  /** Boosting keeps the ids and leaves the list highest first, with or without boosts in force. */
  lemma {:induction false} BoostedIsSortedPermutation(scored: seq<Observation>, boosts: map<string, int>,
      r: seq<Observation>)
    requires StableSort.Descending(scored)
    requires r == Boosted(scored, boosts)
    ensures |r| == |scored| && StableSort.Descending(r)
    ensures Ids(r) == Ids(scored) && ActionableIds(r) == ActionableIds(scored)
    ensures Distinct(scored) ==> Distinct(r)
    ensures forall o :: o in r ==> exists i :: 0 <= i < |scored| && o == Boost(scored[i], boosts)
    ensures forall i :: 0 <= i < |scored| ==> Boost(scored[i], boosts) in r
  {
    var each := BoostEach(scored, |scored|, boosts);
    BoostEachKeepsIds(scored, boosts, each);
    BoostedSorted(scored, boosts, each, r);
    BoostedMembers(scored, boosts, each, r);
  }

  /** A ranked observation, and the batch member it is the scored and boosted copy of. */
  ghost predicate FromBatch(batch: seq<Observation>, ranked: seq<Observation>) {
    forall r :: r in ranked ==> exists o :: o in batch && Scorer.SameButPriority(o, r)
  }

  ghost predicate RankingOf(batch: seq<Observation>, ranked: seq<Observation>) {
    && |ranked| == |batch|
    && StableSort.Descending(ranked)
    && Distinct(ranked)
    && Ids(ranked) == Ids(batch) && ActionableIds(ranked) == ActionableIds(batch)
    && FromBatch(batch, ranked)
  }

  lemma ScoredIsRanking(batch: seq<Observation>, matches: seq<nat>, actions: Scorer.ActionTable, at: int,
      scored: seq<Observation>)
    requires |batch| == |matches| && Distinct(batch)
    requires scored == Scorer.Ranked(batch, matches, actions, at)
    ensures RankingOf(batch, scored)
  {
    Scorer.RankedIsSortedPermutation(batch, matches, actions, at);
    forall r | r in scored ensures exists o :: o in batch && Scorer.SameButPriority(o, r) {
      var i :| 0 <= i < |batch| && r == Scorer.ScoreOne(batch[i], matches[i], actions, at);
      assert batch[i] in batch && Scorer.SameButPriority(batch[i], r);
    }
  }

  lemma BoostedIsRanking(batch: seq<Observation>, scored: seq<Observation>, boosts: map<string, int>,
      ranked: seq<Observation>)
    requires RankingOf(batch, scored) && ranked == Boosted(scored, boosts)
    ensures RankingOf(batch, ranked)
  {
    BoostedIsSortedPermutation(scored, boosts, ranked);
    forall r | r in ranked ensures exists o :: o in batch && Scorer.SameButPriority(o, r) {
      var i :| 0 <= i < |scored| && r == Boost(scored[i], boosts);
      assert scored[i] in scored;
      var o :| o in batch && Scorer.SameButPriority(o, scored[i]);
      BoostKeeps(scored[i], boosts);
      assert Scorer.SameButPriority(o, r);
    }
  }

  lemma OrientedIsRanking(c: CoreState, batch: seq<Observation>, scoredAt: int, matches: seq<nat>, now: int,
      o: Orientation)
    requires |batch| == |matches| && Distinct(batch)
    requires o == Oriented(c, batch, scoredAt, matches, now)
    ensures RankingOf(batch, o.scored) && RankingOf(batch, o.ranked)
  {
    ScoredIsRanking(batch, matches, Scorer.Pruned(c.actions, scoredAt), scoredAt, o.scored);
    BoostedIsRanking(batch, o.scored, ExpireBoosts(c.overrides, now).boosts, o.ranked);
  }

  // ---------- when the gate opens ----------

  /** The score the gate sees for the i-th observation of the batch. */
  ghost function GateScore(c: CoreState, batch: seq<Observation>, i: nat, scoredAt: int, matches: seq<nat>,
      now: int): int
    requires i < |batch| == |matches|
  {
    Boost(Scorer.ScoreOne(batch[i], matches[i], Scorer.Pruned(c.actions, scoredAt), scoredAt),
          ExpireBoosts(c.overrides, now).boosts).priority
  }

  /** The i-th observation's two copies: as scored, and as the gate sees it. */
  lemma GateScoreInRanking(c: CoreState, batch: seq<Observation>, i: nat, scoredAt: int, matches: seq<nat>, now: int,
      o: Orientation) returns (u: Observation, r: Observation)
    requires i < |batch| == |matches|
    requires o == Oriented(c, batch, scoredAt, matches, now)
    ensures u == Scorer.ScoreOne(batch[i], matches[i], Scorer.Pruned(c.actions, scoredAt), scoredAt) && u in o.scored
    ensures r in o.ranked && r.priority == GateScore(c, batch, i, scoredAt, matches, now)
    ensures u.id == batch[i].id && r.id == batch[i].id
  {
    var actions, boosts := Scorer.Pruned(c.actions, scoredAt), ExpireBoosts(c.overrides, now).boosts;
    Scorer.RankedIsSortedPermutation(batch, matches, actions, scoredAt);
    u := Scorer.ScoreOne(batch[i], matches[i], actions, scoredAt);
    assert u in o.scored;
    BoostedIsSortedPermutation(o.scored, boosts, o.ranked);
    var j :| 0 <= j < |o.scored| && o.scored[j] == u;
    r := Boost(o.scored[j], boosts);
    BoostKeeps(u, boosts);
  }

  lemma TopIsAGateScore(c: CoreState, batch: seq<Observation>, scoredAt: int, matches: seq<nat>, now: int,
      o: Orientation)
    returns (i: nat)
    requires batch != [] && |batch| == |matches|
    requires o == Oriented(c, batch, scoredAt, matches, now)
    ensures o.ranked != [] && StableSort.Descending(o.ranked)
    ensures i < |batch| && o.ranked[0].priority == GateScore(c, batch, i, scoredAt, matches, now)
  {
    var actions, boosts := Scorer.Pruned(c.actions, scoredAt), ExpireBoosts(c.overrides, now).boosts;
    Scorer.RankedIsSortedPermutation(batch, matches, actions, scoredAt);
    BoostedIsSortedPermutation(o.scored, boosts, o.ranked);
    assert o.ranked[0] in o.ranked;
    var j :| 0 <= j < |o.scored| && o.ranked[0] == Boost(o.scored[j], boosts);
    assert o.scored[j] in o.scored;
    i :| 0 <= i < |batch| && o.scored[j] == Scorer.ScoreOne(batch[i], matches[i], actions, scoredAt);
  }

  /** The gate opens exactly when some observation of the batch, scored and boosted, reaches the
      threshold in force: no ranking or sweeping order can hide one that does. */
  lemma GateOpensIff(c: CoreState, batch: seq<Observation>, scoredAt: int, matches: seq<nat>, now: int, o: Orientation)
    requires |batch| == |matches|
    requires o == Oriented(c, batch, scoredAt, matches, now)
    ensures PassesGate(o) <==>
            exists i :: 0 <= i < |batch| && GateScore(c, batch, i, scoredAt, matches, now) >= Threshold(o.core)
  {
    if batch != [] {
      var top := TopIsAGateScore(c, batch, scoredAt, matches, now, o);
      forall i | 0 <= i < |batch|
        ensures GateScore(c, batch, i, scoredAt, matches, now) <= o.ranked[0].priority {
        var u, r := GateScoreInRanking(c, batch, i, scoredAt, matches, now, o);
        var j :| 0 <= j < |o.ranked| && o.ranked[j] == r;
        assert j == 0 || o.ranked[0].priority >= o.ranked[j].priority;
      }
    } else {
      StableSort.SortCorrect([]);
      assert o.scored == [] && o.ranked == [];
    }
  }

  // ---------- what a closed gate keeps ----------

  lemma {:induction false} PrioritiesExact(s: seq<Observation>, n: nat)
    requires n <= |s| && Distinct(s)
    ensures forall i :: 0 <= i < n ==> s[i].id in PrioritiesUpTo(s, n) && PrioritiesUpTo(s, n)[s[i].id] == s[i].priority
  {
    if n > 0 {
      PrioritiesExact(s, n - 1);
    }
  }

  lemma {:induction false} ByIdExact(s: seq<Observation>, n: nat)
    requires n <= |s| && Distinct(s)
    ensures forall i :: 0 <= i < n ==> s[i].id in ById(s, n) && ById(s, n)[s[i].id] == s[i]
    ensures forall k :: k in ById(s, n) ==> ById(s, n)[k] in s && ById(s, n)[k].id == k
  {
    if n > 0 {
      ByIdExact(s, n - 1);
    }
  }

  /** Either of an observation's two scores, as the gate saw it or as it was before boosts, is enough. */
  ghost predicate Enough(o: Observation, unboosted: map<string, int>, minimum: int) {
    o.priority >= minimum || (o.id in unboosted && unboosted[o.id] >= minimum)
  }

  lemma {:induction false} SilencedMembers(ranked: seq<Observation>, n: nat, unboosted: map<string, int>,
      collected: map<string, Observation>, minimum: int)
    requires n <= |ranked|
    requires forall i :: 0 <= i < n ==> ranked[i].id in collected && collected[ranked[i].id].id == ranked[i].id
    ensures var s := Silenced(ranked, n, unboosted, collected, minimum);
            && (forall i :: 0 <= i < n && Enough(ranked[i], unboosted, minimum) ==> collected[ranked[i].id] in s)
            && (forall x :: x in s ==> exists i :: 0 <= i < n && Enough(ranked[i], unboosted, minimum)
                                                   && x == collected[ranked[i].id])
  {
    if n > 0 {
      SilencedMembers(ranked, n - 1, unboosted, collected, minimum);
    }
  }

  /** Every ranked observation has its collected original under its id. */
  lemma CollectedById(batch: seq<Observation>, ranked: seq<Observation>, collected: map<string, Observation>)
    requires Distinct(batch) && RankingOf(batch, ranked) && collected == ById(batch, |batch|)
    ensures forall i :: 0 <= i < |ranked| ==> ranked[i].id in collected && collected[ranked[i].id].id == ranked[i].id
    ensures forall x :: x in batch ==> x.id in collected && collected[x.id] == x
    ensures forall k :: k in collected ==> collected[k] in batch
  {
    ByIdExact(batch, |batch|);
    forall x | x in batch ensures x.id in collected && collected[x.id] == x {
      var j :| 0 <= j < |batch| && batch[j] == x;
      assert batch[j].id in collected;
    }
    forall i | 0 <= i < |ranked| ensures ranked[i].id in collected && collected[ranked[i].id].id == ranked[i].id {
      assert ranked[i] in ranked;
      var x :| x in batch && Scorer.SameButPriority(x, ranked[i]);
      assert x.id == ranked[i].id;
    }
  }

  lemma SilencedIff(batch: seq<Observation>, ranked: seq<Observation>, unboosted: map<string, int>,
      collected: map<string, Observation>, minimum: int, s: seq<Observation>, r: Observation, x: Observation)
    requires Distinct(ranked) && r in ranked && x in batch && r.id == x.id
    requires forall i :: 0 <= i < |ranked| ==> ranked[i].id in collected && collected[ranked[i].id].id == ranked[i].id
    requires x.id in collected && collected[x.id] == x
    requires s == Silenced(ranked, |ranked|, unboosted, collected, minimum)
    ensures x in s <==> Enough(r, unboosted, minimum)
  {
    SilencedMembers(ranked, |ranked|, unboosted, collected, minimum);
    var k :| 0 <= k < |ranked| && ranked[k] == r;
    assert Enough(ranked[k], unboosted, minimum) ==> collected[ranked[k].id] in s;
    if x in s {
      var i :| 0 <= i < |ranked| && Enough(ranked[i], unboosted, minimum) && x == collected[ranked[i].id];
      assert ranked[i].id == ranked[k].id;
      assert i == k;
    }
  }

  /** What a closed gate puts back: exactly the batch members, as collected, whose score with or
      without the boosts reaches the configured minimum. */
  lemma SilencedExact(batch: seq<Observation>, o: Orientation, s: seq<Observation>)
    requires Distinct(batch) && RankingOf(batch, o.ranked)
    requires s == SilencedBy(o, batch)
    ensures forall x :: x in s ==> x in batch
    ensures var unboosted := PrioritiesUpTo(o.scored, |o.scored|);
            forall r, x :: r in o.ranked && x in batch && r.id == x.id ==>
              (x in s <==> Enough(r, unboosted, o.core.config.minObservationPriority))
  {
    var unboosted, collected := PrioritiesUpTo(o.scored, |o.scored|), ById(batch, |batch|);
    var minimum := o.core.config.minObservationPriority;
    KeptFromBatch(batch, o, s);
    forall r, x | r in o.ranked && x in batch && r.id == x.id
      ensures x in s <==> Enough(r, unboosted, minimum) {
      CollectedById(batch, o.ranked, collected);
      SilencedIff(batch, o.ranked, unboosted, collected, minimum, s, r, x);
    }
  }

  lemma KeptFromBatch(batch: seq<Observation>, o: Orientation, kept: seq<Observation>)
    requires Distinct(batch) && RankingOf(batch, o.ranked) && kept == SilencedBy(o, batch)
    ensures forall x :: x in kept ==> x in batch
  {
    var unboosted, collected := PrioritiesUpTo(o.scored, |o.scored|), ById(batch, |batch|);
    CollectedById(batch, o.ranked, collected);
    SilencedAreCollected(o.ranked, unboosted, collected, o.core.config.minObservationPriority, kept);
    forall x | x in kept ensures x in batch {
      var k :| k in collected && x == collected[k];
    }
  }

  lemma SilencedAreCollected(ranked: seq<Observation>, unboosted: map<string, int>,
      collected: map<string, Observation>, minimum: int, s: seq<Observation>)
    requires forall i :: 0 <= i < |ranked| ==> ranked[i].id in collected && collected[ranked[i].id].id == ranked[i].id
    requires s == Silenced(ranked, |ranked|, unboosted, collected, minimum)
    ensures forall x :: x in s ==> exists k :: k in collected && x == collected[k]
  {
    SilencedMembers(ranked, |ranked|, unboosted, collected, minimum);
  }

  lemma UnboostedScore(scored: seq<Observation>, u: Observation, unboosted: map<string, int>)
    requires Distinct(scored) && u in scored && unboosted == PrioritiesUpTo(scored, |scored|)
    ensures u.id in unboosted && unboosted[u.id] == u.priority
  {
    PrioritiesExact(scored, |scored|);
    var j :| 0 <= j < |scored| && scored[j] == u;
    assert scored[j].id in unboosted;
  }

  lemma KeptByScores(batch: seq<Observation>, scored: seq<Observation>, ranked: seq<Observation>, u: Observation,
      r: Observation, x: Observation, minimum: int, s: seq<Observation>)
    requires Distinct(batch) && RankingOf(batch, ranked) && Distinct(scored)
    requires x in batch && u in scored && r in ranked && u.id == x.id && r.id == x.id
    requires s == Silenced(ranked, |ranked|, PrioritiesUpTo(scored, |scored|), ById(batch, |batch|), minimum)
    ensures x in s <==> r.priority >= minimum || u.priority >= minimum
  {
    var unboosted, collected := PrioritiesUpTo(scored, |scored|), ById(batch, |batch|);
    UnboostedScore(scored, u, unboosted);
    CollectedById(batch, ranked, collected);
    SilencedIff(batch, ranked, unboosted, collected, minimum, s, r, x);
  }

  /** What a closed gate puts back, of any batch and under any overrides: an observation is kept, as it was
      collected, exactly when the score the gate sees or the one before boosts reaches the minimum. */
  lemma KeptIff(c: CoreState, batch: seq<Observation>, i: nat, scoredAt: int, matches: seq<nat>, now: int,
      o: Orientation)
    requires i < |batch| == |matches| && Distinct(batch)
    requires o == Oriented(c, batch, scoredAt, matches, now)
    ensures batch[i] in SilencedBy(o, batch) <==>
            || GateScore(c, batch, i, scoredAt, matches, now) >= c.config.minObservationPriority
            || Scorer.ScoreOne(batch[i], matches[i], Scorer.Pruned(c.actions, scoredAt), scoredAt).priority
               >= c.config.minObservationPriority
  {
    OrientedIsRanking(c, batch, scoredAt, matches, now, o);
    var u, r := GateScoreInRanking(c, batch, i, scoredAt, matches, now, o);
    KeptByScores(batch, o.scored, o.ranked, u, r, batch[i], c.config.minObservationPriority, SilencedBy(o, batch));
  }

  /** The ids a closed gate drops: neither score reaches the configured minimum. */
  ghost function DroppedIds(batch: seq<Observation>, o: Orientation): set<string> {
    Ids(batch) - Ids(SilencedBy(o, batch))
  }

  lemma SubsetIds(s: seq<Observation>, batch: seq<Observation>)
    requires Distinct(batch) && forall x :: x in s ==> x in batch
    ensures Ids(s) <= Ids(batch)
    ensures ActionableIds(s) == ActionableIds(batch) * Ids(s)
  {
    IdsExact(s);
    IdsExact(batch);
    forall k | k in ActionableIds(batch) * Ids(s) ensures k in ActionableIds(s) {
      var x :| x in s && x.id == k;
      var y :| y in batch && y.id == k && y.actionable;
      DistinctById(batch, x, y);
    }
    forall k | k in ActionableIds(s) ensures k in ActionableIds(batch) {
      var x :| x in s && x.id == k && x.actionable;
      assert x in batch;
    }
  }

  lemma GateConserves(batch: seq<Observation>, o: Orientation, s: seq<Observation>, now: int, back: Table)
    requires Distinct(batch) && RankingOf(batch, o.ranked)
    requires s == SilencedBy(o, batch) && back == Back(s, |s|, 5, now)
    ensures Conserves(batch, DroppedIds(batch, o), back, now)
  {
    KeptFromBatch(batch, o, s);
    SubsetIds(s, batch);
    BackExact(s, 5, now);
    IdsExact(batch);
    IdsExact(s);
    forall k | k in back
      ensures k in Ids(batch) && k in Ids(s)
      ensures exists x :: x in batch && Scorer.SameButPriority(x, back[k].observation) {
      assert back[k].observation in s;
      assert Scorer.SameButPriority(back[k].observation, back[k].observation);
    }
  }

  /** An id a closed gate drops scored below the configured minimum, boosted and unboosted. */
  lemma DroppedScoredLow(batch: seq<Observation>, o: Orientation, x: Observation)
    requires Distinct(batch) && RankingOf(batch, o.ranked) && RankingOf(batch, o.scored)
    requires x in batch && x.id in DroppedIds(batch, o)
    ensures exists r :: r in o.ranked && r.id == x.id && r.priority < o.core.config.minObservationPriority
    ensures exists u :: u in o.scored && u.id == x.id && u.priority < o.core.config.minObservationPriority
  {
    var s, unboosted := SilencedBy(o, batch), PrioritiesUpTo(o.scored, |o.scored|);
    var r, u := InBoth(batch, o, x);
    SilencedExact(batch, o, s);
    assert x !in s by {
      IdsExact(s);
    }
    assert !Enough(r, unboosted, o.core.config.minObservationPriority);
    var j :| 0 <= j < |o.scored| && o.scored[j] == u;
    PrioritiesExact(o.scored, |o.scored|);
    assert unboosted[o.scored[j].id] == u.priority;
  }

  lemma InBoth(batch: seq<Observation>, o: Orientation, x: Observation) returns (r: Observation, u: Observation)
    requires RankingOf(batch, o.ranked) && RankingOf(batch, o.scored) && x in batch
    ensures r in o.ranked && r.id == x.id && u in o.scored && u.id == x.id
  {
    IdsExact(batch);
    IdsExact(o.ranked);
    IdsExact(o.scored);
    assert x.id in Ids(o.ranked) && x.id in Ids(o.scored);
    r :| r in o.ranked && r.id == x.id;
    u :| u in o.scored && u.id == x.id;
  }
}
