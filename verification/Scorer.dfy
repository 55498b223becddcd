/** `PriorityScorer`: additive, clamped scores with a graduated penalty for what was just acted on. */
module Scorer {
  import opened Observations
  import Recency
  import StableSort

  const RECENT_ACTION_WINDOW_MS: nat := 300_000
  const ACTION_HASH_CHARS: nat := 60

  type ActionTable = map<Fingerprint, int>

  function ActionHash(o: Observation): Fingerprint { Print(o, ACTION_HASH_CHARS) }

  function InstinctBonus(matches: nat): int {
    if matches >= 3 then 15 else if matches >= 2 then 12 else if matches >= 1 then 8 else 0
  }

  function Severity(s: Source): int {
    match s
    case Build => 10
    case Test => 8
    case TaskOutcome => 5
    case User => 5
    case _ => 0
  }

  function PenaltyFor(elapsed: int): int {
    if elapsed < 60_000 then 30
    else if elapsed < 180_000 then 20
    else if elapsed < RECENT_ACTION_WINDOW_MS then 10
    else 0
  }

  /** The graduated recency penalty; an action recorded at time 0 counts as none. */
  function Penalty(actions: ActionTable, o: Observation, now: int): int {
    var h := ActionHash(o);
    if h in actions && actions[h] != 0 then PenaltyFor(now - actions[h]) else 0
  }

  function Clamp(p: int): int {
    if p < 0 then 0 else if p > 100 then 100 else p
  }

  /** The score of a base priority, given everything else that goes into it. */
  function Score(base: int, bonus: int, penalty: int, actionable: bool): int {
    var p := base + bonus - penalty;
    Clamp(if actionable && p > 50 then p + 5 else p)
  }

  function ScoreOne(o: Observation, matches: nat, actions: ActionTable, now: int): Observation {
    o.(priority := Score(o.priority, InstinctBonus(matches) + Severity(o.source), Penalty(actions, o, now),
        o.actionable))
  }

  /** The first n observations, scored; `matches[i]` is how many instincts matched the i-th (0 when
      there is no retriever or it failed). */
  function ScoreEach(s: seq<Observation>, matches: seq<nat>, n: nat, actions: ActionTable,
      now: int): (r: seq<Observation>)
    requires n <= |s| == |matches|
    ensures |r| == n
  {
    if n == 0 then []
    else ScoreEach(s, matches, n - 1, actions, now) + [ScoreOne(s[n - 1], matches[n - 1], actions, now)]
  }

  /** `scoreAll` on the table it has just pruned. */
  function Ranked(s: seq<Observation>, matches: seq<nat>, actions: ActionTable, now: int): seq<Observation>
    requires |s| == |matches|
  {
    StableSort.Sort(ScoreEach(s, matches, |s|, actions, now))
  }

  function Pruned(actions: ActionTable, now: int): ActionTable {
    Recency.Prune(actions, now, RECENT_ACTION_WINDOW_MS)
  }

  function RecordAction(actions: ActionTable, o: Observation, now: int): ActionTable {
    Pruned(actions[ActionHash(o) := now], now)
  }

  // ---------- bounds and monotonicity ----------

  /** A score stays in 0..100 and within 30 of a base that was. */
  lemma ScoreBounded(o: Observation, matches: nat, actions: ActionTable, now: int)
    ensures 0 <= ScoreOne(o, matches, actions, now).priority <= 100
    ensures 0 <= o.priority <= 100 ==>
              o.priority - 30 <= ScoreOne(o, matches, actions, now).priority <= o.priority + 30
  {
  }

  /** A higher base, or a longer time since the last action, never lowers a score. */
  lemma ScoreMonotone(base: int, base': int, bonus: int, elapsed: int, elapsed': int, actionable: bool)
    requires base <= base' && elapsed <= elapsed'
    ensures Score(base, bonus, PenaltyFor(elapsed), actionable) <= Score(base', bonus, PenaltyFor(elapsed'), actionable)
  {
  }

  // ---------- the factors ----------

  /** What the scorer is documented to do, factor by factor, in its own amounts: instincts, severity of the
      source, the penalty for having been acted on (at its hash: the source, and the summary or its first
      sixty characters), the lift of actionable work, and the bounds. */
  ghost predicate ScoredTo(o: Observation, matches: nat, actions: ActionTable, now: int, p: int) {
    var instincts := if matches == 0 then 0 else if matches == 1 then 8 else if matches == 2 then 12 else 15;
    var severity := match o.source case Build => 10 case Test => 8 case TaskOutcome | User => 5 case _ => 0;
    var hash := Fingerprint(o.source, if |o.summary| < 60 then o.summary else o.summary[..60]);
    var last := if hash in actions then actions[hash] else 0;
    var penalty := if last == 0 || now - last >= 300_000 then 0
                   else if now - last >= 180_000 then 10 else if now - last >= 60_000 then 20 else 30;
    var sum := o.priority + instincts + severity - penalty;
    var lifted := if o.actionable && sum > 50 then sum + 5 else sum;
    0 <= p <= 100 && (p == lifted || (p == 0 && lifted < 0) || (p == 100 && lifted > 100))
  }

  /** r is o with the score its factors add up to. */
  ghost predicate ScoredFrom(o: Observation, matches: nat, actions: ActionTable, now: int, r: Observation) {
    r == o.(priority := r.priority) && ScoredTo(o, matches, actions, now, r.priority)
  }

  lemma HashOfSixty(o: Observation)
    ensures ActionHash(o) == Fingerprint(o.source, if |o.summary| < 60 then o.summary else o.summary[..60])
  {
    assert |o.summary| == 60 ==> o.summary[..60] == o.summary;
  }

  lemma PenaltyPruned(actions: ActionTable, o: Observation, now: int)
    ensures Penalty(Pruned(actions, now), o, now) == Penalty(actions, o, now)
  {
  }

  /** Every score is the sum of its factors, and of those alone: pruning has no part in it. */
  lemma ScoreTold(o: Observation, matches: nat, actions: ActionTable, now: int, r: Observation)
    ensures ScoredFrom(o, matches, actions, now, r) <==> r == ScoreOne(o, matches, Pruned(actions, now), now)
  {
    HashOfSixty(o);
    PenaltyPruned(actions, o, now);
  }

  lemma OneScored(s: seq<Observation>, matches: seq<nat>, actions: ActionTable, now: int, scored: seq<Observation>,
      i: nat) returns (r: Observation)
    requires i < |s| == |matches| && scored == Ranked(s, matches, Pruned(actions, now), now)
    ensures r in scored && ScoredFrom(s[i], matches[i], actions, now, r)
  {
    RankedIsSortedPermutation(s, matches, Pruned(actions, now), now);
    r := ScoreOne(s[i], matches[i], Pruned(actions, now), now);
    ScoreTold(s[i], matches[i], actions, now, r);
  }

  lemma OneTold(s: seq<Observation>, matches: seq<nat>, actions: ActionTable, now: int, scored: seq<Observation>,
      r: Observation) returns (i: nat)
    requires |s| == |matches| && scored == Ranked(s, matches, Pruned(actions, now), now) && r in scored
    ensures i < |s| && ScoredFrom(s[i], matches[i], actions, now, r)
  {
    RankedIsSortedPermutation(s, matches, Pruned(actions, now), now);
    i :| 0 <= i < |s| && r == ScoreOne(s[i], matches[i], Pruned(actions, now), now);
    ScoreTold(s[i], matches[i], actions, now, r);
  }

  /** Each observation is in the ranking with the score its factors add up to. */
  ghost predicate EachScored(s: seq<Observation>, matches: seq<nat>, actions: ActionTable, now: int,
      scored: seq<Observation>)
    requires |s| == |matches|
  {
    forall i :: 0 <= i < |s| ==> exists r :: r in scored && ScoredFrom(s[i], matches[i], actions, now, r)
  }

  /** And nothing else is. */
  ghost predicate OnlyScored(s: seq<Observation>, matches: seq<nat>, actions: ActionTable, now: int,
      scored: seq<Observation>)
    requires |s| == |matches|
  {
    forall r :: r in scored ==> exists i :: 0 <= i < |s| && ScoredFrom(s[i], matches[i], actions, now, r)
  }

  lemma RankedEach(s: seq<Observation>, matches: seq<nat>, actions: ActionTable, now: int, scored: seq<Observation>)
    requires |s| == |matches| && scored == Ranked(s, matches, Pruned(actions, now), now)
    ensures EachScored(s, matches, actions, now, scored)
  {
    forall i | 0 <= i < |s| ensures exists r :: r in scored && ScoredFrom(s[i], matches[i], actions, now, r) {
      var r := OneScored(s, matches, actions, now, scored, i);
    }
  }

  lemma RankedOnly(s: seq<Observation>, matches: seq<nat>, actions: ActionTable, now: int, scored: seq<Observation>)
    requires |s| == |matches| && scored == Ranked(s, matches, Pruned(actions, now), now)
    ensures OnlyScored(s, matches, actions, now, scored)
  {
    forall r | r in scored ensures exists i :: 0 <= i < |s| && ScoredFrom(s[i], matches[i], actions, now, r) {
      var i := OneTold(s, matches, actions, now, scored, r);
    }
  }

  /** A whole ranking, told by the factors. */
  lemma RankedTold(s: seq<Observation>, matches: seq<nat>, actions: ActionTable, now: int, scored: seq<Observation>)
    requires |s| == |matches| && scored == Ranked(s, matches, Pruned(actions, now), now)
    ensures |scored| == |s| && Ids(scored) == Ids(s) && StableSort.Descending(scored)
    ensures EachScored(s, matches, actions, now, scored) && OnlyScored(s, matches, actions, now, scored)
  {
    RankedIsSortedPermutation(s, matches, Pruned(actions, now), now);
    RankedEach(s, matches, actions, now, scored);
    RankedOnly(s, matches, actions, now, scored);
  }

  // ---------- a sorted permutation ----------

  ghost predicate SameButPriority(a: Observation, b: Observation) {
    a.(priority := b.priority) == b
  }

  lemma {:induction false} ScoreEachAt(s: seq<Observation>, matches: seq<nat>, n: nat, actions: ActionTable, now: int)
    requires n <= |s| == |matches|
    ensures forall i :: 0 <= i < n ==>
              ScoreEach(s, matches, n, actions, now)[i] == ScoreOne(s[i], matches[i], actions, now)
  {
    if n > 0 {
      ScoreEachAt(s, matches, n - 1, actions, now);
    }
  }

  /** A list that differs from another only in priorities stands for the same ids. */
  lemma {:induction false} RelabelKeepsIds(s: seq<Observation>, t: seq<Observation>)
    requires |s| == |t| && forall i :: 0 <= i < |s| ==> SameButPriority(s[i], t[i])
    ensures Ids(t) == Ids(s) && ActionableIds(t) == ActionableIds(s)
    ensures Distinct(s) ==> Distinct(t)
  {
    assert forall i :: 0 <= i < |s| ==> SameButPriority(s[i], t[i]) && s[i].id == t[i].id;
    if s != [] {
      RelabelKeepsIds(s[..|s| - 1], t[..|t| - 1]);
    }
  }

  /** Scoring neither drops, doubles nor invents an observation: the ids are the input's, every
      result is an input with its own score, and they stand highest first. */
  lemma RankedIsSortedPermutation(s: seq<Observation>, matches: seq<nat>, actions: ActionTable, now: int)
    requires |s| == |matches|
    ensures var r := Ranked(s, matches, actions, now);
            && |r| == |s|
            && StableSort.Descending(r)
            && Ids(r) == Ids(s) && ActionableIds(r) == ActionableIds(s)
            && (Distinct(s) ==> Distinct(r))
            && (forall o :: o in r ==> exists i :: 0 <= i < |s| && o == ScoreOne(s[i], matches[i], actions, now))
            && (forall i :: 0 <= i < |s| ==> ScoreOne(s[i], matches[i], actions, now) in r)
  {
    var each := ScoreEach(s, matches, |s|, actions, now);
    ScoredEachKeepsIds(s, matches, actions, now, each);
    StableSort.SortCorrect(each);
    StableSort.SortKeepsIds(each);
    ScoredMembers(s, matches, actions, now, each, Ranked(s, matches, actions, now));
  }

  lemma ScoredEachKeepsIds(s: seq<Observation>, matches: seq<nat>, actions: ActionTable, now: int,
      each: seq<Observation>)
    requires |s| == |matches| && each == ScoreEach(s, matches, |s|, actions, now)
    ensures forall i :: 0 <= i < |s| ==> each[i] == ScoreOne(s[i], matches[i], actions, now)
    ensures Ids(each) == Ids(s) && ActionableIds(each) == ActionableIds(s)
    ensures Distinct(s) ==> Distinct(each)
  {
    ScoreEachAt(s, matches, |s|, actions, now);
    forall i | 0 <= i < |s| ensures SameButPriority(s[i], each[i]) {
    }
    RelabelKeepsIds(s, each);
  }

  lemma ScoredMembers(s: seq<Observation>, matches: seq<nat>, actions: ActionTable, now: int, each: seq<Observation>,
      r: seq<Observation>)
    requires |s| == |matches| == |each|
    requires forall i :: 0 <= i < |s| ==> each[i] == ScoreOne(s[i], matches[i], actions, now)
    requires forall o :: o in r <==> o in each
    ensures forall o :: o in r ==> exists i :: 0 <= i < |s| && o == ScoreOne(s[i], matches[i], actions, now)
    ensures forall i :: 0 <= i < |s| ==> ScoreOne(s[i], matches[i], actions, now) in r
  {
  }

  // ---------- pruning the action table is invisible ----------

  datatype Op = Acted(o: Observation, at: int) | Scored(at: int)

  function Apply(actions: ActionTable, op: Op): ActionTable {
    match op
    case Acted(o, at) => RecordAction(actions, o, at)
    case Scored(at) => Pruned(actions, at)
  }

  function After(run: seq<Op>): ActionTable {
    if run == [] then map[] else Apply(After(run[..|run| - 1]), run[|run| - 1])
  }

  /** The full log: the last time each hash was acted on, ever. */
  ghost function LogAfter(run: seq<Op>): ActionTable {
    if run == [] then map[]
    else
      var op := run[|run| - 1];
      if op.Acted? then LogAfter(run[..|run| - 1])[ActionHash(op.o) := op.at] else LogAfter(run[..|run| - 1])
  }

  ghost function ClockAfter(run: seq<Op>): int {
    if run == [] then 0 else run[|run| - 1].at
  }

  ghost predicate Timely(run: seq<Op>) {
    run == [] || (Timely(run[..|run| - 1]) && run[|run| - 1].at >= ClockAfter(run[..|run| - 1]))
  }

  lemma {:induction false} TableCoversLog(run: seq<Op>)
    requires Timely(run)
    ensures Recency.Covers(After(run), LogAfter(run), ClockAfter(run), RECENT_ACTION_WINDOW_MS)
  {
    if run != [] {
      var before, op := run[..|run| - 1], run[|run| - 1];
      TableCoversLog(before);
      var table, log := After(before), LogAfter(before);
      Recency.CoversPrune(table, log, ClockAfter(before), op.at, RECENT_ACTION_WINDOW_MS);
      match op
      case Acted(o, at) =>
        assert Recency.Covers(Pruned(table, at)[ActionHash(o) := at], log[ActionHash(o) := at], at,
            RECENT_ACTION_WINDOW_MS);
        assert Pruned(table[ActionHash(o) := at], at) == Pruned(table, at)[ActionHash(o) := at];
      case Scored(_) =>
    }
  }

  /** Over any run, and at any later moment, the pruned table charges every observation exactly the
      penalty the full log of actions would. */
  lemma {:induction false} PenaltyFromFullLog(run: seq<Op>, o: Observation, now: int)
    requires Timely(run) && now >= ClockAfter(run)
    ensures Penalty(After(run), o, now) == Penalty(LogAfter(run), o, now)
    ensures Penalty(Pruned(After(run), now), o, now) == Penalty(LogAfter(run), o, now)
  {
    TableCoversLog(run);
  }
}
