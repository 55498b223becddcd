/** A run in which goals are submitted again and again about the same two observations: nothing but the
    minute between two rounds bounds how many. */
module EndlessGoal {
  import opened Observations
  import opened OrderedMaps
  import opened Engine
  import opened Decisions
  import opened Core
  import opened Daemon
  import opened Finality
  import opened Scenes
  import Gate
  import Inventory
  import Ledger
  import Recorded
  import Resubmitting
  import Scorer

  /** Two pieces of work that stay over any threshold although they are penalised: the first does. (A failed
      build of 85 and a failed test of 80, say.) */
  ghost predicate TwoJobs(a: Observation, b: Observation) {
    && a.actionable && b.actionable && a.source != b.source && a.id != b.id
    && b.priority <= a.priority <= 100 && a.priority + Scorer.Severity(a.source) >= 95
  }

  /** An "execute" that names nothing. */
  const UNNAMED_GOAL := Decision(Execute, Some("fix it"), None, None, [], None, None, "r", false)

  function WaitingTwo(a: Observation, b: Observation, at: int): OrderedMap<Deferral> {
    OrderedMap([a.id, b.id], map[a.id := Deferral(a, at), b.id := Deferral(b, at)])
  }

  /** Every recorded action is a minute old by then. */
  ghost predicate Aged(actions: Scorer.ActionTable, now: int) {
    forall h :: h in actions ==> actions[h] + 60_000 <= now
  }

  /** Both wait for their next round. */
  ghost predicate Again(s: System, a: Observation, b: Observation, due: int) {
    && Between(s, due) && s.core.overrides == NO_OVERRIDES && Aged(s.core.actions, due)
    && s.core.engine.pending == [] && s.core.engine.deferred == WaitingTwo(a, b, due)
    && !SeenRecently(s.core.engine.recentHashes, DedupHash(a), due)
    && !SeenRecently(s.core.engine.recentHashes, DedupHash(b), due)
  }

  // ---------- one round ----------

  lemma BothDue(a: Observation, b: Observation, at: int)
    requires a.id != b.id
    ensures Due(WaitingTwo(a, b, at), at) == [a, b] && Drained(WaitingTwo(a, b, at), at) == NO_DEFERRALS
  {
    var table := WaitingTwo(a, b, at);
    assert DueAmong(table.keys, 0, table.items, at) == [];
    assert DueAmong(table.keys, 1, table.items, at) == [a];
    assert DrainedUpTo(table, 0, at) == table;
    assert Without(table.keys, a.id) == [b.id] by {
      assert WithoutUpTo(table.keys, 0, a.id) == [];
      assert WithoutUpTo(table.keys, 1, a.id) == [];
    }
    assert DrainedUpTo(table, 1, at) == OrderedMap([b.id], map[b.id := Deferral(b, at)]);
    assert WithoutUpTo([b.id], 0, b.id) == [];
    assert Without([b.id], b.id) == [];
  }

  lemma StrongFirst(c: CoreState, a: Observation, b: Observation, t: int)
    requires TwoJobs(a, b) && Aged(c.actions, t) && c.overrides == NO_OVERRIDES
    ensures Gate.GateScore(c, [a, b], 0, t, [0, 0], t) >= 80
  {
    var penalty := Scorer.Penalty(Scorer.Pruned(c.actions, t), a, t);
    assert penalty <= 20;
    assert Scorer.Score(a.priority, Scorer.InstinctBonus(0) + Scorer.Severity(a.source), penalty, true) >= 80;
  }

  lemma OrientTwo(s: System, a: Observation, b: Observation, t: int) returns (s': System)
    requires TwoJobs(a, b) && s.phase == Scoring([a, b], t) && s.clock == t && Aged(s.core.actions, t)
    requires s.core.overrides == NO_OVERRIDES && s.core.config.minObservationPriority <= 80
    ensures Enabled(s, Scored([0, 0], t)) && s' == Next(s, Scored([0, 0], t))
    ensures s'.phase.Thinking? && s'.phase.batch == [a, b] && Gate.RankingOf([a, b], s'.phase.ranked)
    ensures s'.clock == t && s'.issued == s.issued && Aged(s'.core.actions, t)
    ensures s'.core == s.core.(lastReasoningMs := t, actions := s'.core.actions)
  {
    var or := Oriented(s.core, [a, b], t, [0, 0], t);
    assert ExpireBoosts(NO_OVERRIDES, t) == NO_OVERRIDES;
    Gate.GateOpensIff(s.core, [a, b], t, [0, 0], t, or);
    StrongFirst(s.core, a, b, t);
    Gate.OrientedIsRanking(s.core, [a, b], t, [0, 0], t, or);
    s' := Next(s, Scored([0, 0], t));
  }

  lemma BothPutBack(e: EngineState, a: Observation, b: Observation, t: int)
    requires e.deferred == NO_DEFERRALS && a.id != b.id && a.actionable && b.actionable
    ensures PutBack(e, [a, b], 2, 1, t) == e.(deferred := WaitingTwo(a, b, t + 60_000))
  {
    assert PutBack(e, [a, b], 0, 1, t) == e;
    assert [] + [a.id] == [a.id] && [a.id] + [b.id] == [a.id, b.id];
    assert PutBack(e, [a, b], 1, 1, t) == e.(deferred := Waiting(a, t + 60_000));
  }

  /** Judged as it is, whatever the order they are ranked in. */
  lemma UnnamedSubmits(a: Observation, b: Observation, ranked: seq<Observation>, task: string)
    requires TwoJobs(a, b) && Gate.RankingOf([a, b], ranked)
    ensures Judge(UNNAMED_GOAL, ranked, 0, Some(task)) == Submitted(task, [], true)
  {
    Resubmitting.SameWork([a, b], ranked);
    Resubmitting.NamingNothing(UNNAMED_GOAL, ranked, 0, Some(task));
  }

  lemma SubmitBoth(s: System, a: Observation, b: Observation, t: int, task: string, e: Event) returns (s': System)
    requires TwoJobs(a, b) && t > 0 && s.phase.Thinking? && s.phase.batch == [a, b]
    requires Gate.RankingOf([a, b], s.phase.ranked) && s.clock == t && Aged(s.core.actions, t)
    requires s.core.lastReasoningMs == t && s.core.held == [] && Obliging(s.core.config)
    requires s.core.overrides == NO_OVERRIDES && s.core.engine.pending == [] && s.core.engine.deferred == NO_DEFERRALS
    requires !SeenRecently(s.core.engine.recentHashes, DedupHash(a), t + 60_000)
    requires !SeenRecently(s.core.engine.recentHashes, DedupHash(b), t + 60_000)
    requires e == Replied(UNNAMED_GOAL, 0, Some(task), t)
    ensures Enabled(s, e) && s' == Next(s, e) && Ledger.VerdictOf(s, e) == Submitted(task, [], true)
    ensures Again(s', a, b, t + 60_000) && s'.core.config == s.core.config
  {
    var ranked := s.phase.ranked;
    UnnamedSubmits(a, b, ranked, task);
    s' := Next(s, e);
    assert Ids([]) == {};
    Inventory.OutsideNothing([a, b]);
    BothPutBack(s.core.engine, a, b, t);
    assert RecordEach(s.core.actions, [], 0, t) == s.core.actions;
    assert s'.core.actions == Scorer.RecordAction(s.core.actions, ranked[0], t);
  }

  function StillRunning(n: nat): seq<TaskReply> {
    seq(n, _ => Running)
  }

  /** The observers report both, or have nothing to say and both are due. */
  ghost predicate Arrive(s: System, a: Observation, b: Observation, reports: seq<Option<seq<Observation>>>, t: int) {
    && Between(s, t) && s.core.overrides == NO_OVERRIDES && Aged(s.core.actions, t)
    && s.core.config.minObservationPriority <= 80
    && Distinct(Gathered(reports)) && Ids(Gathered(reports)) !! s.issued.Keys
    && Arrivals(s.core.engine, reports, t) == [a, b] && Drained(s.core.engine.deferred, t) == NO_DEFERRALS
    && !SeenRecently(s.core.engine.recentHashes, DedupHash(a), t)
    && !SeenRecently(s.core.engine.recentHashes, DedupHash(b), t)
  }

  lemma LookAtJobs(s: System, a: Observation, b: Observation, reports: seq<Option<seq<Observation>>>, t: int, e: Event)
    returns (s': System)
    requires TwoJobs(a, b) && Arrive(s, a, b, reports, t)
    requires e == TickCalled(0, Calm(t, StillRunning(|s.core.tracked.keys|), reports))
    ensures Enabled(s, e) && s' == Next(s, e)
    ensures s'.core == s.core.(tickInFlight := true, engine := s'.core.engine, tracked := s'.core.tracked)
    ensures s'.core.engine.pending == [] && s'.core.engine.deferred == NO_DEFERRALS
    ensures !SeenRecently(s'.core.engine.recentHashes, DedupHash(a), t + 60_000)
    ensures !SeenRecently(s'.core.engine.recentHashes, DedupHash(b), t + 60_000)
    ensures s'.phase == Scoring([a, b], t) && s'.clock == t
  {
    s' := LookAtTwo(s, e, a, b);
  }

  /** Looked at, let through, and handed over. */
  lemma GoalRound(s: System, a: Observation, b: Observation, reports: seq<Option<seq<Observation>>>, t: int,
      task: string, e1: Event, e3: Event) returns (s1: System, s2: System, s3: System)
    requires TwoJobs(a, b) && t > 0 && Arrive(s, a, b, reports, t)
    requires e1 == TickCalled(0, Calm(t, StillRunning(|s.core.tracked.keys|), reports))
    requires e3 == Replied(UNNAMED_GOAL, 0, Some(task), t)
    ensures Enabled(s, e1) && s1 == Next(s, e1)
    ensures Enabled(s1, Scored([0, 0], t)) && s2 == Next(s1, Scored([0, 0], t))
    ensures Enabled(s2, e3) && s3 == Next(s2, e3)
    ensures s2.phase.batch == [a, b] && Ledger.VerdictOf(s2, e3) == Submitted(task, [], true)
    ensures Again(s3, a, b, t + 60_000) && s3.core.config == s.core.config
  {
    s1 := LookAtJobs(s, a, b, reports, t, e1);
    s2 := OrientTwo(s1, a, b, t);
    s3 := SubmitBoth(s2, a, b, t, task, e3);
  }

  // ---------- the goals of a run ----------

  /** A goal that was handed over: its task, what it was decided about, and when. */
  datatype Goal = Goal(task: string, about: set<string>, at: int)

  ghost function NoteGoal(goals: seq<Goal>, s: System, e: Event): seq<Goal>
    requires Enabled(s, e)
  {
    if Recorded.Submits(s, e) then goals + [Goal(Ledger.VerdictOf(s, e).task, Ids(s.phase.batch), e.now)] else goals
  }

  ghost function GoalsAfter(config: Config, t0: int, run: Run): seq<Goal>
    requires Legal(config, t0, run)
  {
    if run == [] then []
    else
      var before := run[..|run| - 1];
      NoteGoal(GoalsAfter(config, t0, before), After(config, t0, before), run[|run| - 1])
  }

  lemma GoalNoted(config: Config, t0: int, run: Run, e: Event, s: System)
    requires Legal(config, t0, run) && s == After(config, t0, run) && Enabled(s, e)
    ensures Legal(config, t0, run + [e]) && After(config, t0, run + [e]) == Next(s, e)
    ensures GoalsAfter(config, t0, run + [e]) == NoteGoal(GoalsAfter(config, t0, run), s, e)
  {
    OneEvent(config, t0, run, e, s);
  }

  lemma GoalsOfRound(config: Config, t0: int, run: Run, s: System, e1: Event, s1: System, e2: Event, s2: System,
      e3: Event, run': Run)
    requires Legal(config, t0, run) && s == After(config, t0, run)
    requires Pair(s, e1, s1, e2, s2) && Recorded.Submits(s2, e3) && run' == run + [e1] + [e2] + [e3]
    ensures Legal(config, t0, run')
    ensures GoalsAfter(config, t0, run')
         == GoalsAfter(config, t0, run) + [Goal(Ledger.VerdictOf(s2, e3).task, Ids(s2.phase.batch), e3.now)]
  {
    NoGoalsNoted(config, t0, run, e1, e2, s, s1, s2, run + [e1] + [e2]);
    GoalNoted(config, t0, run + [e1] + [e2], e3, s2);
  }

  lemma NoGoalsNoted(config: Config, t0: int, run: Run, e1: Event, e2: Event, s: System, s1: System, s2: System,
      run': Run)
    requires Legal(config, t0, run) && s == After(config, t0, run) && Pair(s, e1, s1, e2, s2)
    requires run' == run + [e1] + [e2]
    ensures Legal(config, t0, run') && After(config, t0, run') == s2
    ensures GoalsAfter(config, t0, run') == GoalsAfter(config, t0, run)
  {
    NoGoalNoted(config, t0, run, e1, s, s1);
    NoGoalNoted(config, t0, run + [e1], e2, s1, s2);
  }

  lemma NoGoalNoted(config: Config, t0: int, run: Run, e: Event, s: System, s': System)
    requires Legal(config, t0, run) && s == After(config, t0, run) && Enabled(s, e) && s' == Next(s, e) && !e.Replied?
    ensures Legal(config, t0, run + [e]) && After(config, t0, run + [e]) == s'
    ensures GoalsAfter(config, t0, run + [e]) == GoalsAfter(config, t0, run)
  {
    GoalNoted(config, t0, run, e, s);
  }

  lemma OneGoal(config: Config, t0: int, run: Run, s: System, e1: Event, s1: System, e2: Event, s2: System, e3: Event,
      s3: System, run': Run)
    requires Legal(config, t0, run) && s == After(config, t0, run)
    requires e1.TickCalled? && Enabled(s, e1) && s1 == Next(s, e1)
    requires e2.Scored? && Enabled(s1, e2) && s2 == Next(s1, e2)
    requires Recorded.Submits(s2, e3) && s3 == Next(s2, e3) && Ledger.VerdictOf(s2, e3).credited == []
    requires run' == run + [e1] + [e2] + [e3]
    ensures Legal(config, t0, run') && After(config, t0, run') == s3
    ensures GoalsAfter(config, t0, run')
         == GoalsAfter(config, t0, run) + [Goal(Ledger.VerdictOf(s2, e3).task, Ids(s2.phase.batch), e3.now)]
    ensures CreditedAfter(config, t0, run') == CreditedAfter(config, t0, run)
  {
    assert Ids([]) == {};
    RoundWritten(config, t0, run, e1, e2, e3, s, s1, s2, s3, {}, run');
    GoalsOfRound(config, t0, run, s, e1, s1, e2, s2, e3, run');
  }

  lemma HandedOver(config: Config, t0: int, run: Run, s: System, a: Observation, b: Observation,
      reports: seq<Option<seq<Observation>>>, t: int, task: string) returns (run': Run)
    requires Legal(config, t0, run) && s == After(config, t0, run) && TwoJobs(a, b) && t > 0
    requires Arrive(s, a, b, reports, t)
    ensures Legal(config, t0, run') && Again(After(config, t0, run'), a, b, t + 60_000)
    ensures After(config, t0, run').core.config == s.core.config
    ensures GoalsAfter(config, t0, run') == GoalsAfter(config, t0, run) + [Goal(task, {a.id, b.id}, t)]
    ensures CreditedAfter(config, t0, run') == CreditedAfter(config, t0, run)
  {
    var e1 := TickCalled(0, Calm(t, StillRunning(|s.core.tracked.keys|), reports));
    var e3 := Replied(UNNAMED_GOAL, 0, Some(task), t);
    var s1, s2, s3 := GoalRound(s, a, b, reports, t, task, e1, e3);
    run' := run + [e1] + [Scored([0, 0], t)] + [e3];
    OneGoal(config, t0, run, s, e1, s1, Scored([0, 0], t), s2, e3, s3, run');
    IdsOfTwo(a, b);
  }

  lemma IdsOfTwo(a: Observation, b: Observation)
    ensures Ids([a, b]) == {a.id, b.id}
  {
    SoleIds(a);
    SnocIds([a], b);
    assert [a] + [b] == [a, b];
  }

  // ---------- for ever ----------

  /** The id of the n-th task: no two are the same. */
  function TaskName(n: nat): string {
    seq(n, _ => 't')
  }

  /** One goal every minute from the first on, n in all, each with a task of its own and each decided about
      the same two observations. */
  ghost predicate GoalEveryMinute(goals: seq<Goal>, about: set<string>, t0: int, n: nat) {
    && |goals| == n
    && forall i :: 0 <= i < n ==> goals[i] == Goal(TaskName(i + 1), about, t0 + (i + 1) * 60_000)
  }

  /** In this run n goals have been submitted; none was credited with anything, and both observations wait
      for the next. */
  ghost predicate SubmittedTimes(config: Config, t0: int, run: Run, a: Observation, b: Observation, n: nat) {
    && Legal(config, t0, run)
    && After(config, t0, run).core.config == config
    && Again(After(config, t0, run), a, b, t0 + (n + 1) * 60_000)
    && GoalEveryMinute(GoalsAfter(config, t0, run), {a.id, b.id}, t0, n)
    && CreditedAfter(config, t0, run) == {}
  }

  lemma FirstGoal(config: Config, t0: int, a: Observation, b: Observation) returns (run: Run)
    requires t0 > 0 && Obliging(config) && config.minObservationPriority <= 80 && TwoJobs(a, b)
    ensures SubmittedTimes(config, t0, run, a, b, 1)
  {
    var t := t0 + 60_000;
    NothingDue(t);
    BothReported(a, b);
    assert [] + [] + [a, b] == [a, b];
    run := HandedOver(config, t0, [], Start(config, t0), a, b, [Some([a]), Some([b])], t, TaskName(1));
  }

  lemma NextGoal(config: Config, t0: int, before: Run, s: System, a: Observation, b: Observation, t: int,
      task: string) returns (run: Run)
    requires Legal(config, t0, before) && s == After(config, t0, before) && TwoJobs(a, b) && t > 0
    requires Again(s, a, b, t) && s.core.config.minObservationPriority <= 80
    ensures Legal(config, t0, run) && Again(After(config, t0, run), a, b, t + 60_000)
    ensures After(config, t0, run).core.config == s.core.config
    ensures GoalsAfter(config, t0, run) == GoalsAfter(config, t0, before) + [Goal(task, {a.id, b.id}, t)]
    ensures CreditedAfter(config, t0, run) == CreditedAfter(config, t0, before)
  {
    BothDue(a, b, t);
    assert [] + [a, b] + [] == [a, b];
    assert Gathered([]) == [] && Ids([]) == {};
    run := HandedOver(config, t0, before, s, a, b, [], t, task);
  }

  lemma OneMoreGoal(config: Config, t0: int, before: Run, run: Run, a: Observation, b: Observation, n: nat, t: int)
    requires n > 0 && SubmittedTimes(config, t0, before, a, b, n - 1) && t == t0 + n * 60_000
    requires Legal(config, t0, run) && Again(After(config, t0, run), a, b, t + 60_000)
    requires After(config, t0, run).core.config == config
    requires GoalsAfter(config, t0, run) == GoalsAfter(config, t0, before) + [Goal(TaskName(n), {a.id, b.id}, t)]
    requires CreditedAfter(config, t0, run) == CreditedAfter(config, t0, before)
    ensures SubmittedTimes(config, t0, run, a, b, n)
  {
  }

  /** RESUBMITTED FOR EVER. Recording the top does not keep a batch that came back from being submitted again:
      for every n there is a run of a new agent in which n goals, each with its own task, are submitted
      about the same two observations, one every minute. None is credited with anything. */
  lemma {:induction false} ResubmittedForEver(config: Config, t0: int, a: Observation, b: Observation, n: nat)
    returns (run: Run)
    requires t0 > 0 && n > 0 && Obliging(config) && config.minObservationPriority <= 80 && TwoJobs(a, b)
    ensures SubmittedTimes(config, t0, run, a, b, n)
  {
    if n == 1 {
      run := FirstGoal(config, t0, a, b);
    } else {
      var before := ResubmittedForEver(config, t0, a, b, n - 1);
      var t := t0 + n * 60_000;
      run := NextGoal(config, t0, before, After(config, t0, before), a, b, t, TaskName(n));
      OneMoreGoal(config, t0, before, run, a, b, n, t);
    }
  }
}
