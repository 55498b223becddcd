/** A run in which the failed outcome of a submitted goal is lost because of an adjustment that had long
    lapsed. */
module LostFailure {
  import opened Observations
  import opened OrderedMaps
  import opened Engine
  import opened Decisions
  import opened Core
  import opened Daemon
  import opened Ledger
  import opened Finality
  import opened Scenes
  import Keeping
  import Scorer

  /** The default configuration, but for a minimum of forty. */
  const STRICTER := Config(40, 30_000, 10.0)

  /** The source of outcomes is demoted by fifty, and the threshold lowered to twenty. */
  const DEMOTION := Adjustments(Some(20), Some(SourceBoost("task-outcome", -50)), None)

  const DEMOTE := Decision(Adjust, None, None, None, [], None, Some(DEMOTION), "r", false)

  const PUT_OFF := Decision(Decisions.Defer, None, None, None, [], Some(60), None, "r", false)

  const ONE_TASK := "task"

  function Demoted(t: int): Overrides {
    Overrides(Some(20), Some(t + 1_800_000), map["task-outcome" := -50], map["task-outcome" := t + 1_800_000], None)
  }

  function Following(t: int): OrderedMap<int> {
    OrderedMap([ONE_TASK], map[ONE_TASK := t])
  }

  /** Two reports of different sources, each worth a round; the first is work. */
  ghost predicate TwoReports(x: Observation, y: Observation) {
    && x.source != y.source && !x.source.TaskOutcome? && !y.source.TaskOutcome? && x.actionable
    && 40 <= x.priority <= 100 && 40 <= y.priority <= 100 && x.id != y.id
  }

  /** No outcome has been returned or recorded yet, and nothing is queued or filed. */
  ghost predicate NoOutcomeYet(s: System) {
    && (forall h :: h in s.core.engine.recentHashes ==> !h.source.TaskOutcome?)
    && (forall h :: h in s.core.actions ==> !h.source.TaskOutcome?)
    && s.core.engine.pending == [] && s.core.engine.deferred == NO_DEFERRALS
  }

  // ---------- a goal about the first report ----------

  /** The goal is followed up, what it answered is settled. */
  ghost predicate Submitting(x: Observation, t: int, s: System) {
    && Between(s, t + 60_000) && s.core.config == STRICTER && s.clock == t
    && s.core.tracked == Following(t) && s.core.overrides == NO_OVERRIDES && NoOutcomeYet(s)
    && s.core.actions.Keys == {Scorer.ActionHash(x)} && s.core.engine.recentHashes.Keys == {DedupHash(x)}
    && s.issued.Keys == {x.id}
  }

  lemma OnlyOneAnswered(x: Observation, ranked: seq<Observation>, d: Decision)
    requires x.actionable && ranked == [Scorer.ScoreOne(x, 0, map[], 0)] && d == AnswerOnly(x.id)
    ensures Judge(d, ranked, 0, Some(ONE_TASK)) == Submitted(ONE_TASK, ranked, true)
  {
    var ids := Names([x.id]);
    assert ids == {x.id};
    assert Keep(ranked, 0, ids, true) == [];
    assert Keep(ranked, 1, ids, true) == ranked;
    assert ranked[0] in ranked;
  }

  lemma SubmitOne(x: Observation, t: int, s: System, e: Event) returns (s': System)
    requires x.actionable && !x.source.TaskOutcome? && t > 0
    requires s.phase == Thinking([x], [Scorer.ScoreOne(x, 0, map[], 0)]) && s.clock == t && Untouched(s.core)
    requires s.core.config == STRICTER && s.core.held == [] && s.core.lastReasoningMs == t
    requires s.core.engine.pending == [] && s.core.engine.deferred == NO_DEFERRALS
    requires s.core.engine.recentHashes == map[DedupHash(x) := t] && s.issued.Keys == {x.id}
    requires e == Replied(AnswerOnly(x.id), 0, Some(ONE_TASK), t)
    ensures Enabled(s, e) && s' == Next(s, e) && CreditedBy(s, e) == {x.id}
    ensures Submitting(x, t, s')
  {
    var scored := Scorer.ScoreOne(x, 0, map[], 0);
    OnlyOneAnswered(x, s.phase.ranked, e.d);
    SoleIds(scored);
    assert Keep([x], 0, {x.id}, false) == [];
    assert Outside([x], {x.id}) == [];
    assert [] + [ONE_TASK] == [ONE_TASK];
    s' := Next(s, e);
    assert RecordEach(map[], [scored], 0, t) == map[];
    assert RecordEach(map[], [scored], 1, t) == Scorer.RecordAction(map[], scored, t);
    assert PutBack(s.core.engine, [], 0, 1, t) == s.core.engine;
  }

  lemma ScoreOfNothingRecorded(x: Observation, at: int)
    ensures Scorer.ScoreOne(x, 0, map[], at) == Scorer.ScoreOne(x, 0, map[], 0)
  {
  }

  lemma SubmittedOnceSeen(x: Observation, t1: int, s1: System, e3: Event) returns (s2: System, s3: System)
    requires x.actionable && !x.source.TaskOutcome? && 40 <= x.priority <= 100 && t1 > 0
    requires FirstSeen(STRICTER, x, t1, s1) && e3 == Replied(AnswerOnly(x.id), 0, Some(ONE_TASK), t1)
    ensures Enabled(s1, Scored([0], t1)) && s2 == Next(s1, Scored([0], t1))
    ensures Enabled(s2, e3) && s3 == Next(s2, e3) && CreditedBy(s2, e3) == {x.id} && Submitting(x, t1, s3)
  {
    s2 := OrientUntouched(s1, x, t1);
    ScoreOfNothingRecorded(x, t1);
    s3 := SubmitOne(x, t1, s2, e3);
  }

  lemma SubmittedOnTheFirst(x: Observation, t0: int, t1: int, e1: Event, e3: Event)
    returns (s1: System, s2: System, s3: System)
    requires x.actionable && !x.source.TaskOutcome? && 40 <= x.priority <= 100 && t0 > 0 && t1 == t0 + 60_000
    requires e1 == TickCalled(0, Calm(t1, [], [Some([x])])) && e3 == Replied(AnswerOnly(x.id), 0, Some(ONE_TASK), t1)
    ensures Round(Start(STRICTER, t0), e1, s1, Scored([0], t1), s2, e3, s3, {x.id})
    ensures Submitting(x, t1, s3)
  {
    s1 := FirstLook(STRICTER, x, t0, t1, e1);
    s2, s3 := SubmittedOnceSeen(x, t1, s1, e3);
  }

  lemma FailureFirst(x: Observation, y: Observation, t0: int, t1: int, e1: Event, e3: Event, run: Run)
    requires TwoReports(x, y) && t0 > 0 && t1 == t0 + 60_000
    requires e1 == TickCalled(0, Calm(t1, [], [Some([x])])) && e3 == Replied(AnswerOnly(x.id), 0, Some(ONE_TASK), t1)
    requires run == [] + [e1] + [Scored([0], t1)] + [e3]
    ensures Legal(STRICTER, t0, run) && Submitting(x, t1, After(STRICTER, t0, run))
    ensures CreditedAfter(STRICTER, t0, run) == {x.id}
  {
    var s1, s2, s3 := SubmittedOnTheFirst(x, t0, t1, e1, e3);
    RoundWritten(STRICTER, t0, [], e1, Scored([0], t1), e3, Start(STRICTER, t0), s1, s2, s3, {x.id}, run);
  }

  // ---------- outcomes are demoted ----------

  ghost predicate Demoting(x: Observation, y: Observation, t: int, s: System) {
    && Between(s, t + 60_000) && s.core.config == STRICTER && s.clock == t
    && s.core.tracked == Following(t - 60_000) && s.core.overrides == Demoted(t) && NoOutcomeYet(s)
    && s.issued.Keys == {x.id, y.id}
  }

  lemma SecondLook(x: Observation, y: Observation, t: int, s: System, e: Event) returns (s': System)
    requires TwoReports(x, y) && Submitting(x, t - 60_000, s)
    requires e == TickCalled(0, Calm(t, [Running], [Some([y])]))
    ensures Enabled(s, e) && s' == Next(s, e)
    ensures s'.core == s.core.(tickInFlight := true, engine := s'.core.engine) && NoOutcomeYet(s')
    ensures s'.phase == Scoring([y], t) && s'.clock == t && s'.issued.Keys == {x.id, y.id}
  {
    NothingDue(t);
    OneReport(y);
    assert [] + [] + [y] == [y];
    s' := LookAtLast(s, e, y);
    assert Register(s.issued, [y], 0) == s.issued;
    assert s'.issued == s.issued[y.id := y];
  }

  lemma AdjustedTo(x: Observation, y: Observation, s: System, t: int, ranked: seq<Observation>, e: Event)
    returns (s': System)
    requires s.phase == Thinking([y], ranked) && ranked != [] && s.clock == t && t > 0
    requires s.core.tracked == Following(t - 60_000) && s.core.overrides == NO_OVERRIDES && NoOutcomeYet(s)
    requires s.core.config == STRICTER && s.core.held == [] && s.core.lastReasoningMs == t
    requires s.issued.Keys == {x.id, y.id} && e == Replied(DEMOTE, 0, None, t)
    ensures Enabled(s, e) && s' == Next(s, e) && CreditedBy(s, e) == {}
    ensures Demoting(x, y, t, s')
  {
    assert VerdictOf(s, e) == Adjusted(DEMOTION);
    s' := Next(s, e);
  }

  lemma DemotedOnTheSecond(x: Observation, y: Observation, t: int, s: System, e1: Event, e3: Event)
    returns (s1: System, s2: System, s3: System)
    requires TwoReports(x, y) && t > 60_000 && Submitting(x, t - 60_000, s)
    requires e1 == TickCalled(0, Calm(t, [Running], [Some([y])])) && e3 == Replied(DEMOTE, 0, None, t)
    ensures Round(s, e1, s1, Scored([0], t), s2, e3, s3, {})
    ensures Demoting(x, y, t, s3)
  {
    s1 := SecondLook(x, y, t, s, e1);
    s2 := OrientQuiet(s1, y, t);
    s3 := AdjustedTo(x, y, s2, t, s2.phase.ranked, e3);
  }

  lemma FailureDemoted(x: Observation, y: Observation, t0: int, t2: int, before: Run, e1: Event, e3: Event, run: Run)
    requires TwoReports(x, y) && t2 > 60_000
    requires Legal(STRICTER, t0, before) && Submitting(x, t2 - 60_000, After(STRICTER, t0, before))
    requires e1 == TickCalled(0, Calm(t2, [Running], [Some([y])])) && e3 == Replied(DEMOTE, 0, None, t2)
    requires run == before + [e1] + [Scored([0], t2)] + [e3]
    ensures Legal(STRICTER, t0, run) && Demoting(x, y, t2, After(STRICTER, t0, run))
    ensures CreditedAfter(STRICTER, t0, run) == CreditedAfter(STRICTER, t0, before)
  {
    var s := After(STRICTER, t0, before);
    var s1, s2, s3 := DemotedOnTheSecond(x, y, t2, s, e1, e3);
    RoundWritten(STRICTER, t0, before, e1, Scored([0], t2), e3, s, s1, s2, s3, {}, run);
  }

  lemma FailureAsked(x: Observation, y: Observation, t0: int, t1: int, t2: int, e1: Event, e3: Event, e4: Event,
      e6: Event, run1: Run, run2: Run)
    requires TwoReports(x, y) && t0 > 0 && t1 == t0 + 60_000 && t2 == t1 + 60_000
    requires e1 == TickCalled(0, Calm(t1, [], [Some([x])])) && e3 == Replied(AnswerOnly(x.id), 0, Some(ONE_TASK), t1)
    requires e4 == TickCalled(0, Calm(t2, [Running], [Some([y])])) && e6 == Replied(DEMOTE, 0, None, t2)
    requires run1 == [] + [e1] + [Scored([0], t1)] + [e3] && run2 == run1 + [e4] + [Scored([0], t2)] + [e6]
    ensures Legal(STRICTER, t0, run2) && Demoting(x, y, t2, After(STRICTER, t0, run2))
    ensures CreditedAfter(STRICTER, t0, run2) == {x.id}
  {
    FailureFirst(x, y, t0, t1, e1, e3, run1);
    FailureDemoted(x, y, t0, t2, run1, e4, e6, run2);
  }

  // ---------- the outcome is seen, demoted ----------

  /** The failed outcome, as a demoted source makes the gate see it. */
  function Demote(f: Observation): Observation {
    f.(priority := 30)
  }

  lemma DemotedScore(f: Observation, actions: Scorer.ActionTable, t: int, at: int)
    requires f.source.TaskOutcome? && f.priority == 70 && f.actionable && t <= at < t + 1_800_000
    requires Scorer.ActionHash(f) !in actions
    ensures ExpireBoosts(Demoted(t), at) == Demoted(t) && ExpireThreshold(Demoted(t), at) == Demoted(t)
    ensures Boost(Scorer.ScoreOne(f, 0, actions, at), Demoted(t).boosts) == Demote(f)
  {
  }

  lemma LapsedScore(f: Observation, actions: Scorer.ActionTable, t: int, at: int)
    requires f.source.TaskOutcome? && f.actionable && at >= t + 1_800_000 && Scorer.ActionHash(f) !in actions
    ensures ExpireBoosts(Demoted(t), at).boosts == map[]
    ensures ExpireThreshold(ExpireBoosts(Demoted(t), at), at).threshold.None?
    ensures Scorer.ScoreOne(Demote(f), 0, actions, at).priority == 35
  {
  }

  /** The failed outcome is in the tick's hands, and in no table but that of hashes. */
  ghost predicate InHand(f: Observation, t2: int, t3: int, s: System) {
    && s.clock == t3 && f.id in s.issued && s.issued[f.id] == f && s.core.config == STRICTER && s.core.held == []
    && s.core.tracked == OrderedMap([], map[]) && s.core.overrides == Demoted(t2)
    && Scorer.ActionHash(f) !in s.core.actions
    && s.core.engine.pending == [] && s.core.engine.deferred == NO_DEFERRALS
    && DedupHash(f) in s.core.engine.recentHashes && s.core.engine.recentHashes[DedupHash(f)] == t3
  }

  /** The sweep reports the one task there is, and its outcome is collected at once. */
  lemma SweepReports(s: System, t: int, ended: TaskReply, f: Observation, e: Event) returns (s': System)
    requires Between(s, t) && s.core.tracked == Following(t - 120_000) && NoOutcomeYet(s)
    requires ended.Ended? && f == OutcomeObservation(ONE_TASK, ended, t) && f.id !in s.issued
    requires e == TickCalled(0, Calm(t, [ended], []))
    ensures Enabled(s, e) && s' == Next(s, e)
    ensures s'.phase == Scoring([f], t) && s'.clock == t && s'.issued == s.issued[f.id := f]
    ensures s'.core == s.core.(tickInFlight := true, engine := s'.core.engine, tracked := OrderedMap([], map[]))
    ensures s'.core.engine.pending == [] && s'.core.engine.deferred == NO_DEFERRALS
    ensures DedupHash(f) in s'.core.engine.recentHashes && s'.core.engine.recentHashes[DedupHash(f)] == t
  {
    var core := LookingCore(s);
    SweptOne(s.core.engine, s.core.tracked, ended, t, f);
    SoleIds(f);
    assert Gathered([]) == [] && [f] + [] == [f];
    assert Newcomers(s.core, e.env) == [f] && Newcomers(core, e.env) == [f];
    assert Plausible(s, e.env);
    s' := Next(s, e);
    NothingDue(t);
    assert [f] + [] + [] == [f];
    CollectOne(SweptEngine(core, e.env), [], t, f, Harvested(core, e.env));
    assert Admitted(core, e.env);
    ObserveShape(core, e.env, Observe(core, e.env));
    assert Register(s.issued, [f], 0) == s.issued;
  }

  lemma SweptOne(e: EngineState, tracked: OrderedMap<int>, ended: TaskReply, now: int, f: Observation)
    requires tracked == Following(now - 120_000) && ended.Ended? && f == OutcomeObservation(ONE_TASK, ended, now)
    requires e.pending == []
    ensures SweepTasks(e, tracked, [ended], 1, now) == Sweep(e.(pending := [f]), OrderedMap([], map[]), false)
    ensures Outcomes(tracked.keys, [ended], 1, now) == [f]
  {
    assert SweepTasks(e, tracked, [ended], 0, now) == Sweep(e, tracked, false);
    assert [] + [f] == [f];
    assert WithoutUpTo([ONE_TASK], 0, ONE_TASK) == [];
    assert Without([ONE_TASK], ONE_TASK) == [];
    assert tracked.items - {ONE_TASK} == map[];
    assert Outcomes(tracked.keys, [ended], 0, now) == [];
  }

  lemma FailureSeen(x: Observation, y: Observation, f: Observation, ended: TaskReply, t: int, s: System, e1: Event)
    returns (s1: System, s2: System)
    requires Demoting(x, y, t - 60_000, s) && ended.Ended? && !ended.success
    requires f == OutcomeObservation(ONE_TASK, ended, t) && f.id != x.id && f.id != y.id
    requires e1 == TickCalled(0, Calm(t, [ended], []))
    ensures Enabled(s, e1) && s1 == Next(s, e1)
    ensures Enabled(s1, Scored([0], t)) && s2 == Next(s1, Scored([0], t))
    ensures s2.phase == Thinking([f], [Demote(f)]) && s2.core.lastReasoningMs == t && InHand(f, t - 60_000, t, s2)
  {
    s1 := SweepReports(s, t, ended, f, e1);
    var actions := Scorer.Pruned(s1.core.actions, t);
    DemotedScore(f, actions, t - 60_000, t);
    s2 := OrientOpens(s1, f, t, t, actions, Demote(f), Oriented(s1.core, [f], t, [0], t));
  }

  // ---------- it is put off, and dropped when it comes back ----------

  /** The demoted copy waits for its hour to pass. */
  ghost predicate FiledDemoted(f: Observation, t2: int, t4: int, s: System) {
    && Between(s, t4) && s.core.config == STRICTER && f.id in s.issued && s.issued[f.id] == f
    && s.core.tracked == OrderedMap([], map[]) && s.core.overrides == Demoted(t2)
    && Scorer.ActionHash(f) !in s.core.actions
    && s.core.engine.pending == [] && s.core.engine.deferred == Waiting(Demote(f), t4)
    && !SeenRecently(s.core.engine.recentHashes, DedupHash(f), t4)
  }

  lemma FailureFiled(f: Observation, t2: int, t3: int, t4: int, s: System, e: Event) returns (s': System)
    requires s.phase == Thinking([f], [Demote(f)]) && s.core.lastReasoningMs == t3 && InHand(f, t2, t3, s)
    requires t4 == t3 + 3_600_000 && e == Replied(PUT_OFF, 0, None, t3)
    ensures Enabled(s, e) && s' == Next(s, e) && CreditedBy(s, e) == {}
    ensures FiledDemoted(f, t2, t4, s')
  {
    assert VerdictOf(s, e) == PutOff(60);
    s' := Next(s, e);
    assert Keep([f], 0, {f.id}, false) == [];
    assert Outside([f], {f.id}) == [];
    assert [] + [f.id] == [f.id];
    assert PutBack(Engine.Defer(s.core.engine, Demote(f), 60, t3), [], 0, 1, t3)
        == Engine.Defer(s.core.engine, Demote(f), 60, t3);
  }

  lemma SeenAndFiled(x: Observation, y: Observation, f: Observation, ended: TaskReply, t: int, s: System, e1: Event,
      e3: Event) returns (s1: System, s2: System, s3: System)
    requires Demoting(x, y, t - 60_000, s) && ended.Ended? && !ended.success
    requires f == OutcomeObservation(ONE_TASK, ended, t) && f.id != x.id && f.id != y.id
    requires e1 == TickCalled(0, Calm(t, [ended], [])) && e3 == Replied(PUT_OFF, 0, None, t)
    ensures Round(s, e1, s1, Scored([0], t), s2, e3, s3, {})
    ensures FiledDemoted(f, t - 60_000, t + 3_600_000, s3)
  {
    s1, s2 := FailureSeen(x, y, f, ended, t, s, e1);
    s3 := FailureFiled(f, t - 60_000, t, t + 3_600_000, s2, e3);
  }

  lemma FailurePutOff(x: Observation, y: Observation, f: Observation, ended: TaskReply, t0: int, t3: int, before: Run,
      e1: Event, e3: Event, run: Run)
    requires Legal(STRICTER, t0, before) && Demoting(x, y, t3 - 60_000, After(STRICTER, t0, before))
    requires ended.Ended? && !ended.success
    requires f == OutcomeObservation(ONE_TASK, ended, t3) && f.id != x.id && f.id != y.id
    requires e1 == TickCalled(0, Calm(t3, [ended], [])) && e3 == Replied(PUT_OFF, 0, None, t3)
    requires run == before + [e1] + [Scored([0], t3)] + [e3]
    ensures Legal(STRICTER, t0, run) && FiledDemoted(f, t3 - 60_000, t3 + 3_600_000, After(STRICTER, t0, run))
    ensures CreditedAfter(STRICTER, t0, run) == CreditedAfter(STRICTER, t0, before)
  {
    var s := After(STRICTER, t0, before);
    var s1, s2, s3 := SeenAndFiled(x, y, f, ended, t3, s, e1, e3);
    RoundWritten(STRICTER, t0, before, e1, Scored([0], t3), e3, s, s1, s2, s3, {}, run);
  }

  lemma FailureDropped(f: Observation, t2: int, t4: int, s: System, e1: Event) returns (s1: System, s2: System)
    requires f.source.TaskOutcome? && f.actionable && t4 >= t2 + 1_800_000 && FiledDemoted(f, t2, t4, s)
    requires e1 == TickCalled(0, Calm(t4, [], []))
    ensures Pair(s, e1, s1, Scored([0], t4), s2)
    ensures f.id in s2.issued && s2.issued[f.id] == f && f.id !in Places(s2)
    ensures forall b: Books ::
              Book(b, s1, Scored([0], t4)) == b.(fate := b.fate + map[f.id := BelowMinimum(35, 35)])
  {
    OneDue(Demote(f), t4, t4);
    assert [] + [Demote(f)] + [] == [Demote(f)];
    assert Gathered([]) == [] && Ids([]) == {};
    s1 := LookAtLast(s, e1, Demote(f));
    LapsedScore(f, Scorer.Pruned(s1.core.actions, t4), t2, t4);
    s2 := DroppedAlone(s1, Demote(f), t4, Scored([0], t4), 35);
  }

  lemma FailureThen(f: Observation, t0: int, t2: int, t4: int, before: Run, e1: Event, run: Run)
    requires f.source.TaskOutcome? && f.actionable && t4 >= t2 + 1_800_000
    requires Legal(STRICTER, t0, before) && FiledDemoted(f, t2, t4, After(STRICTER, t0, before))
    requires e1 == TickCalled(0, Calm(t4, [], [])) && run == before + [e1] + [Scored([0], t4)]
    ensures Legal(STRICTER, t0, run)
    ensures CreditedAfter(STRICTER, t0, run) == CreditedAfter(STRICTER, t0, before)
    ensures var s := After(STRICTER, t0, run); f.id in s.issued && s.issued[f.id] == f && f.id !in Places(s)
    ensures var fate := BooksAfter(STRICTER, t0, run).fate; f.id in fate && fate[f.id] == BelowMinimum(35, 35)
  {
    var s := After(STRICTER, t0, before);
    var s1, s2 := FailureDropped(f, t2, t4, s, e1);
    TwoWritten(STRICTER, t0, before, e1, Scored([0], t4), s, s1, s2, run);
  }

  lemma FailureDelayed(x: Observation, y: Observation, f: Observation, ended: TaskReply, t0: int, t3: int, t4: int,
      run2: Run, e7: Event, e9: Event, e10: Event, run3: Run, run: Run)
    requires Legal(STRICTER, t0, run2) && Demoting(x, y, t3 - 60_000, After(STRICTER, t0, run2))
    requires ended.Ended? && !ended.success && t4 == t3 + 3_600_000
    requires f == OutcomeObservation(ONE_TASK, ended, t3) && f.id != x.id && f.id != y.id
    requires e7 == TickCalled(0, Calm(t3, [ended], [])) && e9 == Replied(PUT_OFF, 0, None, t3)
    requires e10 == TickCalled(0, Calm(t4, [], []))
    requires run3 == run2 + [e7] + [Scored([0], t3)] + [e9] && run == run3 + [e10] + [Scored([0], t4)]
    ensures Legal(STRICTER, t0, run)
    ensures CreditedAfter(STRICTER, t0, run) == CreditedAfter(STRICTER, t0, run2)
    ensures var s := After(STRICTER, t0, run); f.id in s.issued && s.issued[f.id] == f && f.id !in Places(s)
    ensures var fate := BooksAfter(STRICTER, t0, run).fate; f.id in fate && fate[f.id] == BelowMinimum(35, 35)
  {
    FailurePutOff(x, y, f, ended, t0, t3, run2, e7, e9, run3);
    FailureThen(f, t0, t3 - 60_000, t4, run3, e10, run);
  }

  /** A FAILURE IS LOST. With a minimum of forty: a goal about one report is submitted and followed up; on
      a second report outcomes are demoted by fifty; the goal's task fails, its outcome (70, scored 80)
      is seen as 30 and put off for an hour; half an hour later every override has lapsed; when the hour
      is over it scores 35 and is dropped. No goal was ever credited with it. */
  lemma {:induction false} FailureLost(t0: int, x: Observation, y: Observation, ended: TaskReply, f: Observation,
      t1: int, t2: int, t3: int, t4: int, run: Run)
    requires TwoReports(x, y) && ended.Ended? && !ended.success && ended.uuid != x.id && ended.uuid != y.id
    requires t0 > 0 && t1 == t0 + 60_000 && t2 == t1 + 60_000 && t3 == t2 + 60_000 && t4 == t3 + 3_600_000
    requires f == OutcomeObservation(ONE_TASK, ended, t3)
    requires run == [] + [TickCalled(0, Calm(t1, [], [Some([x])]))]
                       + [Scored([0], t1)]
                       + [Replied(AnswerOnly(x.id), 0, Some(ONE_TASK), t1)]
                       + [TickCalled(0, Calm(t2, [Running], [Some([y])]))]
                       + [Scored([0], t2)]
                       + [Replied(DEMOTE, 0, None, t2)]
                       + [TickCalled(0, Calm(t3, [ended], []))]
                       + [Scored([0], t3)]
                       + [Replied(PUT_OFF, 0, None, t3)]
                       + [TickCalled(0, Calm(t4, [], []))]
                       + [Scored([0], t4)]
    ensures Legal(STRICTER, t0, run)
    ensures CreditedAfter(STRICTER, t0, run) == {x.id} && f.id !in CreditedAfter(STRICTER, t0, run)
    ensures var s := After(STRICTER, t0, run); f.id in s.issued && s.issued[f.id] == f && f.id !in Places(s)
    ensures Keeping.FailedOutcome(f)
    ensures var fate := BooksAfter(STRICTER, t0, run).fate; f.id in fate && fate[f.id] == BelowMinimum(35, 35)
  {
    var e1, e3 := TickCalled(0, Calm(t1, [], [Some([x])])), Replied(AnswerOnly(x.id), 0, Some(ONE_TASK), t1);
    var e4, e6 := TickCalled(0, Calm(t2, [Running], [Some([y])])), Replied(DEMOTE, 0, None, t2);
    var e7, e9 := TickCalled(0, Calm(t3, [ended], [])), Replied(PUT_OFF, 0, None, t3);
    var run1: Run := [] + [e1] + [Scored([0], t1)] + [e3];
    var run2 := run1 + [e4] + [Scored([0], t2)] + [e6];
    var run3 := run2 + [e7] + [Scored([0], t3)] + [e9];
    var e10 := TickCalled(0, Calm(t4, [], []));
    FailureAsked(x, y, t0, t1, t2, e1, e3, e4, e6, run1, run2);
    FailureDelayed(x, y, f, ended, t0, t3, t4, run2, e7, e9, e10, run3, run);
    OutcomeFailed(ended, t3);
  }

  lemma OutcomeFailed(ended: TaskReply, t: int)
    requires ended.Ended? && !ended.success
    ensures Keeping.FailedOutcome(OutcomeObservation(ONE_TASK, ended, t))
  {
  }
}
