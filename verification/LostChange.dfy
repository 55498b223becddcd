/** A run in which a working-tree change that no goal answered is lost. */
module LostChange {
  import opened Observations
  import opened Engine
  import opened Decisions
  import opened Core
  import opened Daemon
  import opened Ledger
  import opened Finality
  import opened Scenes
  import OrderedMaps
  import Recency
  import Scorer

  /** A working-tree change and a file that was added, as their observers report them. */
  ghost predicate TwoReports(g: Observation, w: Observation) {
    && g.source.Git? && w.source.FileWatch? && g.id != w.id
    && g.priority == 30 && w.priority == 30 && g.actionable && w.actionable
  }

  lemma BothLookedAt(g: Observation, w: Observation, t0: int, t1: int, e: Event) returns (s: System)
    requires TwoReports(g, w) && t0 > 0 && t1 == t0 + 60_000
    requires e == TickCalled(0, Calm(t1, [], [Some([g]), Some([w])]))
    ensures Enabled(Start(DEFAULTS, t0), e) && s == Next(Start(DEFAULTS, t0), e)
    ensures s.phase == Scoring([g, w], t1) && s.clock == t1 && Untouched(s.core)
    ensures s.core.engine.pending == [] && s.core.engine.deferred == NO_DEFERRALS
    ensures s.core.engine.recentHashes == map[DedupHash(g) := t1, DedupHash(w) := t1]
    ensures s.core.config == DEFAULTS && s.core.held == [] && g.id in s.issued
  {
    NothingDue(t1);
    BothReported(g, w);
    assert [] + [] + [g, w] == [g, w];
    s := LookAtTwo(Start(DEFAULTS, t0), e, g, w);
    assert Recency.Prune(NEW_ENGINE.recentHashes, t1, DEDUP_WINDOW_MS) == map[];
    RegisterExact(map[], [g, w], 2);
    assert [g, w][0] == g;
  }

  lemma UnchangedByScoring(o: Observation, at: int)
    requires o.source.Git? || o.source.FileWatch?
    requires o.priority == 30
    ensures Scorer.ScoreOne(o, 0, map[], at) == o
  {
  }

  lemma BothScored(g: Observation, w: Observation, t: int)
    requires TwoReports(g, w)
    ensures Scorer.Ranked([g, w], [0, 0], map[], t) == [g, w]
  {
    var s := [g, w];
    UnchangedByScoring(g, t);
    UnchangedByScoring(w, t);
    assert Scorer.ScoreEach(s, [0, 0], 0, map[], t) == [];
    assert Scorer.ScoreEach(s, [0, 0], 1, map[], t) == [g];
    assert Scorer.ScoreEach(s, [0, 0], 2, map[], t) == [g, w];
    SortTwo(g, w);
  }

  lemma BothOriented(g: Observation, w: Observation, t: int, s: System) returns (s': System)
    requires TwoReports(g, w) && s.phase == Scoring([g, w], t) && s.clock == t && Untouched(s.core)
    requires s.core.config == DEFAULTS
    ensures Enabled(s, Scored([0, 0], t)) && s' == Next(s, Scored([0, 0], t))
    ensures s'.phase == Thinking([g, w], [g, w]) && s'.clock == t && s'.issued == s.issued
    ensures s'.core == s.core.(lastReasoningMs := t)
  {
    assert Scorer.Pruned(s.core.actions, t) == map[];
    assert ExpireBoosts(NO_OVERRIDES, t) == NO_OVERRIDES;
    BothScored(g, w, t);
    assert BoostEach([g, w], 0, map[]) == [];
    assert BoostEach([g, w], 1, map[]) == [g];
    assert BoostEach([g, w], 2, map[]) == [g, w];
    s' := Next(s, Scored([0, 0], t));
  }

  /** The goal names the file only; the change stands first, and is recorded as acted on too. */
  lemma OneAnswered(g: Observation, w: Observation, t: int, s: System, e: Event, v: Verdict)
    requires TwoReports(g, w) && s.phase == Thinking([g, w], [g, w]) && s.clock == t
    requires e == Replied(AnswerOnly(w.id), 0, Some("task"), t) && v == Submitted("task", [w], true)
    ensures Enabled(s, e) && VerdictOf(s, e) == v
  {
    var ids := Names([w.id]);
    assert ids == {w.id};
    assert Keep([g, w], 0, ids, true) == [];
    assert Keep([g, w], 1, ids, true) == [];
    assert Keep([g, w], 2, ids, true) == [w];
    assert Within([g, w], ids) == [w];
    assert w in [w];
  }

  lemma ChangePutBack(g: Observation, w: Observation, t: int, s: System, e: Event) returns (s': System)
    requires TwoReports(g, w) && s.phase == Thinking([g, w], [g, w]) && s.clock == t && t > 0 && Untouched(s.core)
    requires s.core.engine.pending == [] && s.core.engine.deferred == NO_DEFERRALS
    requires s.core.held == [] && s.core.config == DEFAULTS && s.core.lastReasoningMs == t
    requires e == Replied(AnswerOnly(w.id), 0, Some("task"), t)
    ensures Enabled(s, e) && s' == Next(s, e) && VerdictOf(s, e) == Submitted("task", [w], true)
    ensures Between(s', t + 60_000) && s'.issued == s.issued && s'.core.config == DEFAULTS
    ensures s'.core.overrides == NO_OVERRIDES && s'.core.tracked == OrderedMaps.OrderedMap(["task"], map["task" := t])
    ensures s'.core.engine.pending == [] && s'.core.engine.deferred == Waiting(g, t + 60_000)
    ensures s'.core.engine.recentHashes == s.core.engine.recentHashes
    ensures Scorer.ActionHash(g) in s'.core.actions && s'.core.actions[Scorer.ActionHash(g)] == t
  {
    OneAnswered(g, w, t, s, e, Submitted("task", [w], true));
    SoleIds(w);
    assert Keep([g, w], 0, {w.id}, false) == [];
    assert Keep([g, w], 1, {w.id}, false) == [g];
    assert Outside([g, w], {w.id}) == [g];
    assert [] + ["task"] == ["task"] && [] + [g.id] == [g.id];
    s' := Next(s, e);
    assert PutBack(s.core.engine, [g], 0, 1, t) == s.core.engine;
    assert PutBack(s.core.engine, [g], 1, 1, t) == Engine.Defer(s.core.engine, g, 1, t);
  }

  lemma ChangeLookedAt(g: Observation, t2: int, s: System, e: Event) returns (s': System)
    requires Between(s, t2) && s.core.tracked == OrderedMaps.OrderedMap(["task"], map["task" := t2 - 60_000])
    requires s.core.engine.pending == [] && s.core.engine.deferred == Waiting(g, t2)
    requires DedupHash(g) in s.core.engine.recentHashes && s.core.engine.recentHashes[DedupHash(g)] == t2 - 60_000
    requires e == TickCalled(0, Calm(t2, [Running], []))
    ensures Enabled(s, e) && s' == Next(s, e)
    ensures s'.core == s.core.(tickInFlight := true, engine := s'.core.engine)
    ensures s'.core.engine.pending == [] && s'.core.engine.deferred == NO_DEFERRALS
    ensures s'.phase == Scoring([g], t2) && s'.clock == t2 && s'.issued == s.issued
  {
    OneDue(g, t2, t2);
    assert [] + [g] + [] == [g];
    assert Gathered([]) == [] && Ids([]) == {};
    s' := LookAtLast(s, e, g);
  }

  lemma PenalisedChange(g: Observation, actions: Scorer.ActionTable, t2: int)
    requires g.source.Git? && g.priority == 30 && t2 > 60_000
    requires Scorer.ActionHash(g) in actions && actions[Scorer.ActionHash(g)] == t2 - 60_000
    ensures Scorer.ScoreOne(g, 0, Scorer.Pruned(actions, t2), t2).priority == 10
  {
  }

  lemma TreeAnswered(g: Observation, w: Observation, t0: int, t1: int, e1: Event, e3: Event)
    returns (s1: System, s2: System, s3: System)
    requires TwoReports(g, w) && t0 > 0 && t1 == t0 + 60_000
    requires e1 == TickCalled(0, Calm(t1, [], [Some([g]), Some([w])]))
    requires e3 == Replied(AnswerOnly(w.id), 0, Some("task"), t1)
    ensures Round(Start(DEFAULTS, t0), e1, s1, Scored([0, 0], t1), s2, e3, s3, {w.id})
    ensures FileAnswered(g, w, t1, s3)
  {
    s1 := BothLookedAt(g, w, t0, t1, e1);
    s2 := BothOriented(g, w, t1, s1);
    s3 := ChangePutBack(g, w, t1, s2, e3);
    SoleIds(w);
  }

  /** The file has been answered; the change waits, recorded as acted on. */
  ghost predicate FileAnswered(g: Observation, w: Observation, t: int, s: System) {
    && Between(s, t + 60_000) && s.core.config == DEFAULTS && g.id in s.issued
    && s.core.overrides == NO_OVERRIDES && s.core.tracked == OrderedMaps.OrderedMap(["task"], map["task" := t])
    && s.core.engine.pending == [] && s.core.engine.deferred == Waiting(g, t + 60_000)
    && s.core.engine.recentHashes == map[DedupHash(g) := t, DedupHash(w) := t]
    && Scorer.ActionHash(g) in s.core.actions && s.core.actions[Scorer.ActionHash(g)] == t
  }

  lemma TreeDropped(g: Observation, w: Observation, t2: int, s: System, e1: Event) returns (s1: System, s2: System)
    requires TwoReports(g, w) && t2 > 60_000 && FileAnswered(g, w, t2 - 60_000, s)
    requires e1 == TickCalled(0, Calm(t2, [Running], []))
    ensures Pair(s, e1, s1, Scored([0], t2), s2)
    ensures g.id in s2.issued && g.id !in Places(s2)
    ensures forall b: Books ::
              Book(b, s1, Scored([0], t2)) == b.(fate := b.fate + map[g.id := BelowMinimum(10, 10)])
  {
    s1 := ChangeLookedAt(g, t2, s, e1);
    PenalisedChange(g, s1.core.actions, t2);
    assert ExpireBoosts(NO_OVERRIDES, t2) == NO_OVERRIDES;
    s2 := DroppedAlone(s1, g, t2, Scored([0], t2), 10);
  }

  lemma TreeFirst(g: Observation, w: Observation, t0: int, t1: int, e1: Event, e3: Event, run: Run)
    requires TwoReports(g, w) && t0 > 0 && t1 == t0 + 60_000
    requires e1 == TickCalled(0, Calm(t1, [], [Some([g]), Some([w])]))
    requires e3 == Replied(AnswerOnly(w.id), 0, Some("task"), t1)
    requires run == [] + [e1] + [Scored([0, 0], t1)] + [e3]
    ensures Legal(DEFAULTS, t0, run) && FileAnswered(g, w, t1, After(DEFAULTS, t0, run))
    ensures CreditedAfter(DEFAULTS, t0, run) == {w.id}
  {
    var s1, s2, s3 := TreeAnswered(g, w, t0, t1, e1, e3);
    RoundWritten(DEFAULTS, t0, [], e1, Scored([0, 0], t1), e3, Start(DEFAULTS, t0), s1, s2, s3, {w.id}, run);
  }

  lemma TreeThen(g: Observation, w: Observation, t0: int, t2: int, before: Run, e1: Event, run: Run)
    requires TwoReports(g, w) && t2 > 60_000
    requires Legal(DEFAULTS, t0, before) && FileAnswered(g, w, t2 - 60_000, After(DEFAULTS, t0, before))
    requires e1 == TickCalled(0, Calm(t2, [Running], [])) && run == before + [e1] + [Scored([0], t2)]
    ensures Legal(DEFAULTS, t0, run)
    ensures CreditedAfter(DEFAULTS, t0, run) == CreditedAfter(DEFAULTS, t0, before)
    ensures g.id in After(DEFAULTS, t0, run).issued && g.id !in Places(After(DEFAULTS, t0, run))
    ensures var fate := BooksAfter(DEFAULTS, t0, run).fate; g.id in fate && fate[g.id] == BelowMinimum(10, 10)
  {
    var s := After(DEFAULTS, t0, before);
    var s1, s2 := TreeDropped(g, w, t2, s, e1);
    TwoWritten(DEFAULTS, t0, before, e1, Scored([0], t2), s, s1, s2, run);
  }

  /** A WORKING-TREE CHANGE IS LOST, at the default `AgentCoreConfig`: reported together with an added file, it
      stands first; the goal that is submitted names the file only; a minute later the change is back,
      pays for a goal that was not about it, scores 10, and is dropped. No goal was ever credited with it. */
  lemma WorkingTreeChangeLost(t0: int, g: Observation, w: Observation, t1: int, t2: int, run: Run)
    requires TwoReports(g, w) && t0 > 0 && t1 == t0 + 60_000 && t2 == t1 + 60_000
    requires run == [] + [TickCalled(0, Calm(t1, [], [Some([g]), Some([w])]))]
                       + [Scored([0, 0], t1)]
                       + [Replied(AnswerOnly(w.id), 0, Some("task"), t1)]
                       + [TickCalled(0, Calm(t2, [Running], []))]
                       + [Scored([0], t2)]
    ensures Legal(DEFAULTS, t0, run)
    ensures CreditedAfter(DEFAULTS, t0, run) == {w.id}
    ensures g.id in After(DEFAULTS, t0, run).issued && g.id !in Places(After(DEFAULTS, t0, run))
    ensures var fate := BooksAfter(DEFAULTS, t0, run).fate; g.id in fate && fate[g.id] == BelowMinimum(10, 10)
  {
    var e1, e3 := TickCalled(0, Calm(t1, [], [Some([g]), Some([w])])), Replied(AnswerOnly(w.id), 0, Some("task"), t1);
    var before: Run := [] + [e1] + [Scored([0, 0], t1)] + [e3];
    TreeFirst(g, w, t0, t1, e1, e3, before);
    TreeThen(g, w, t0, t2, before, TickCalled(0, Calm(t2, [Running], [])), run);
  }
}
