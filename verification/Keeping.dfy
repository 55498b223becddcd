/** Who is still there after the gate: of every batch, under any overrides, exactly which observations
    go on, which are put back and which are lost. */
module Keeping {
  import opened Observations
  import opened Core
  import opened Inventory
  import opened Gate
  import opened Daemon
  import opened Finality
  import opened Overriding
  import opened Rescoring
  import Engine
  import Ledger
  import Scorer

  /** The score of the i-th observation before any boost. */
  ghost function PlainScore(s: System, matches: seq<nat>, i: nat): int
    requires s.phase.Scoring? && i < |s.phase.batch| == |matches|
  {
    Scorer.ScoreOne(s.phase.batch[i], matches[i], Scorer.Pruned(s.core.actions, s.phase.scoredAt),
                    s.phase.scoredAt).priority
  }

  lemma KeptIsTabled(batch: seq<Observation>, kept: seq<Observation>, now: int, x: Observation, back: Table)
    requires Distinct(batch) && x in batch && forall o :: o in kept ==> o in batch
    requires back == Back(kept, |kept|, 5, now)
    ensures x.id in back <==> x in kept && x.actionable
    ensures x.id in back ==> back[x.id] == Engine.Deferral(x, now + 300_000)
  {
    BackExact(kept, 5, now);
    IdsExact(kept);
    if x.id in back {
      DistinctById(batch, x, back[x.id].observation);
    }
  }

  /** At a closed gate an observation stays exactly when it was put back, and then for five minutes. */
  lemma ClosedGateKeeps(s: System, o: Orientation, kept: seq<Observation>, now: int, x: Observation, s': System)
    requires Sound(s) && s.phase.Scoring? && RankingOf(s.phase.batch, o.ranked)
    requires kept == SilencedBy(o, s.phase.batch) && x in s.phase.batch
    requires s'.phase == Idle && s'.issued == s.issued
    requires s'.core.engine == PutBack(s.core.engine, kept, |kept|, 5, now)
    ensures x.id in Places(s') <==> x in kept && x.actionable
    ensures x.id in Places(s') ==>
              && x.id in s'.core.engine.deferred.items
              && s'.core.engine.deferred.items[x.id] == Engine.Deferral(x, now + 300_000)
  {
    var batch, back := s.phase.batch, Back(kept, |kept|, 5, now);
    Ledger.GateTurnLeaves(s, o, kept, back, now, s');
    KeptFromBatch(batch, o, kept);
    KeptIsTabled(batch, kept, now, x, back);
    LeftIsTabled(s, s', DroppedIds(batch, o), back, now, x);
  }

  lemma LeftIsTabled(s: System, s': System, settled: set<string>, back: Table, now: int, x: Observation)
    requires Sound(s) && Ledger.Leaves(s, s', settled, back, now) && x in Flight(s.phase)
    ensures x.id in Places(s') <==> x.id in back
    ensures x.id in back ==>
              x.id in s'.core.engine.deferred.items && s'.core.engine.deferred.items[x.id] == back[x.id]
  {
    Ledger.PlacedFlight(s.core.engine.pending, s.core.engine.deferred.items, Flight(s.phase), s.issued);
    IdsExact(Flight(s.phase));
    assert Ids([]) == {};
  }

  lemma OpenGateKeeps(s: System, e: Event, o: Orientation, s': System)
    requires Sound(s) && e.Scored? && Enabled(s, e) && s' == Next(s, e)
    requires o == Oriented(s.core, s.phase.batch, s.phase.scoredAt, e.matches, e.now) && PassesGate(o)
    ensures Flight(s'.phase) == s.phase.batch && s'.phase.Thinking?
  {
  }

  /** One observation of the batch, whichever way the gate goes. */
  lemma StaysIff(s: System, matches: seq<nat>, now: int, i: nat, o: Orientation, s': System)
    requires Sound(s) && Enabled(s, Scored(matches, now)) && i < |s.phase.batch| && s' == Next(s, Scored(matches, now))
    requires o == Oriented(s.core, s.phase.batch, s.phase.scoredAt, matches, now)
    ensures s'.phase.Thinking? <==> PassesGate(o)
    ensures s.phase.batch[i].id in Places(s') <==>
            || PassesGate(o)
            || (s.phase.batch[i].actionable
                && (|| GateScore(s.core, s.phase.batch, i, s.phase.scoredAt, matches, now)
                       >= s.core.config.minObservationPriority
                    || PlainScore(s, matches, i) >= s.core.config.minObservationPriority))
    ensures !PassesGate(o) && s.phase.batch[i].id in Places(s') ==>
              && s.phase.batch[i].id in s'.core.engine.deferred.items
              && s'.core.engine.deferred.items[s.phase.batch[i].id] == Engine.Deferral(s.phase.batch[i], now + 300_000)
  {
    var x, e := s.phase.batch[i], Scored(matches, now);
    if PassesGate(o) {
      OpenGateKeeps(s, e, o, s');
      IdsExact(s.phase.batch);
    } else {
      KeptIff(s.core, s.phase.batch, i, s.phase.scoredAt, matches, now, o);
      OrientedIsRanking(s.core, s.phase.batch, s.phase.scoredAt, matches, now, o);
      ClosedGate(s, e, o, SilencedBy(o, s.phase.batch), s');
      ClosedGateKeeps(s, o, SilencedBy(o, s.phase.batch), now, x, s');
    }
  }

  /** EXACTLY WHAT THE GATE LOSES. In every reachable state, for every observation of every batch and
      whatever adjustments were made: it stays if and only if some observation of the batch reaches the
      threshold in force (then all go on to the reasoning step), or it is actionable and the better of
      its scores, with and without the boost in force, reaches the configured minimum (then it is put
      back for five minutes, as it was collected). Otherwise it is nowhere, for good. */
  lemma {:induction false} KeptAtGateIff(config: Config, t0: int, run: Run, s: System, log: AdjustLog,
      matches: seq<nat>, now: int, i: nat, s': System)
    requires t0 > 0 && Legal(config, t0, run) && s == After(config, t0, run) && log == LogAfter(config, t0, run)
    requires Enabled(s, Scored(matches, now)) && i < |s.phase.batch| && s' == Next(s, Scored(matches, now))
    ensures s.phase.batch[i].id in Places(s') <==>
            || (exists j :: 0 <= j < |s.phase.batch| &&
                  IdealScore(s, log, matches, j, now) >= ThresholdInForce(log, config.minObservationPriority, now))
            || (s.phase.batch[i].actionable
                && (|| IdealScore(s, log, matches, i, now) >= config.minObservationPriority
                    || PlainScore(s, matches, i) >= config.minObservationPriority))
    ensures !s'.phase.Thinking? && s.phase.batch[i].id in Places(s') ==>
              && s.phase.batch[i].id in s'.core.engine.deferred.items
              && s'.core.engine.deferred.items[s.phase.batch[i].id] == Engine.Deferral(s.phase.batch[i], now + 300_000)
  {
    AlwaysSound(config, t0, run);
    AlwaysMirrors(config, t0, run);
    ConfigStays(config, t0, run);
    GateFollows(s, log, matches, now);
    GateScoreIsIdeal(s, log, matches, i, now);
    StaysIff(s, matches, now, i, Oriented(s.core, s.phase.batch, s.phase.scoredAt, matches, now), s');
  }

  // ---------- what became of a failure ----------

  /** The score of a failed outcome from a base, before boosts. */
  function FailureScore(base: int, matches: nat, penalty: int): int {
    Scorer.Score(base, Scorer.InstinctBonus(matches) + 5, penalty, true)
  }

  ghost predicate FailedOutcome(o: Observation) {
    exists task: string, reply: TaskReply, at: int ::
      reply.Ended? && !reply.success && o == OutcomeObservation(task, reply, at)
  }

  /** A failed outcome in a batch, wherever it has been since it was injected. */
  lemma {:induction false} FailureScores(config: Config, t0: int, run: Run, s: System, log: AdjustLog,
      matches: seq<nat>, now: int, i: nat, k: string)
    requires t0 > 0 && Legal(config, t0, run) && s == After(config, t0, run) && log == LogAfter(config, t0, run)
    requires Enabled(s, Scored(matches, now)) && i < |s.phase.batch| && k == s.phase.batch[i].id
    requires k in s.issued && FailedOutcome(s.issued[k])
    ensures s.phase.batch[i].actionable
    ensures var actions, at := Scorer.Pruned(s.core.actions, s.phase.scoredAt), s.phase.scoredAt;
            var penalty := Scorer.Penalty(actions, s.issued[k], at);
            && PlainScore(s, matches, i)
                == FailureScore(BaseOf(k, s.issued, StoredAs(config, t0, run)), matches[i], penalty)
            && IdealScore(s, log, matches, i, now)
                == Scorer.Clamp(PlainScore(s, matches, i) + BoostInForce(log, "task-outcome", now))
  {
    var o := s.phase.batch[i];
    assert o in Flight(s.phase);
    ScoredFromItsBase(config, t0, run, s, o, matches[i], Scorer.Pruned(s.core.actions, s.phase.scoredAt),
                      s.phase.scoredAt);
    AlwaysCarried(config, t0, run);
    assert Carried(o, s.issued, StoredAs(config, t0, run));
    assert o.source.Name() == "task-outcome";
  }

  /** EXACTLY WHEN A FAILURE IS HIDDEN. A failed outcome, wherever it has been since it was injected, opens
      the gate by itself exactly when its score, boosted, reaches the threshold in force; and it stays
      exactly when the gate opens or its better score reaches the minimum. Its score is that of base 70,
      or of the score it was last put off with. */
  lemma {:induction false} FailureKeptIff(config: Config, t0: int, run: Run, s: System, log: AdjustLog,
      matches: seq<nat>, now: int, i: nat, k: string, penalty: int, s': System)
    requires t0 > 0 && Legal(config, t0, run) && s == After(config, t0, run) && log == LogAfter(config, t0, run)
    requires Enabled(s, Scored(matches, now)) && i < |s.phase.batch| && k == s.phase.batch[i].id
    requires k in s.issued && FailedOutcome(s.issued[k]) && s' == Next(s, Scored(matches, now))
    requires penalty
          == Scorer.Penalty(Scorer.Pruned(s.core.actions, s.phase.scoredAt), s.issued[k], s.phase.scoredAt)
    ensures var plain := FailureScore(BaseOf(k, s.issued, StoredAs(config, t0, run)), matches[i], penalty);
            var seen := Scorer.Clamp(plain + BoostInForce(log, "task-outcome", now));
            && (k in Places(s') <==>
                || (exists j :: 0 <= j < |s.phase.batch| &&
                      IdealScore(s, log, matches, j, now) >= ThresholdInForce(log, config.minObservationPriority, now))
                || seen >= config.minObservationPriority
                || plain >= config.minObservationPriority)
            && (seen >= ThresholdInForce(log, config.minObservationPriority, now) ==> s'.phase.Thinking?)
            && (|s.phase.batch| == 1 ==>
                 (s'.phase.Thinking? <==> seen >= ThresholdInForce(log, config.minObservationPriority, now)))
  {
    FailureScores(config, t0, run, s, log, matches, now, i, k);
    KeptAtGateIff(config, t0, run, s, log, matches, now, i, s');
    GateFollowsTheLog(config, t0, run, s, log, matches, now);
    if |s.phase.batch| == 1 {
      AloneAtGate(s, log, matches, i, now, ThresholdInForce(log, config.minObservationPriority, now));
    }
  }

  lemma AloneAtGate(s: System, log: AdjustLog, matches: seq<nat>, i: nat, now: int, threshold: int)
    requires s.phase.Scoring? && |s.phase.batch| == 1 == |matches| && i == 0
    ensures (exists j :: 0 <= j < |s.phase.batch| && IdealScore(s, log, matches, j, now) >= threshold)
              <==> IdealScore(s, log, matches, i, now) >= threshold
  {
  }

  /** NO ADJUSTMENT HIDES A FAILURE that was never put off as scored: with a configured minimum of at most
      80, not acted on recently and its source not demoted, it reaches the reasoning step; and with a
      minimum of at most 45 no penalty, boost or threshold whatever makes a gate drop it. */
  lemma {:induction false} FailureIsNotHidden(config: Config, t0: int, run: Run, s: System, log: AdjustLog,
      matches: seq<nat>, now: int, i: nat, k: string, penalty: int, s': System)
    requires t0 > 0 && Legal(config, t0, run) && s == After(config, t0, run) && log == LogAfter(config, t0, run)
    requires Enabled(s, Scored(matches, now)) && i < |s.phase.batch| && k == s.phase.batch[i].id
    requires k in s.issued && FailedOutcome(s.issued[k]) && s' == Next(s, Scored(matches, now))
    requires penalty
          == Scorer.Penalty(Scorer.Pruned(s.core.actions, s.phase.scoredAt), s.issued[k], s.phase.scoredAt)
    requires k !in StoredAs(config, t0, run)
    ensures config.minObservationPriority <= 80 && penalty == 0 && BoostInForce(log, "task-outcome", now) >= 0 ==>
              s'.phase.Thinking?
    ensures config.minObservationPriority <= 45 ==> k in Places(s')
  {
    FailureKeptIff(config, t0, run, s, log, matches, now, i, k, penalty, s');
    ThresholdBounded(config, t0, run, log, config.minObservationPriority, now);
    FailureScoresHigh(matches[i], penalty, s.issued[k], Scorer.Pruned(s.core.actions, s.phase.scoredAt),
                      s.phase.scoredAt, BoostInForce(log, "task-outcome", now));
    assert BaseOf(k, s.issued, StoredAs(config, t0, run)) == 70;
  }

  lemma {:induction false} ThresholdBounded(config: Config, t0: int, run: Run, log: AdjustLog, minimum: int, now: int)
    requires t0 > 0 && Legal(config, t0, run) && log == LogAfter(config, t0, run)
    ensures minimum <= 80 ==> ThresholdInForce(log, minimum, now) <= 80
  {
    AlwaysMirrors(config, t0, run);
  }

  lemma FailureScoresHigh(matches: nat, penalty: int, o: Observation, actions: Scorer.ActionTable, at: int, boost: int)
    requires penalty == Scorer.Penalty(actions, o, at)
    ensures FailureScore(70, matches, penalty) >= 45
    ensures penalty == 0 && boost >= 0 ==> Scorer.Clamp(FailureScore(70, matches, penalty) + boost) >= 80
  {
  }
}
