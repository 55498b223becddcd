/** The overrides an "adjust" decision sets: how long they last, and what they cannot hide. */
module Overriding {
  import opened Observations
  import opened Decisions
  import opened Core
  import opened Gate
  import opened Daemon
  import opened Ledger
  import Scorer

  /** Half an hour. */
  const TTL: nat := 1_800_000

  /** The last value each override was given, and when: never swept. */
  datatype Setting = Setting(value: int, at: int)

  datatype AdjustLog = AdjustLog(threshold: Option<Setting>, boosts: map<string, Setting>)

  ghost function NoteAdjustments(log: AdjustLog, a: Adjustments, now: int): AdjustLog {
    AdjustLog(
      if a.priorityThreshold.Some?
      then Some(Setting(if a.priorityThreshold.value < 80 then a.priorityThreshold.value else 80, now))
      else log.threshold,
      if a.sourceBoost.Some?
      then log.boosts[a.sourceBoost.value.source := Setting(a.sourceBoost.value.delta, now)]
      else log.boosts)
  }

  ghost function NoteEvent(log: AdjustLog, s: System, e: Event): AdjustLog
    requires Enabled(s, e)
  {
    if e.Replied? && VerdictOf(s, e).Adjusted? then NoteAdjustments(log, VerdictOf(s, e).a, e.now) else log
  }

  ghost function LogAfter(config: Config, t0: int, run: Run): AdjustLog
    requires Legal(config, t0, run)
  {
    if run == [] then AdjustLog(None, map[])
    else
      var before := run[..|run| - 1];
      NoteEvent(LogAfter(config, t0, before), After(config, t0, before), run[|run| - 1])
  }

  ghost predicate Fresh(x: Setting, now: int) { now < x.at + TTL }

  /** The threshold and the boosts as they should be: a setting counts for thirty minutes. */
  ghost function ThresholdInForce(log: AdjustLog, minimum: int, now: int): int {
    if log.threshold.Some? && Fresh(log.threshold.value, now) then log.threshold.value.value else minimum
  }

  ghost function BoostInForce(log: AdjustLog, source: string, now: int): int {
    if source in log.boosts && Fresh(log.boosts[source], now) then log.boosts[source].value else 0
  }

  // ---------- the swept tables mirror the log ----------

  ghost predicate ThresholdMirrors(o: Overrides, log: AdjustLog, clock: int) {
    && (o.threshold.Some? <==> o.thresholdExpiresAt.Some?)
    && (o.threshold.Some? ==>
         && log.threshold.Some? && log.threshold.value.value == o.threshold.value
         && o.thresholdExpiresAt.value == log.threshold.value.at + TTL)
    && (o.threshold.None? && log.threshold.Some? ==> !Fresh(log.threshold.value, clock))
    && (log.threshold.Some? ==> 0 <= log.threshold.value.value <= 80 && log.threshold.value.at <= clock)
  }

  ghost predicate BoostMirrors(o: Overrides, log: AdjustLog, clock: int, s: string) {
    && (s in o.boosts <==> s in o.boostExpiresAt)
    && (s in o.boosts ==>
         && s in log.boosts && o.boosts[s] == log.boosts[s].value
         && o.boostExpiresAt[s] == log.boosts[s].at + TTL)
    && (s in log.boosts && s !in o.boosts ==> !Fresh(log.boosts[s], clock))
    && (s in log.boosts ==> -50 <= log.boosts[s].value <= 50 && log.boosts[s].at <= clock)
  }

  ghost predicate Mirrors(o: Overrides, log: AdjustLog, clock: int) {
    && ThresholdMirrors(o, log, clock)
    && (forall s :: BoostMirrors(o, log, clock, s))
    && (o.intervalMs.Some? ==> 5_000 <= o.intervalMs.value <= 300_000)
  }

  lemma SweepMirrors(o: Overrides, log: AdjustLog, clock: int, now: int, o': Overrides)
    requires Mirrors(o, log, clock) && clock <= now
    requires o' == ExpireThreshold(ExpireBoosts(o, now), now)
    ensures Mirrors(o', log, now)
  {
    forall s ensures BoostMirrors(o', log, now, s) {
      assert BoostMirrors(o, log, clock, s);
    }
  }

  lemma AdjustMirrors(o: Overrides, log: AdjustLog, clock: int, a: Adjustments, now: int, o': Overrides,
      log': AdjustLog)
    requires Mirrors(o, log, clock) && clock <= now
    requires a.priorityThreshold.Some? ==> 0 <= a.priorityThreshold.value <= 100
    requires a.sourceBoost.Some? ==> -50 <= a.sourceBoost.value.delta <= 50
    requires a.reasoningIntervalMs.Some? ==> 5_000 <= a.reasoningIntervalMs.value <= 300_000
    requires o' == ApplyAdjustments(o, a, now) && log' == NoteAdjustments(log, a, now)
    ensures Mirrors(o', log', now)
  {
    forall s ensures BoostMirrors(o', log', now, s) {
      assert BoostMirrors(o, log, clock, s);
    }
  }

  lemma LaterMirrors(o: Overrides, log: AdjustLog, clock: int, now: int)
    requires Mirrors(o, log, clock) && clock <= now
    ensures Mirrors(o, log, now)
  {
    forall s ensures BoostMirrors(o, log, now, s) {
      assert BoostMirrors(o, log, clock, s);
    }
  }

  lemma {:induction false} OverridesMoved(s: System, e: Event)
    requires Enabled(s, e) && !(e.Replied? && VerdictOf(s, e).Adjusted?) && !e.Scored?
    ensures Next(s, e).core.overrides == s.core.overrides && s.clock <= Next(s, e).clock
  {
    match e
    case TickCalled(_, env) =>
      if LooksAround(s, e) {
        ObserveShape(LookingCore(s), env, Observe(LookingCore(s), env));
      }
    case Delivered(env) =>
      if LooksAround(s, e) {
        ObserveShape(s.core, env, Observe(s.core, env));
      }
    case Replied(_, _, _, now) => ActOverrides(s.core, s.phase.batch, s.phase.ranked, VerdictOf(s, e), now);
    case _ =>
  }

  lemma ActOverrides(c: CoreState, batch: seq<Observation>, ranked: seq<Observation>, v: Verdict, now: int)
    requires ranked != []
    ensures Act(c, batch, ranked, v, now).core.overrides ==
            if v.Adjusted? then ApplyAdjustments(c.overrides, v.a, now) else c.overrides
  {
  }

  lemma JudgedAdjustments(d: Decision, ranked: seq<Observation>, foreground: int, submit: Option<string>)
    requires Parsed(d) && Judge(d, ranked, foreground, submit).Adjusted?
    ensures d.adjustments == Some(Judge(d, ranked, foreground, submit).a)
  {
  }

  lemma NextMirrors(s: System, e: Event, s': System, log: AdjustLog, log': AdjustLog)
    requires Enabled(s, e) && s' == Next(s, e) && log' == NoteEvent(log, s, e)
    requires Mirrors(s.core.overrides, log, s.clock)
    ensures Mirrors(s'.core.overrides, log', s'.clock)
  {
    if e.Scored? {
      OrientFrame(s.core, s.phase.batch, s.phase.scoredAt, e.matches, e.now,
                  Orient(s.core, s.phase.batch, s.phase.scoredAt, e.matches, e.now));
      SweepMirrors(s.core.overrides, log, s.clock, e.now, s'.core.overrides);
    } else if e.Replied? && VerdictOf(s, e).Adjusted? {
      var v := VerdictOf(s, e);
      JudgedAdjustments(e.d, s.phase.ranked, e.foreground, e.submit);
      ActOverrides(s.core, s.phase.batch, s.phase.ranked, v, e.now);
      AdjustMirrors(s.core.overrides, log, s.clock, v.a, e.now, s'.core.overrides, log');
    } else {
      OverridesMoved(s, e);
      LaterMirrors(s.core.overrides, log, s.clock, s'.clock);
    }
  }

  lemma {:induction false} AlwaysMirrors(config: Config, t0: int, run: Run)
    requires t0 > 0 && Legal(config, t0, run)
    ensures Mirrors(After(config, t0, run).core.overrides, LogAfter(config, t0, run), After(config, t0, run).clock)
  {
    if run != [] {
      var before := run[..|run| - 1];
      AlwaysMirrors(config, t0, before);
      NextMirrors(After(config, t0, before), run[|run| - 1], After(config, t0, run), LogAfter(config, t0, before),
                  LogAfter(config, t0, run));
    }
  }

  /** OVERRIDES STAY WELL FORMED, after any run: threshold and expiry are set together, every boost has
      its expiry, the threshold is at most 80, and the interval is at most five minutes. */
  lemma {:induction false} OverridesWellFormed(config: Config, t0: int, run: Run)
    requires t0 > 0 && Legal(config, t0, run)
    ensures var o := After(config, t0, run).core.overrides;
            && (o.threshold.Some? <==> o.thresholdExpiresAt.Some?)
            && (o.threshold.Some? ==> 0 <= o.threshold.value <= 80)
            && o.boosts.Keys == o.boostExpiresAt.Keys
            && (o.intervalMs.Some? ==> 5_000 <= o.intervalMs.value <= 300_000)
  {
    AlwaysMirrors(config, t0, run);
    var s, log := After(config, t0, run), LogAfter(config, t0, run);
    forall x ensures x in s.core.overrides.boosts <==> x in s.core.overrides.boostExpiresAt {
      assert BoostMirrors(s.core.overrides, log, s.clock, x);
    }
  }

  // ---------- what the gate sees ----------

  /** The score the gate ought to see for the i-th observation. */
  ghost function IdealScore(s: System, log: AdjustLog, matches: seq<nat>, i: nat, now: int): int
    requires s.phase.Scoring? && i < |s.phase.batch| == |matches|
  {
    var o := s.phase.batch[i];
    Scorer.Clamp(Scorer.ScoreOne(o, matches[i], Scorer.Pruned(s.core.actions, s.phase.scoredAt),
        s.phase.scoredAt).priority
                 + BoostInForce(log, o.source.Name(), now))
  }

  lemma SweptBoost(o: Overrides, log: AdjustLog, clock: int, now: int, x: Observation)
    requires Mirrors(o, log, clock) && clock <= now && 0 <= x.priority <= 100
    ensures Boost(x, ExpireBoosts(o, now).boosts).priority == Scorer.Clamp(x.priority + BoostInForce(log,
        x.source.Name(), now))
  {
    assert BoostMirrors(o, log, clock, x.source.Name());
  }

  /** LAZY SWEEPING IS INVISIBLE. Whenever a batch reaches the gate, the threshold and every score are
      exactly what the full log of adjustments prescribes, each setting counting for thirty minutes
      and not a moment longer; so the gate opens exactly when some such score reaches that threshold. */
  lemma GateFollowsTheLog(config: Config, t0: int, run: Run, s: System, log: AdjustLog, matches: seq<nat>, now: int)
    requires t0 > 0 && Legal(config, t0, run)
    requires s == After(config, t0, run) && log == LogAfter(config, t0, run)
    requires Enabled(s, Scored(matches, now))
    ensures Next(s, Scored(matches, now)).phase.Thinking? <==>
            exists i :: 0 <= i < |s.phase.batch| &&
              IdealScore(s, log, matches, i, now) >= ThresholdInForce(log, config.minObservationPriority, now)
  {
    AlwaysMirrors(config, t0, run);
    ConfigStays(config, t0, run);
    GateFollows(s, log, matches, now);
  }

  lemma GateFollows(s: System, log: AdjustLog, matches: seq<nat>, now: int)
    requires Enabled(s, Scored(matches, now)) && Mirrors(s.core.overrides, log, s.clock)
    ensures Next(s, Scored(matches, now)).phase.Thinking? <==>
            exists i :: 0 <= i < |s.phase.batch| &&
              IdealScore(s, log, matches, i, now) >= ThresholdInForce(log, s.core.config.minObservationPriority, now)
  {
    var batch, at := s.phase.batch, s.phase.scoredAt;
    var o := Oriented(s.core, batch, at, matches, now);
    GateOpensIff(s.core, batch, at, matches, now, o);
    assert Threshold(o.core) == ThresholdInForce(log, s.core.config.minObservationPriority, now);
    forall i | 0 <= i < |batch| ensures GateScore(s.core, batch, i, at, matches, now) == IdealScore(s, log, matches, i,
        now) {
      GateScoreIsIdeal(s, log, matches, i, now);
    }
  }

  lemma GateScoreIsIdeal(s: System, log: AdjustLog, matches: seq<nat>, i: nat, now: int)
    requires Enabled(s, Scored(matches, now)) && Mirrors(s.core.overrides, log, s.clock) && i < |s.phase.batch|
    ensures GateScore(s.core, s.phase.batch, i, s.phase.scoredAt, matches, now) == IdealScore(s, log, matches, i, now)
  {
    var actions := Scorer.Pruned(s.core.actions, s.phase.scoredAt);
    Scorer.ScoreBounded(s.phase.batch[i], matches[i], actions, s.phase.scoredAt);
    SweptBoost(s.core.overrides, log, s.clock, now, Scorer.ScoreOne(s.phase.batch[i], matches[i], actions,
        s.phase.scoredAt));
  }

  lemma {:induction false} ConfigKept(s: System, e: Event)
    requires Enabled(s, e)
    ensures Next(s, e).core.config == s.core.config
  {
    match e
    case TickCalled(_, env) =>
      if LooksAround(s, e) {
        ObserveShape(LookingCore(s), env, Observe(LookingCore(s), env));
      }
    case Delivered(env) =>
      if LooksAround(s, e) {
        ObserveShape(s.core, env, Observe(s.core, env));
      }
    case Scored(matches, now) =>
      OrientFrame(s.core, s.phase.batch, s.phase.scoredAt, matches, now,
                  Orient(s.core, s.phase.batch, s.phase.scoredAt, matches, now));
    case Replied(_, _, _, now) => ActConfig(s.core, s.phase.batch, s.phase.ranked, VerdictOf(s, e), now);
    case _ =>
  }

  lemma ActConfig(c: CoreState, batch: seq<Observation>, ranked: seq<Observation>, v: Verdict, now: int)
    requires ranked != []
    ensures Act(c, batch, ranked, v, now).core.config == c.config
  {
  }

  lemma {:induction false} ConfigStays(config: Config, t0: int, run: Run)
    requires Legal(config, t0, run)
    ensures After(config, t0, run).core.config == config
  {
    if run != [] {
      ConfigStays(config, t0, run[..|run| - 1]);
      ConfigKept(After(config, t0, run[..|run| - 1]), run[|run| - 1]);
    }
  }
}
