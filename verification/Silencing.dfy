/** How often an override can silence one observation. */
module Silencing {
  import opened Observations
  import opened Core
  import opened Gate
  import opened Daemon
  import opened Overriding
  import Holds
  import Inventory
  import Ledger
  import Patience
  import StableSort

  const RECHECK_MS: nat := 300_000

  /** When the last "adjust" was decided, and when each observation was put back below the threshold
      since then. */
  datatype Hush = Hush(adjustedAt: Option<int>, times: map<string, seq<int>>)

  ghost function Note(h: Hush, s: System, e: Event): Hush
    requires Enabled(s, e)
  {
    match e
    case Replied(_, _, _, now) => if Ledger.VerdictOf(s, e).Adjusted? then Hush(Some(now), map[]) else h
    case Scored(matches, now) =>
      var o := Oriented(s.core, s.phase.batch, s.phase.scoredAt, matches, now);
      if PassesGate(o) then h
      else h.(times := Patience.ChargeAll(h.times, ActionableIds(SilencedBy(o, s.phase.batch)), now))
    case _ => h
  }

  ghost function HushAfter(config: Config, t0: int, run: Run): Hush
    requires Legal(config, t0, run)
  {
    if run == [] then Hush(None, map[])
    else
      var before := run[..|run| - 1];
      Note(HushAfter(config, t0, before), After(config, t0, before), run[|run| - 1])
  }

  // ---------- without an override nothing is silenced ----------

  ghost predicate AnyInForce(log: AdjustLog, now: int) {
    || (log.threshold.Some? && Fresh(log.threshold.value, now))
    || exists x :: x in log.boosts && Fresh(log.boosts[x], now)
  }

  lemma NoBoostLeft(o: Overrides, log: AdjustLog, clock: int, now: int)
    requires Mirrors(o, log, clock) && clock <= now && !AnyInForce(log, now)
    ensures |ExpireBoosts(o, now).boosts| == 0
  {
    var boosts := ExpireBoosts(o, now).boosts;
    forall x ensures x !in boosts {
      assert BoostMirrors(o, log, clock, x);
    }
    assert boosts == map[];
  }

  /** Once every override has lapsed a closed gate puts nothing back: what it drops scored below the
      configured minimum on its own. */
  lemma NothingSilencedWithoutOverride(s: System, log: AdjustLog, matches: seq<nat>, now: int, o: Orientation)
    requires Sound(s) && Enabled(s, Scored(matches, now)) && Mirrors(s.core.overrides, log, s.clock)
    requires o == Oriented(s.core, s.phase.batch, s.phase.scoredAt, matches, now) && !PassesGate(o)
    requires !AnyInForce(log, now)
    ensures SilencedBy(o, s.phase.batch) == []
  {
    var batch := s.phase.batch;
    NoBoostLeft(s.core.overrides, log, s.clock, now);
    NoBoosts(o.scored, ExpireBoosts(s.core.overrides, now).boosts);
    assert o.ranked == o.scored;
    assert Threshold(o.core) == o.core.config.minObservationPriority;
    OrientedIsRanking(s.core, batch, s.phase.scoredAt, matches, now, o);
    NoneReaches(batch, o, SilencedBy(o, batch));
  }

  lemma AllLow(o: Orientation)
    requires Distinct(o.ranked) && StableSort.Descending(o.ranked) && o.ranked == o.scored
    requires o.ranked != [] ==> o.ranked[0].priority < o.core.config.minObservationPriority
    ensures forall r :: r in o.ranked ==>
              !Enough(r, PrioritiesUpTo(o.scored, |o.scored|), o.core.config.minObservationPriority)
  {
    PrioritiesExact(o.scored, |o.scored|);
    forall r | r in o.ranked
      ensures !Enough(r, PrioritiesUpTo(o.scored, |o.scored|), o.core.config.minObservationPriority) {
      var j :| 0 <= j < |o.ranked| && o.ranked[j] == r;
      assert PrioritiesUpTo(o.scored, |o.scored|)[o.scored[j].id] == r.priority;
      assert j == 0 || o.ranked[0].priority >= o.ranked[j].priority;
    }
  }

  lemma NoneReaches(batch: seq<Observation>, o: Orientation, kept: seq<Observation>)
    requires Distinct(batch) && RankingOf(batch, o.ranked) && o.ranked == o.scored
    requires o.ranked != [] ==> o.ranked[0].priority < o.core.config.minObservationPriority
    requires kept == SilencedBy(o, batch)
    ensures kept == []
  {
    if kept != [] {
      KeptFromBatch(batch, o, kept);
      var r, u := InBoth(batch, o, kept[0]);
      AllLow(o);
      SilencedExact(batch, o, kept);
    }
  }

  // ---------- the times are five minutes apart inside thirty ----------

  ghost predicate LogSince(log: AdjustLog, adjustedAt: Option<int>) {
    && (log.threshold.Some? ==> adjustedAt.Some? && log.threshold.value.at <= adjustedAt.value)
    && (forall x :: x in log.boosts ==> adjustedAt.Some? && log.boosts[x].at <= adjustedAt.value)
  }

  ghost predicate Times(s: System, adjustedAt: int, k: string, t: seq<int>) {
    && t != [] && t[|t| - 1] <= s.clock
    && adjustedAt <= t[0] && t[|t| - 1] < adjustedAt + TTL
    && (forall i :: 0 <= i < |t| - 1 ==> t[i + 1] - t[i] >= RECHECK_MS)
    && Holds.Held(s, k, t[|t| - 1] + RECHECK_MS)
  }

  ghost predicate Hushed(s: System, log: AdjustLog, h: Hush) {
    && LogSince(log, h.adjustedAt)
    && (h.adjustedAt.Some? ==> h.adjustedAt.value <= s.clock)
    && (forall k :: k in h.times ==> h.adjustedAt.Some? && Times(s, h.adjustedAt.value, k, h.times[k]))
  }

  lemma TimesPersist(s: System, e: Event, s': System, adjustedAt: int, k: string, t: seq<int>)
    requires Sound(s) && Enabled(s, e) && s' == Next(s, e) && Times(s, adjustedAt, k, t)
    ensures Times(s', adjustedAt, k, t)
  {
    Holds.HeldPersists(s, e, s', k, t[|t| - 1] + RECHECK_MS);
    Patience.ClockRuns(s, e);
  }

  lemma SilencedHeld(s: System, e: Event, s': System, o: Orientation, kept: seq<Observation>, k: string)
    requires Sound(s) && e.Scored? && Enabled(s, e) && s' == Next(s, e)
    requires o == Oriented(s.core, s.phase.batch, s.phase.scoredAt, e.matches, e.now) && !PassesGate(o)
    requires kept == SilencedBy(o, s.phase.batch) && k in ActionableIds(kept)
    ensures k in Ids(s.phase.batch) && Holds.Held(s', k, e.now + RECHECK_MS)
  {
    var back := Inventory.Back(kept, |kept|, 5, e.now);
    Inventory.BackExact(kept, 5, e.now);
    Ledger.GateLeaves(s, e, o, kept, back);
    assert k in back.Keys;
    Patience.BackIsHeld(s, s', DroppedIds(s.phase.batch, o), back, e.now, k, e.now + RECHECK_MS);
  }

  lemma OneMoreTime(t: seq<int>, adjustedAt: int, clock: int, now: int)
    requires t != [] ==> adjustedAt <= t[0] && t[|t| - 1] + RECHECK_MS <= now
    requires forall i :: 0 <= i < |t| - 1 ==> t[i + 1] - t[i] >= RECHECK_MS
    requires adjustedAt <= now
    ensures var t' := t + [now];
            t'[0] >= adjustedAt && forall i :: 0 <= i < |t'| - 1 ==> t'[i + 1] - t'[i] >= RECHECK_MS
  {
  }

  lemma SilencedTimes(s: System, e: Event, s': System, o: Orientation, kept: seq<Observation>, adjustedAt: int,
      k: string, t: seq<int>)
    requires Sound(s) && e.Scored? && Enabled(s, e) && s' == Next(s, e)
    requires o == Oriented(s.core, s.phase.batch, s.phase.scoredAt, e.matches, e.now) && !PassesGate(o)
    requires kept == SilencedBy(o, s.phase.batch) && k in ActionableIds(kept)
    requires t == [] || Times(s, adjustedAt, k, t)
    requires adjustedAt <= s.clock && e.now < adjustedAt + TTL
    ensures Times(s', adjustedAt, k, t + [e.now])
  {
    SilencedHeld(s, e, s', o, kept, k);
    OneMoreTime(t, adjustedAt, s.clock, e.now);
    assert s'.clock == e.now;
  }

  lemma {:induction false} ClosedGateHushed(s: System, e: Event, s': System, log: AdjustLog, h: Hush, h': Hush,
      o: Orientation, kept: seq<Observation>)
    requires Sound(s) && e.Scored? && Enabled(s, e) && s' == Next(s, e)
    requires o == Oriented(s.core, s.phase.batch, s.phase.scoredAt, e.matches, e.now) && !PassesGate(o)
    requires kept == SilencedBy(o, s.phase.batch)
    requires h' == h.(times := Patience.ChargeAll(h.times, ActionableIds(kept), e.now))
    requires Hushed(s, log, h) && (kept != [] ==> AnyInForce(log, e.now))
    ensures Hushed(s', log, h')
  {
    var ids := ActionableIds(kept);
    assert kept == [] ==> ids == {};
    forall k | k in h'.times ensures h'.adjustedAt.Some? && Times(s', h'.adjustedAt.value, k, h'.times[k]) {
      var t := if k in h.times then h.times[k] else [];
      assert h'.times[k] == if k in ids then t + [e.now] else t;
      OneSilenced(s, e, s', o, kept, h.adjustedAt.value, k, t);
    }
    Patience.ClockRuns(s, e);
  }

  lemma OneSilenced(s: System, e: Event, s': System, o: Orientation, kept: seq<Observation>, adjustedAt: int,
      k: string, t: seq<int>)
    requires Sound(s) && e.Scored? && Enabled(s, e) && s' == Next(s, e)
    requires o == Oriented(s.core, s.phase.batch, s.phase.scoredAt, e.matches, e.now) && !PassesGate(o)
    requires kept == SilencedBy(o, s.phase.batch)
    requires (t != [] || k !in ActionableIds(kept)) ==> Times(s, adjustedAt, k, t)
    requires k in ActionableIds(kept) ==> adjustedAt <= s.clock && e.now < adjustedAt + TTL
    ensures Times(s', adjustedAt, k, if k in ActionableIds(kept) then t + [e.now] else t)
  {
    if k in ActionableIds(kept) {
      SilencedTimes(s, e, s', o, kept, adjustedAt, k, t);
    } else {
      TimesPersist(s, e, s', adjustedAt, k, t);
    }
  }

  lemma GateHushed(s: System, e: Event, s': System, log: AdjustLog, h: Hush, h': Hush, o: Orientation)
    requires Sound(s) && e.Scored? && Enabled(s, e) && s' == Next(s, e) && h' == Note(h, s, e)
    requires o == Oriented(s.core, s.phase.batch, s.phase.scoredAt, e.matches, e.now) && !PassesGate(o)
    requires Mirrors(s.core.overrides, log, s.clock) && Hushed(s, log, h)
    ensures Hushed(s', log, h')
  {
    if !AnyInForce(log, e.now) {
      NothingSilencedWithoutOverride(s, log, e.matches, e.now, o);
    }
    ClosedGateHushed(s, e, s', log, h, h', o, SilencedBy(o, s.phase.batch));
  }

  lemma ElsewhereHushed(s: System, e: Event, s': System, log: AdjustLog, h: Hush)
    requires Sound(s) && Enabled(s, e) && s' == Next(s, e) && Hushed(s, log, h)
    ensures Hushed(s', log, h)
  {
    Patience.ClockRuns(s, e);
    forall k | k in h.times ensures Times(s', h.adjustedAt.value, k, h.times[k]) {
      TimesPersist(s, e, s', h.adjustedAt.value, k, h.times[k]);
    }
  }

  lemma NextHushed(s: System, e: Event, s': System, log: AdjustLog, log': AdjustLog, h: Hush, h': Hush)
    requires Sound(s) && Enabled(s, e) && s' == Next(s, e)
    requires log' == NoteEvent(log, s, e) && h' == Note(h, s, e)
    requires Mirrors(s.core.overrides, log, s.clock) && Hushed(s, log, h)
    ensures Hushed(s', log', h')
  {
    if e.Scored? && !PassesGate(Oriented(s.core, s.phase.batch, s.phase.scoredAt, e.matches, e.now)) {
      GateHushed(s, e, s', log, h, h', Oriented(s.core, s.phase.batch, s.phase.scoredAt, e.matches, e.now));
    } else if e.Replied? && Ledger.VerdictOf(s, e).Adjusted? {
    } else {
      ElsewhereHushed(s, e, s', log, h);
    }
  }

  lemma {:induction false} AlwaysHushed(config: Config, t0: int, run: Run)
    requires t0 > 0 && Legal(config, t0, run)
    ensures Hushed(After(config, t0, run), LogAfter(config, t0, run), HushAfter(config, t0, run))
  {
    if run != [] {
      var before := run[..|run| - 1];
      AlwaysHushed(config, t0, before);
      AlwaysSound(config, t0, before);
      AlwaysMirrors(config, t0, before);
      NextHushed(After(config, t0, before), run[|run| - 1], After(config, t0, run), LogAfter(config, t0, before),
                 LogAfter(config, t0, run), HushAfter(config, t0, before), HushAfter(config, t0, run));
    }
  }

  lemma {:induction false} FiveMinutesEach(t: seq<int>, n: nat)
    requires n < |t| && forall i :: 0 <= i < |t| - 1 ==> t[i + 1] - t[i] >= RECHECK_MS
    ensures t[n] - t[0] >= n * RECHECK_MS
  {
    if n > 0 {
      FiveMinutesEach(t, n - 1);
    }
  }

  /** BOUNDED SILENCING. Over any run, between two "adjust" decisions an observation is put back below
      the threshold at most six times; before the first "adjust" never. */
  lemma {:induction false} SilencedAtMostSixTimes(config: Config, t0: int, run: Run, k: string)
    requires t0 > 0 && Legal(config, t0, run)
    requires k in HushAfter(config, t0, run).times
    ensures HushAfter(config, t0, run).adjustedAt.Some?
    ensures |HushAfter(config, t0, run).times[k]| <= 6
  {
    AlwaysHushed(config, t0, run);
    var s, h := After(config, t0, run), HushAfter(config, t0, run);
    AtMostSix(s, h.adjustedAt.value, k, h.times[k]);
  }

  lemma AtMostSix(s: System, adjustedAt: int, k: string, t: seq<int>)
    requires Times(s, adjustedAt, k, t)
    ensures |t| <= 6
  {
    FiveMinutesEach(t, |t| - 1);
  }

  /** ...and never once every override has lapsed: over any run, when no setting of the log counts any
      more, a closed gate puts nothing back. */
  lemma {:induction false} NothingSilencedOnceLapsed(config: Config, t0: int, run: Run, s: System, matches: seq<nat>,
      now: int)
    requires t0 > 0 && Legal(config, t0, run) && s == After(config, t0, run)
    requires Enabled(s, Scored(matches, now)) && !AnyInForce(LogAfter(config, t0, run), now)
    requires !Next(s, Scored(matches, now)).phase.Thinking?
    ensures Next(s, Scored(matches, now)).core.engine == s.core.engine
  {
    AlwaysSound(config, t0, run);
    AlwaysMirrors(config, t0, run);
    var o := Oriented(s.core, s.phase.batch, s.phase.scoredAt, matches, now);
    NothingSilencedWithoutOverride(s, LogAfter(config, t0, run), matches, now, o);
  }
}
