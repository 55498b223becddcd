/** Ticks do not overlap, and reasoning rounds keep their distance. */
module Spacing {
  import opened Observations
  import opened Core
  import opened Daemon
  import Decisions
  import Ledger
  import Overriding

  /** A reasoning round: when it started, and the interval that was asked for when its tick looked around. */
  datatype Round = Round(at: int, interval: int)

  /** `asked` is the interval the last "adjust" that named one asked for, and before that the configured one;
      `admitted` is what was asked for when the running tick looked around. */
  datatype Journal = Journal(rounds: seq<Round>, asked: int, admitted: int)

  /** The interval a reply asks for. */
  ghost function AskedBy(e: Event): Option<int> {
    if e.Replied? && e.d.action.Adjust? && e.d.adjustments.Some? then e.d.adjustments.value.reasoningIntervalMs
    else None
  }

  ghost function Note(j: Journal, s: System, e: Event): Journal
    requires Enabled(s, e)
  {
    if LooksAround(s, e) then j.(admitted := j.asked)
    else if e.Scored? && Next(s, e).phase.Thinking? then j.(rounds := j.rounds + [Round(e.now, j.admitted)])
    else if AskedBy(e).Some? then j.(asked := AskedBy(e).value)
    else j
  }

  ghost function JournalAfter(config: Config, t0: int, run: Run): Journal
    requires Legal(config, t0, run)
  {
    if run == [] then Journal([], config.minReasoningIntervalMs, 0)
    else
      var before := run[..|run| - 1];
      Note(JournalAfter(config, t0, before), After(config, t0, before), run[|run| - 1])
  }

  ghost function LastStart(rounds: seq<Round>, t0: int): int {
    if rounds == [] then t0 else rounds[|rounds| - 1].at
  }

  ghost predicate SpacedAt(rounds: seq<Round>, i: nat, t0: int)
    requires i < |rounds|
  {
    rounds[i].at - LastStart(rounds[..i], t0) >= rounds[i].interval
  }

  ghost predicate WellSpaced(rounds: seq<Round>, t0: int) {
    forall i :: 0 <= i < |rounds| ==> SpacedAt(rounds, i, t0)
  }

  ghost predicate Journaled(s: System, j: Journal, t0: int) {
    && s.core.lastReasoningMs == LastStart(j.rounds, t0) <= s.clock
    && WellSpaced(j.rounds, t0)
    && (s.phase.Scoring? ==> s.clock - s.core.lastReasoningMs >= j.admitted)
    && j.asked == IntervalMs(s.core)
  }

  /** Only an "adjust" that names an interval changes it. */
  lemma {:induction false} IntervalKept(s: System, e: Event)
    requires Enabled(s, e)
    ensures IntervalMs(Next(s, e).core) == if AskedBy(e).Some? then AskedBy(e).value else IntervalMs(s.core)
  {
    match e
    case TickCalled(_, env) =>
      if LooksAround(s, e) {
        ObserveShape(Ledger.LookingCore(s), env, Observe(Ledger.LookingCore(s), env));
      }
    case Delivered(env) =>
      if LooksAround(s, e) {
        ObserveShape(s.core, env, Observe(s.core, env));
      }
    case Scored(matches, now) =>
      OrientFrame(s.core, s.phase.batch, s.phase.scoredAt, matches, now,
                  Orient(s.core, s.phase.batch, s.phase.scoredAt, matches, now));
    case Replied(_, _, _, now) => ActInterval(s.core, s.phase.batch, s.phase.ranked, e, now);
    case _ =>
  }

  lemma ActInterval(c: CoreState, batch: seq<Observation>, ranked: seq<Observation>, e: Event, now: int)
    requires ranked != [] && e.Replied?
    ensures var c' := Act(c, batch, ranked, Decisions.Judge(e.d, ranked, e.foreground, e.submit), now).core;
            && c'.config == c.config
            && c'.overrides.intervalMs == if AskedBy(e).Some? then AskedBy(e) else c.overrides.intervalMs
  {
    var v := Decisions.Judge(e.d, ranked, e.foreground, e.submit);
    Overriding.ActOverrides(c, batch, ranked, v, now);
    Overriding.ActConfig(c, batch, ranked, v, now);
  }

  lemma {:induction false} LastReasoningKept(s: System, e: Event)
    requires Enabled(s, e) && !(e.Scored? && Next(s, e).phase.Thinking?)
    ensures Next(s, e).core.lastReasoningMs == s.core.lastReasoningMs
    ensures s.clock <= Next(s, e).clock
    ensures Next(s, e).phase.Scoring? ==> s.phase.Scoring? || LooksAround(s, e)
  {
    match e
    case TickCalled(_, env) =>
      if LooksAround(s, e) {
        ObserveShape(Ledger.LookingCore(s), env, Observe(Ledger.LookingCore(s), env));
      }
    case Delivered(env) =>
      if LooksAround(s, e) {
        ObserveShape(s.core, env, Observe(s.core, env));
      }
    case Scored(matches, now) =>
    case Replied(_, _, _, now) => ActLast(s.core, s.phase.batch, s.phase.ranked, Ledger.VerdictOf(s, e), now);
    case _ =>
  }

  lemma ActLast(c: CoreState, batch: seq<Observation>, ranked: seq<Observation>, v: Decisions.Verdict, now: int)
    requires ranked != []
    ensures Act(c, batch, ranked, v, now).core.lastReasoningMs == c.lastReasoningMs
    ensures !Act(c, batch, ranked, v, now).phase.Scoring?
  {
  }

  /** A tick that gets as far as scoring found the last round far enough away. */
  lemma AdmittedInTime(s: System, e: Event)
    requires Enabled(s, e) && LooksAround(s, e) && Next(s, e).phase.Scoring?
    ensures Next(s, e).clock - s.core.lastReasoningMs >= IntervalMs(s.core)
  {
  }

  lemma OneMoreRound(rounds: seq<Round>, r: Round, t0: int)
    requires WellSpaced(rounds, t0) && r.at - LastStart(rounds, t0) >= r.interval
    ensures WellSpaced(rounds + [r], t0) && LastStart(rounds + [r], t0) == r.at
  {
    var all := rounds + [r];
    forall i | 0 <= i < |all| ensures SpacedAt(all, i, t0) {
      assert all[..i] == rounds[..i];
      if i < |rounds| {
        assert SpacedAt(rounds, i, t0);
      } else {
        assert rounds[..i] == rounds;
      }
    }
  }

  lemma RoundJournaled(s: System, e: Event, j: Journal, t0: int)
    requires e.Scored? && Enabled(s, e) && Next(s, e).phase.Thinking? && Journaled(s, j, t0)
    ensures Journaled(Next(s, e), Note(j, s, e), t0)
  {
    OneMoreRound(j.rounds, Round(e.now, j.admitted), t0);
    IntervalKept(s, e);
  }

  lemma NextJournaled(s: System, e: Event, j: Journal, t0: int)
    requires Enabled(s, e) && Journaled(s, j, t0)
    ensures Journaled(Next(s, e), Note(j, s, e), t0)
  {
    IntervalKept(s, e);
    if e.Scored? && Next(s, e).phase.Thinking? {
      RoundJournaled(s, e, j, t0);
    } else {
      LastReasoningKept(s, e);
      if LooksAround(s, e) && Next(s, e).phase.Scoring? {
        AdmittedInTime(s, e);
      }
    }
  }

  lemma {:induction false} AlwaysJournaled(config: Config, t0: int, run: Run)
    requires t0 > 0 && Legal(config, t0, run)
    ensures Journaled(After(config, t0, run), JournalAfter(config, t0, run), t0)
  {
    if run != [] {
      var before := run[..|run| - 1];
      AlwaysJournaled(config, t0, before);
      NextJournaled(After(config, t0, before), run[|run| - 1], JournalAfter(config, t0, before), t0);
    }
  }

  /** REASONING IS SPACED. Over any run, each reasoning round starts at least the interval after the round before
      it, and the first that long after construction: the interval the last "adjust" that named one had asked
      for when the round's tick looked around, or the configured one if none had. */
  lemma {:induction false} RoundsAreSpaced(config: Config, t0: int, run: Run)
    requires t0 > 0 && Legal(config, t0, run)
    ensures WellSpaced(JournalAfter(config, t0, run).rounds, t0)
    ensures After(config, t0, run).core.lastReasoningMs == LastStart(JournalAfter(config, t0, run).rounds, t0)
  {
    AlwaysJournaled(config, t0, run);
  }

  /** A tick that comes earlier than that after the last round, or while every provider cools down, or when the
      budget cannot be read or is down to its floor, changes nothing. */
  lemma {:induction false} TooEarlyChangesNothing(config: Config, t0: int, run: Run, s: System, e: Event, j: Journal,
      s': System)
    requires t0 > 0 && Legal(config, t0, run) && s == After(config, t0, run) && j == JournalAfter(config, t0, run)
    requires Enabled(s, e) && LooksAround(s, e) && s' == Next(s, e)
    requires || e.env.now < LastStart(j.rounds, t0) + j.asked
             || e.env.coolingDown
             || e.env.budgetPct.None?
             || e.env.budgetPct.value >= 1.0 - config.budgetFloorPct / 100.0
    ensures s'.core == s.core.(tickInFlight := false) && s'.phase == Idle
  {
    AlwaysJournaled(config, t0, run);
    Overriding.ConfigStays(config, t0, run);
  }

  /** TICKS DO NOT OVERLAP. The flag alone turns a second tick away, and after any run it is up exactly
      while a tick body waits somewhere; so a `tick()` called meanwhile changes nothing, and what the
      body is waiting with is not lost. */
  lemma {:induction false} TicksDoNotOverlap(config: Config, t0: int, run: Run, foreground: int, env: Surroundings)
    requires t0 > 0 && Legal(config, t0, run)
    requires Enabled(After(config, t0, run), TickCalled(foreground, env))
    ensures var s := After(config, t0, run);
            && (s.core.tickInFlight <==> !s.phase.Idle?)
            && (!s.phase.Idle? ==> Next(s, TickCalled(foreground, env)) == s)
  {
    AlwaysSound(config, t0, run);
  }
}
