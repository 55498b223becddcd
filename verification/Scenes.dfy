/** What single events do to an agent that has one thing, or two, to look at: the steps the runs at real
    inputs are made of. */
module Scenes {
  import opened Observations
  import opened OrderedMaps
  import opened Engine
  import opened Core
  import opened Daemon
  import opened Ledger
  import opened Finality
  import Decisions
  import Gate
  import Recency
  import Scorer
  import StableSort

  /** The default `AgentCoreConfig`. */
  const DEFAULTS := Config(30, 30_000, 10.0)

  const NO_DEFERRALS: OrderedMap<Deferral> := OrderedMap([], map[])

  function Waiting(o: Observation, recheckAt: int): OrderedMap<Deferral> {
    OrderedMap([o.id], map[o.id := Deferral(o, recheckAt)])
  }

  /** Nothing cools down, no budget is spent and every task that is followed up still runs. */
  function Calm(now: int, tasks: seq<TaskReply>, reports: seq<Option<seq<Observation>>>): Surroundings {
    Surroundings(now, false, Some(0.0), tasks, reports)
  }

  /** A configuration that lets a tick in once a minute. */
  predicate Obliging(config: Config) {
    config.minReasoningIntervalMs <= 60_000 && config.budgetFloorPct < 100.0
  }

  /** Between two ticks, a minute or more after the last round and before `now`. */
  ghost predicate Between(s: System, now: int) {
    && s.phase == Idle && !s.core.tickInFlight && s.core.held == []
    && s.core.overrides.intervalMs.None? && Obliging(s.core.config)
    && s.core.lastReasoningMs + 60_000 <= now && s.clock <= now
  }

  predicate AllRunning(tracked: OrderedMap<int>, tasks: seq<TaskReply>) {
    |tasks| == |tracked.keys| && forall i :: 0 <= i < |tasks| ==> tasks[i].Running?
  }

  ghost predicate NoneStale(tracked: OrderedMap<int>, now: int) {
    forall k :: k in tracked.keys ==> !Stale(tracked, k, now)
  }

  /** A goal about the one observation it names. */
  function AnswerOnly(id: string): Decisions.Decision {
    Decisions.Decision(Decisions.Execute, Some("look into it"), None, None, [id], None, None, "r", false)
  }

  // ---------- one event at a time ----------

  lemma OneEvent(config: Config, t0: int, run: Run, e: Event, s: System)
    requires Legal(config, t0, run) && s == After(config, t0, run) && Enabled(s, e)
    ensures Legal(config, t0, run + [e]) && After(config, t0, run + [e]) == Next(s, e)
    ensures (run + [e])[..|run + [e]| - 1] == run && (run + [e])[|run + [e]| - 1] == e
  {
    assert (run + [e])[..|run + [e]| - 1] == run;
  }

  lemma {:induction false} NothingEnded(e: EngineState, tracked: OrderedMap<int>, tasks: seq<TaskReply>, n: nat,
      now: int)
    requires AllRunning(tracked, tasks) && n <= |tasks|
    ensures var r := SweepTasks(e, tracked, tasks, n, now);
            r.engine == e && !r.failed && (NoneStale(tracked, now) ==> r.tracked == tracked)
    ensures Outcomes(tracked.keys, tasks, n, now) == []
  {
    if n > 0 {
      NothingEnded(e, tracked, tasks, n - 1, now);
      assert tracked.keys[n - 1] in tracked.keys;
    }
  }

  /** A tick looks around, no task having ended. */
  lemma Look(s: System, e: Event, h: Harvest) returns (s': System)
    requires e.TickCalled? && Between(s, e.env.now) && e.env == Calm(e.env.now, e.env.tasks, e.env.reports)
    requires AllRunning(s.core.tracked, e.env.tasks)
    requires Distinct(Gathered(e.env.reports)) && Ids(Gathered(e.env.reports)) !! s.issued.Keys
    requires h == Collect(s.core.engine, e.env.reports, e.env.now)
    ensures Enabled(s, e) && s' == Next(s, e)
    ensures s'.core == s.core.(tickInFlight := h.batch != [], engine := h.engine, tracked := s'.core.tracked)
    ensures NoneStale(s.core.tracked, e.env.now) ==> s'.core.tracked == s.core.tracked
    ensures s'.phase == (if h.batch != [] then Scoring(h.batch, e.env.now) else Idle) && s'.clock == e.env.now
    ensures s'.issued == Register(s.issued, Gathered(e.env.reports), |Gathered(e.env.reports)|)
  {
    var core := LookingCore(s);
    NothingEnded(s.core.engine, s.core.tracked, e.env.tasks, |e.env.tasks|, e.env.now);
    assert [] + Gathered(e.env.reports) == Gathered(e.env.reports);
    assert Newcomers(s.core, e.env) == Gathered(e.env.reports);
    assert Newcomers(core, e.env) == Gathered(e.env.reports);
    assert Plausible(s, e.env);
    s' := Next(s, e);
    assert s' == Looked(s, core, e.env);
    assert Admitted(core, e.env);
    ObserveShape(core, e.env, Observe(core, e.env));
    assert Harvested(core, e.env) == h;
  }

  /** How such a look is booked. */
  lemma LookBooked(s: System, e: Event, h: Harvest, b: Books)
    requires e.TickCalled? && Between(s, e.env.now) && e.env == Calm(e.env.now, e.env.tasks, e.env.reports)
    requires AllRunning(s.core.tracked, e.env.tasks) && Enabled(s, e)
    requires h == Collect(s.core.engine, e.env.reports, e.env.now)
    ensures Book(b, s, e) == CollectedBooks(b, h, Next(s, e).issued, e.env.now)
  {
    NothingEnded(s.core.engine, s.core.tracked, e.env.tasks, |e.env.tasks|, e.env.now);
    assert Admitted(LookingCore(s), e.env) && Harvested(LookingCore(s), e.env) == h;
  }

  // ---------- what is collected ----------

  lemma NothingDue(now: int)
    ensures Due(NO_DEFERRALS, now) == [] && Drained(NO_DEFERRALS, now) == NO_DEFERRALS
  {
  }

  lemma NotYetDue(o: Observation, recheckAt: int, now: int)
    requires now < recheckAt
    ensures Due(Waiting(o, recheckAt), now) == []
    ensures Drained(Waiting(o, recheckAt), now) == Waiting(o, recheckAt)
  {
    var table := Waiting(o, recheckAt);
    assert DueAmong(table.keys, 0, table.items, now) == [];
    assert DrainedUpTo(table, 0, now) == table;
  }

  lemma OneDue(o: Observation, recheckAt: int, now: int)
    requires recheckAt <= now
    ensures Due(Waiting(o, recheckAt), now) == [o] && Drained(Waiting(o, recheckAt), now) == NO_DEFERRALS
  {
    var table := Waiting(o, recheckAt);
    assert DueAmong(table.keys, 0, table.items, now) == [];
    assert DrainedUpTo(table, 0, now) == table;
    assert Without([o.id], o.id) == [] by {
      assert WithoutUpTo([o.id], 0, o.id) == [];
    }
    assert table.items - {o.id} == map[];
  }

  lemma SiftOne(o: Observation, hashes: map<Fingerprint, int>, now: int)
    requires !SeenRecently(hashes, DedupHash(o), now)
    ensures Sift([o], hashes, now) == Sieve([o], [], hashes[DedupHash(o) := now])
  {
    assert [o][..0] == [];
    assert Sift([], hashes, now) == Sieve([], [], hashes);
    assert [] + [o] == [o];
  }

  lemma SortOne(o: Observation)
    ensures StableSort.Sort([o]) == [o]
  {
    assert [o][..0] == [];
    assert StableSort.Sort([]) == [];
    assert StableSort.Insert([], o) == [o];
  }

  lemma CollectOne(e: EngineState, reports: seq<Option<seq<Observation>>>, now: int, o: Observation, h: Harvest)
    requires Arrivals(e, reports, now) == [o]
    requires !SeenRecently(e.recentHashes, DedupHash(o), now)
    requires h == Collect(e, reports, now)
    ensures h.batch == [o] && h.suppressed == []
    ensures h.engine.pending == [] && h.engine.deferred == Drained(e.deferred, now)
    ensures h.engine.recentHashes == Recency.Prune(e.recentHashes, now, DEDUP_WINDOW_MS)[DedupHash(o) := now]
  {
    var pruned := Recency.Prune(e.recentHashes, now, DEDUP_WINDOW_MS);
    assert !SeenRecently(pruned, DedupHash(o), now);
    SiftOne(o, pruned, now);
    SortOne(o);
  }

  lemma SiftTwo(a: Observation, b: Observation, hashes: map<Fingerprint, int>, now: int)
    requires !SeenRecently(hashes, DedupHash(a), now) && !SeenRecently(hashes, DedupHash(b), now)
    requires DedupHash(a) != DedupHash(b)
    ensures Sift([a, b], hashes, now) == Sieve([a, b], [], hashes[DedupHash(a) := now][DedupHash(b) := now])
  {
    SiftOne(a, hashes, now);
    assert [a, b][..1] == [a];
    assert [a] + [b] == [a, b];
  }

  lemma CollectTwo(e: EngineState, reports: seq<Option<seq<Observation>>>, now: int, a: Observation, b: Observation,
      h: Harvest)
    requires Arrivals(e, reports, now) == [a, b] && Drained(e.deferred, now) == NO_DEFERRALS
    requires !SeenRecently(e.recentHashes, DedupHash(a), now) && !SeenRecently(e.recentHashes, DedupHash(b), now)
    requires a.source != b.source && a.priority >= b.priority
    requires h == Collect(e, reports, now)
    ensures h.batch == [a, b] && h.engine.pending == [] && h.engine.deferred == NO_DEFERRALS
    ensures h.engine.recentHashes
         == Recency.Prune(e.recentHashes, now, DEDUP_WINDOW_MS)[DedupHash(a) := now][DedupHash(b) := now]
  {
    var pruned := Recency.Prune(e.recentHashes, now, DEDUP_WINDOW_MS);
    assert !SeenRecently(pruned, DedupHash(a), now) && !SeenRecently(pruned, DedupHash(b), now);
    SiftTwo(a, b, pruned, now);
    SortTwo(a, b);
  }

  lemma SortTwo(a: Observation, b: Observation)
    requires a.priority >= b.priority
    ensures StableSort.Sort([a, b]) == [a, b]
  {
    SortOne(a);
    assert [a, b][..1] == [a];
    assert [a] + [b] == [a, b];
  }

  // ---------- what the gate sees ----------

  lemma OrientOne(c: CoreState, o: Observation, at: int, now: int, actions: Scorer.ActionTable, seen: Observation,
      or: Orientation)
    requires actions == Scorer.Pruned(c.actions, at)
    requires seen == Boost(Scorer.ScoreOne(o, 0, actions, at), ExpireBoosts(c.overrides, now).boosts)
    requires or == Oriented(c, [o], at, [0], now)
    ensures or.ranked == [seen] && or.scored == [Scorer.ScoreOne(o, 0, actions, at)]
    ensures PassesGate(or) <==> seen.priority >= Threshold(or.core)
  {
    var scored := Scorer.ScoreOne(o, 0, actions, at);
    var boosts := ExpireBoosts(c.overrides, now).boosts;
    assert Scorer.ScoreEach([o], [0], 0, actions, at) == [];
    assert Scorer.ScoreEach([o], [0], 1, actions, at) == [scored];
    SortOne(scored);
    assert BoostEach([scored], 0, boosts) == [];
    assert BoostEach([scored], 1, boosts) == [seen];
    SortOne(seen);
  }

  const NO_OVERRIDES := Overrides(None, None, map[], map[], None)

  /** The top reaches the threshold: the round goes on to the reasoning step. */
  lemma OrientOpens(s: System, o: Observation, at: int, now: int, actions: Scorer.ActionTable, seen: Observation,
      or: Orientation) returns (s': System)
    requires s.phase == Scoring([o], at) && now >= s.clock && actions == Scorer.Pruned(s.core.actions, at)
    requires seen == Boost(Scorer.ScoreOne(o, 0, actions, at), ExpireBoosts(s.core.overrides, now).boosts)
    requires or == Oriented(s.core, [o], at, [0], now) && seen.priority >= Threshold(or.core)
    ensures Enabled(s, Scored([0], now)) && s' == Next(s, Scored([0], now))
    ensures s'.phase == Thinking([o], [seen]) && s'.clock == now && s'.issued == s.issued
    ensures s'.core == or.core.(lastReasoningMs := now)
  {
    OrientOne(s.core, o, at, now, actions, seen, or);
    s' := Next(s, Scored([0], now));
  }

  // ---------- whole stretches ----------

  /** Nothing is followed up, recorded or overridden. */
  ghost predicate Untouched(c: CoreState) {
    c.tracked == OrderedMap([], map[]) && c.actions == map[] && c.overrides == NO_OVERRIDES
  }

  lemma ScoredAtLeast(o: Observation, at: int, minimum: int)
    requires o.priority <= 100 && minimum <= o.priority
    ensures Scorer.ScoreOne(o, 0, map[], at).priority >= minimum
  {
  }

  lemma LookAtOne(s: System, e: Event, o: Observation) returns (s': System)
    requires e.TickCalled? && Between(s, e.env.now) && e.env == Calm(e.env.now, e.env.tasks, e.env.reports)
    requires AllRunning(s.core.tracked, e.env.tasks) && NoneStale(s.core.tracked, e.env.now)
    requires Distinct(Gathered(e.env.reports)) && Ids(Gathered(e.env.reports)) !! s.issued.Keys
    requires Arrivals(s.core.engine, e.env.reports, e.env.now) == [o]
    requires !SeenRecently(s.core.engine.recentHashes, DedupHash(o), e.env.now)
    ensures Enabled(s, e) && s' == Next(s, e)
    ensures s'.core == s.core.(tickInFlight := true, engine := s'.core.engine)
    ensures s'.core.engine.pending == [] && s'.core.engine.deferred == Drained(s.core.engine.deferred, e.env.now)
    ensures s'.core.engine.recentHashes
         == Recency.Prune(s.core.engine.recentHashes, e.env.now, DEDUP_WINDOW_MS)[DedupHash(o) := e.env.now]
    ensures s'.phase == Scoring([o], e.env.now) && s'.clock == e.env.now
    ensures s'.issued == Register(s.issued, Gathered(e.env.reports), |Gathered(e.env.reports)|)
  {
    var h := Collect(s.core.engine, e.env.reports, e.env.now);
    CollectOne(s.core.engine, e.env.reports, e.env.now, o, h);
    s' := Look(s, e, h);
  }

  /** Two at once, nothing being left in the deferral table; tasks followed for too long may leave. */
  lemma LookAtTwo(s: System, e: Event, a: Observation, b: Observation) returns (s': System)
    requires e.TickCalled? && Between(s, e.env.now) && e.env == Calm(e.env.now, e.env.tasks, e.env.reports)
    requires AllRunning(s.core.tracked, e.env.tasks)
    requires Distinct(Gathered(e.env.reports)) && Ids(Gathered(e.env.reports)) !! s.issued.Keys
    requires Arrivals(s.core.engine, e.env.reports, e.env.now) == [a, b]
    requires Drained(s.core.engine.deferred, e.env.now) == NO_DEFERRALS
    requires !SeenRecently(s.core.engine.recentHashes, DedupHash(a), e.env.now)
    requires !SeenRecently(s.core.engine.recentHashes, DedupHash(b), e.env.now)
    requires a.source != b.source && a.priority >= b.priority
    ensures Enabled(s, e) && s' == Next(s, e)
    ensures s'.core == s.core.(tickInFlight := true, engine := s'.core.engine, tracked := s'.core.tracked)
    ensures NoneStale(s.core.tracked, e.env.now) ==> s'.core.tracked == s.core.tracked
    ensures s'.core.engine.pending == [] && s'.core.engine.deferred == NO_DEFERRALS
    ensures s'.core.engine.recentHashes
         == Recency.Prune(s.core.engine.recentHashes, e.env.now, DEDUP_WINDOW_MS)
            [DedupHash(a) := e.env.now][DedupHash(b) := e.env.now]
    ensures s'.phase == Scoring([a, b], e.env.now) && s'.clock == e.env.now
    ensures s'.issued == Register(s.issued, Gathered(e.env.reports), |Gathered(e.env.reports)|)
  {
    var h := Collect(s.core.engine, e.env.reports, e.env.now);
    CollectTwo(s.core.engine, e.env.reports, e.env.now, a, b, h);
    s' := Look(s, e, h);
  }

  /** The same, nothing being left in the deferral table. */
  lemma LookAtLast(s: System, e: Event, o: Observation) returns (s': System)
    requires e.TickCalled? && Between(s, e.env.now) && e.env == Calm(e.env.now, e.env.tasks, e.env.reports)
    requires AllRunning(s.core.tracked, e.env.tasks) && NoneStale(s.core.tracked, e.env.now)
    requires Distinct(Gathered(e.env.reports)) && Ids(Gathered(e.env.reports)) !! s.issued.Keys
    requires Arrivals(s.core.engine, e.env.reports, e.env.now) == [o]
    requires Drained(s.core.engine.deferred, e.env.now) == NO_DEFERRALS
    requires !SeenRecently(s.core.engine.recentHashes, DedupHash(o), e.env.now)
    ensures Enabled(s, e) && s' == Next(s, e)
    ensures s'.core == s.core.(tickInFlight := true, engine := s'.core.engine)
    ensures s'.core.engine.pending == [] && s'.core.engine.deferred == NO_DEFERRALS
    ensures s'.core.engine.recentHashes
         == Recency.Prune(s.core.engine.recentHashes, e.env.now, DEDUP_WINDOW_MS)[DedupHash(o) := e.env.now]
    ensures s'.phase == Scoring([o], e.env.now) && s'.clock == e.env.now
    ensures s'.issued == Register(s.issued, Gathered(e.env.reports), |Gathered(e.env.reports)|)
  {
    s' := LookAtOne(s, e, o);
  }

  lemma OneBookedAsReturned(s: System, e: Event, o: Observation, b: Books)
    requires e.TickCalled? && Between(s, e.env.now) && e.env == Calm(e.env.now, e.env.tasks, e.env.reports)
    requires AllRunning(s.core.tracked, e.env.tasks) && Enabled(s, e)
    requires Arrivals(s.core.engine, e.env.reports, e.env.now) == [o]
    requires !SeenRecently(s.core.engine.recentHashes, DedupHash(o), e.env.now)
    ensures Book(b, s, e) == ReturnedOne(b, o, e.env.now)
  {
    var h := Collect(s.core.engine, e.env.reports, e.env.now);
    CollectOne(s.core.engine, e.env.reports, e.env.now, o, h);
    LookBooked(s, e, h, b);
    BooksOfOne(b, h, Next(s, e).issued, e.env.now, o);
  }

  /** The books once o alone has been returned. */
  ghost function ReturnedOne(b: Books, o: Observation, now: int): Books {
    Books(b.owed + (if o.actionable then {o.id} else {}), b.fate, b.last[DedupHash(o) := Return(o.id, now)])
  }

  lemma BooksOfOne(b: Books, h: Harvest, issued: map<string, Observation>, now: int, o: Observation)
    requires h.batch == [o] && h.suppressed == []
    ensures CollectedBooks(b, h, issued, now) == ReturnedOne(b, o, now)
  {
    SnocIds([], o);
    assert [] + [o] == [o];
    assert ActionableIds([]) == {} && ReturnsAfter(b.last, [o], 0, now) == b.last;
    var none := SupersededNow(b, h, ReturnsAfter(b.last, [o], 1, now), issued, now);
    FatesNow(b, h, ReturnsAfter(b.last, [o], 1, now), issued, now);
    assert none == map[];
    assert b.fate + none == b.fate;
  }

  /** Through an open gate: no override, and nothing recorded under its hash. */
  lemma OrientQuiet(s: System, o: Observation, t: int) returns (s': System)
    requires s.phase == Scoring([o], t) && s.clock == t && s.core.overrides == NO_OVERRIDES
    requires Scorer.ActionHash(o) !in s.core.actions
    requires s.core.config.minObservationPriority <= o.priority <= 100
    ensures Enabled(s, Scored([0], t)) && s' == Next(s, Scored([0], t))
    ensures s'.phase == Thinking([o], [Scorer.ScoreOne(o, 0, map[], t)]) && s'.clock == t && s'.issued == s.issued
    ensures s'.core == s.core.(lastReasoningMs := t, actions := Scorer.Pruned(s.core.actions, t))
  {
    var scored, actions := Scorer.ScoreOne(o, 0, map[], t), Scorer.Pruned(s.core.actions, t);
    assert ExpireBoosts(NO_OVERRIDES, t) == NO_OVERRIDES;
    assert Scorer.ScoreOne(o, 0, actions, t) == scored;
    ScoredAtLeast(o, t, s.core.config.minObservationPriority);
    s' := OrientOpens(s, o, t, t, actions, scored, Oriented(s.core, [o], t, [0], t));
  }

  lemma OrientUntouched(s: System, o: Observation, t: int) returns (s': System)
    requires s.phase == Scoring([o], t) && s.clock == t && Untouched(s.core)
    requires s.core.config.minObservationPriority <= o.priority <= 100
    ensures Enabled(s, Scored([0], t)) && s' == Next(s, Scored([0], t))
    ensures s'.phase == Thinking([o], [Scorer.ScoreOne(o, 0, map[], t)]) && s'.clock == t && s'.issued == s.issued
    ensures s'.core == s.core.(lastReasoningMs := t)
  {
    assert Scorer.Pruned(s.core.actions, t) == map[];
    s' := OrientQuiet(s, o, t);
  }

  lemma OneReport(o: Observation)
    ensures Gathered([Some([o])]) == [o] && Distinct([o]) && Ids([o]) == {o.id}
  {
    assert [Some([o])][..0] == [];
    assert [] + [o] == [o];
    SoleIds(o);
  }

  lemma BothReported(a: Observation, b: Observation)
    requires a.id != b.id
    ensures Gathered([Some([a]), Some([b])]) == [a, b] && Distinct([a, b]) && Ids([a, b]) == {a.id, b.id}
  {
    OneReport(a);
    assert [Some([a]), Some([b])][..1] == [Some([a])];
    assert [a] + [b] == [a, b];
    SnocIds([a], b);
  }

  /** Alone at a gate no override holds open or shut, and below the minimum: it is nowhere afterwards, and
      if it was work that is its fate. */
  lemma DroppedAlone(s: System, o: Observation, t: int, e: Event, p: int) returns (s': System)
    requires s.phase == Scoring([o], t) && s.clock == t && e == Scored([0], t)
    requires s.core.engine.pending == [] && o.id !in s.core.engine.deferred.items
    requires ExpireBoosts(s.core.overrides, t).boosts == map[]
    requires ExpireThreshold(ExpireBoosts(s.core.overrides, t), t).threshold.None?
    requires p == Scorer.ScoreOne(o, 0, Scorer.Pruned(s.core.actions, t), t).priority
    requires p < s.core.config.minObservationPriority
    ensures Enabled(s, e) && s' == Next(s, e)
    ensures o.id !in Places(s') && s'.issued == s.issued && s'.phase == Idle && s'.clock == t
    ensures s'.core == s.core.(tickInFlight := false, actions := s'.core.actions, overrides := s'.core.overrides)
    ensures s'.core.overrides == ExpireThreshold(ExpireBoosts(s.core.overrides, t), t)
    ensures forall b: Books ::
              Book(b, s, e) == b.(fate := b.fate + if o.actionable then map[o.id := BelowMinimum(p, p)] else map[])
  {
    var actions := Scorer.Pruned(s.core.actions, t);
    var scored := Scorer.ScoreOne(o, 0, actions, t);
    var or := Oriented(s.core, [o], t, [0], t);
    OrientOne(s.core, o, t, t, actions, scored, or);
    NoneSilenced(or, o, scored);
    s' := Next(s, e);
    assert s'.core.engine == s.core.engine;
    assert Ids([]) == {};
    SoleDropped(or, o, scored);
  }

  lemma SoleDropped(or: Orientation, o: Observation, scored: Observation)
    requires SilencedBy(or, [o]) == [] && or.ranked == [scored] && or.scored == [scored] && scored.id == o.id
    ensures DroppedNow([o], or)
         == if o.actionable then map[o.id := BelowMinimum(scored.priority, scored.priority)] else map[]
  {
    SoleIds(o);
    assert Ids([]) == {};
    assert Gate.DroppedIds([o], or) == {o.id};
    var low := TooLow(PrioritiesUpTo([scored], 1), PrioritiesUpTo([scored], 1));
    assert FatesOf([o], 0, {o.id}, low) == map[];
    assert DroppedNow([o], or) == FatesOf([o], 1, {o.id}, low);
    assert PrioritiesUpTo([scored], 0) == map[];
    assert PrioritiesUpTo([scored], 1) == map[o.id := scored.priority];
  }

  lemma NoneSilenced(or: Orientation, o: Observation, scored: Observation)
    requires or.ranked == [scored] && or.scored == [scored] && scored.priority < or.core.config.minObservationPriority
    ensures SilencedBy(or, [o]) == []
  {
    var unboosted := PrioritiesUpTo([scored], 1);
    assert PrioritiesUpTo([scored], 0) == map[];
    assert unboosted == map[scored.id := scored.priority];
    assert Silenced(or.ranked, 0, unboosted, ById([o], 1), or.core.config.minObservationPriority) == [];
  }

  /** One event, as the run, the ledger and the list of what goals were credited with have it. */
  lemma OneWritten(config: Config, t0: int, run: Run, e: Event, s: System, s': System)
    requires Legal(config, t0, run) && s == After(config, t0, run) && Enabled(s, e) && s' == Next(s, e)
    ensures Legal(config, t0, run + [e]) && After(config, t0, run + [e]) == s'
    ensures BooksAfter(config, t0, run + [e]) == Book(BooksAfter(config, t0, run), s, e)
    ensures CreditedAfter(config, t0, run + [e]) == CreditedAfter(config, t0, run) + CreditedBy(s, e)
  {
    OneEvent(config, t0, run, e, s);
  }

  /** Two events that hand no goal over. */
  ghost predicate Pair(s: System, e1: Event, s1: System, e2: Event, s2: System) {
    && !e1.Replied? && Enabled(s, e1) && s1 == Next(s, e1)
    && !e2.Replied? && Enabled(s1, e2) && s2 == Next(s1, e2)
  }

  /** What they make of the books. */
  ghost predicate PairBooked(s: System, e1: Event, s1: System, e2: Event, b: Books, b2: Books) {
    Enabled(s, e1) && Enabled(s1, e2) && b2 == Book(Book(b, s, e1), s1, e2)
  }

  lemma TwoWritten(config: Config, t0: int, run: Run, e1: Event, e2: Event, s: System, s1: System, s2: System,
      run': Run)
    requires Legal(config, t0, run) && s == After(config, t0, run)
    requires Pair(s, e1, s1, e2, s2) && run' == run + [e1] + [e2]
    ensures Legal(config, t0, run') && After(config, t0, run') == s2
    ensures CreditedAfter(config, t0, run') == CreditedAfter(config, t0, run)
    ensures PairBooked(s, e1, s1, e2, BooksAfter(config, t0, run), BooksAfter(config, t0, run'))
  {
    OneWritten(config, t0, run, e1, s, s1);
    OneWritten(config, t0, run + [e1], e2, s1, s2);
  }

  /** A round of three events, of which the last alone may hand a goal over. */
  ghost predicate Round(s: System, e1: Event, s1: System, e2: Event, s2: System, e3: Event, s3: System,
      credited: set<string>) {
    Pair(s, e1, s1, e2, s2) && Enabled(s2, e3) && s3 == Next(s2, e3) && CreditedBy(s2, e3) == credited
  }

  lemma RoundWritten(config: Config, t0: int, run: Run, e1: Event, e2: Event, e3: Event, s: System, s1: System,
      s2: System, s3: System, credited: set<string>, run': Run)
    requires Legal(config, t0, run) && s == After(config, t0, run)
    requires Round(s, e1, s1, e2, s2, e3, s3, credited) && run' == run + [e1] + [e2] + [e3]
    ensures Legal(config, t0, run') && After(config, t0, run') == s3
    ensures CreditedAfter(config, t0, run') == CreditedAfter(config, t0, run) + credited
  {
    TwoWritten(config, t0, run, e1, e2, s, s1, s2, run + [e1] + [e2]);
    OneWritten(config, t0, run + [e1] + [e2], e3, s2, s3);
  }

  /** A new agent has looked around for the first time, and x is all there is. */
  ghost predicate FirstSeen(config: Config, x: Observation, t: int, s: System) {
    && s.phase == Scoring([x], t) && s.clock == t && Untouched(s.core)
    && s.core.config == config && s.core.held == []
    && s.core.engine.pending == [] && s.core.engine.deferred == NO_DEFERRALS
    && s.core.engine.recentHashes == map[DedupHash(x) := t] && s.issued == map[x.id := x]
  }

  lemma FirstLook(config: Config, x: Observation, t0: int, t1: int, e: Event) returns (s: System)
    requires Obliging(config) && t0 > 0 && t1 == t0 + 60_000 && e == TickCalled(0, Calm(t1, [], [Some([x])]))
    ensures Enabled(Start(config, t0), e) && s == Next(Start(config, t0), e)
    ensures FirstSeen(config, x, t1, s)
  {
    NothingDue(t1);
    OneReport(x);
    assert [] + [] + [x] == [x];
    s := LookAtLast(Start(config, t0), e, x);
    assert Register(map[], [x], 0) == map[];
    assert s.issued == map[x.id := x];
  }
}
