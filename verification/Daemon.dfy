/** The daemon as a state machine: a tick runs in stretches, and between two of them a message may
    arrive, an observation may be injected, a second `tick()` may be called and time may pass. */
module Daemon {
  import opened Observations
  import opened OrderedMaps
  import opened Engine
  import opened Decisions
  import opened Core
  import opened Inventory
  import opened Gate
  import Scorer

  datatype Event =
    | Injected(o: Observation)
    | UserActive(chat: Option<string>)
    | TickCalled(foreground: int, env: Surroundings)
    | Delivered(env: Surroundings)
    | Scored(matches: seq<nat>, now: int)
    | ScoringFailed(now: int)
    | Replied(d: Decision, foreground: int, submit: Option<string>, now: int)
    | ReplyFailed(now: int)
    | MessageSent

  /** `clock` is the last time read and `issued` every observation as it first entered: neither is
      in the program, which relies on both behaving. */
  datatype System = System(core: CoreState, phase: Phase, clock: int, issued: map<string, Observation>)

  ghost function Start(config: Config, now: int): System {
    System(NewCore(config, now), Idle, now, map[])
  }

  ghost function Flight(p: Phase): seq<Observation> {
    match p
    case Scoring(batch, _) => batch
    case Thinking(batch, _) => batch
    case Notifying(batch) => batch
    case _ => []
  }

  // ---------- what may happen next ----------

  /** The outcome observations the first n entries of a sweep may create. */
  ghost function Outcomes(keys: seq<string>, tasks: seq<TaskReply>, n: nat, now: int): seq<Observation>
    requires n <= |keys| == |tasks|
  {
    if n == 0 then []
    else Outcomes(keys, tasks, n - 1, now)
         + (if tasks[n - 1].Ended? then [OutcomeObservation(keys[n - 1], tasks[n - 1], now)] else [])
  }

  /** The observations that may enter when a tick looks around. */
  ghost function Newcomers(c: CoreState, env: Surroundings): seq<Observation>
    requires |env.tasks| == |c.tracked.keys|
  {
    Outcomes(c.tracked.keys, env.tasks, |env.tasks|, env.now) + Gathered(env.reports)
  }

  ghost function Register(issued: map<string, Observation>, s: seq<Observation>, n: nat): map<string, Observation>
    requires n <= |s|
  {
    if n == 0 then issued else Register(issued, s, n - 1)[s[n - 1].id := s[n - 1]]
  }

  /** The clock does not run back, and ids are fresh (they are random UUIDs). */
  ghost predicate Plausible(s: System, env: Surroundings) {
    && env.now >= s.clock
    && |env.tasks| == |s.core.tracked.keys|
    && Distinct(Newcomers(s.core, env))
    && Ids(Newcomers(s.core, env)) !! s.issued.Keys
  }

  ghost predicate Enabled(s: System, e: Event) {
    match e
    case Injected(o) => o.id !in s.issued
    case UserActive(_) => true
    case TickCalled(_, env) => !s.core.tickInFlight ==> Plausible(s, env)
    case Delivered(env) => s.phase.Delivering? && Plausible(s, env)
    case Scored(matches, now) => s.phase.Scoring? && |matches| == |s.phase.batch| && now >= s.clock
    case ScoringFailed(now) => s.phase.Scoring? && now >= s.clock
    case Replied(d, _, _, now) => s.phase.Thinking? && s.phase.ranked != [] && Parsed(d) && now >= s.clock
    case ReplyFailed(now) => s.phase.Thinking? && now >= s.clock
    case MessageSent => s.phase.Notifying?
  }

  /** Whether this event makes the tick look around (as opposed to deliver a message or do nothing). */
  ghost predicate LooksAround(s: System, e: Event) {
    || (e.TickCalled? && !s.core.tickInFlight && !(s.core.held != [] && s.core.chat.Some?))
    || (e.Delivered? && s.phase.Delivering? && s.phase.rest == [])
  }

  ghost function Looked(s: System, core: CoreState, env: Surroundings): System
    requires |env.tasks| == |core.tracked.keys|
  {
    var t := Observe(core, env);
    var news := Newcomers(core, env);
    System(t.core, t.phase, env.now, Register(s.issued, news, |news|))
  }

  ghost function Next(s: System, e: Event): System
    requires Enabled(s, e)
  {
    match e
    case Injected(o) => s.(core := s.core.(engine := Inject(s.core.engine, o)), issued := s.issued[o.id := o])
    case UserActive(chat) => s.(core := UserActivity(s.core, chat))
    case TickCalled(foreground, env) =>
      if s.core.tickInFlight then s
      else if LooksAround(s, e) then Looked(s, s.core.(tickInFlight := true), env)
      else
        var t := StartTick(s.core, foreground, env);
        s.(core := t.core, phase := t.phase, clock := env.now)
    case Delivered(env) =>
      if LooksAround(s, e) then Looked(s, s.core, env)
      else
        var t := ContinueDelivery(s.core, s.phase.rest, env);
        s.(core := t.core, phase := t.phase, clock := env.now)
    case Scored(matches, now) =>
      var t := Orient(s.core, s.phase.batch, s.phase.scoredAt, matches, now);
      s.(core := t.core, phase := t.phase, clock := now)
    case ScoringFailed(now) =>
      var t := Fail(s.core, s.phase.batch, now);
      s.(core := t.core, phase := t.phase, clock := now)
    case Replied(d, foreground, submit, now) =>
      var t := Act(s.core, s.phase.batch, s.phase.ranked, Judge(d, s.phase.ranked, foreground, submit), now);
      s.(core := t.core, phase := t.phase, clock := now)
    case ReplyFailed(now) =>
      var t := Fail(s.core, s.phase.batch, now);
      s.(core := t.core, phase := t.phase, clock := now)
    case MessageSent =>
      var t := Notified(s.core, s.phase.batch);
      s.(core := t.core, phase := t.phase)
  }

  // ---------- runs ----------

  type Run = seq<Event>

  ghost predicate Legal(config: Config, t0: int, run: Run)
    decreases |run|, 0
  {
    run == [] ||
    (Legal(config, t0, run[..|run| - 1]) && Enabled(After(config, t0, run[..|run| - 1]), run[|run| - 1]))
  }

  ghost function After(config: Config, t0: int, run: Run): System
    requires Legal(config, t0, run)
    decreases |run|, 1
  {
    if run == [] then Start(config, t0) else Next(After(config, t0, run[..|run| - 1]), run[|run| - 1])
  }

  /** What happened so far was legal. */
  lemma {:induction false} LegalUpTo(config: Config, t0: int, run: Run, n: nat)
    requires Legal(config, t0, run) && n <= |run|
    ensures Legal(config, t0, run[..n])
  {
    if n < |run| {
      LegalUpTo(config, t0, run[..|run| - 1], n);
      assert run[..|run| - 1][..n] == run[..n];
    } else {
      assert run[..n] == run;
    }
  }

  /** A run that goes on: up to its last event it was a run that went on too. */
  lemma GoesOn(config: Config, t0: int, run: Run, more: Run, s: System) returns (e: Event)
    requires more != [] && Legal(config, t0, run + more)
    requires Legal(config, t0, run + more[..|more| - 1])
    requires s == After(config, t0, run + more[..|more| - 1])
    ensures e == more[|more| - 1] && Enabled(s, e) && After(config, t0, run + more) == Next(s, e)
    ensures (run + more)[..|run + more| - 1] == run + more[..|more| - 1] && (run + more)[|run + more| - 1] == e
  {
    e := more[|more| - 1];
    assert (run + more)[..|run + more| - 1] == run + more[..|more| - 1];
  }

  lemma WasLegal(config: Config, t0: int, run: Run, more: Run, n: nat)
    requires Legal(config, t0, run + more) && n <= |more|
    ensures Legal(config, t0, run + more[..n])
  {
    LegalUpTo(config, t0, run + more, |run| + n);
    assert (run + more)[..|run| + n] == run + more[..n];
  }

  // ---------- where observations are ----------

  /** Every observation is in at most one place, and nothing in a place has forgotten what it was:
      only a priority can have changed, and in the injection queue not even that. */
  ghost predicate Placed(pending: seq<Observation>, table: Table, flight: seq<Observation>,
      issued: map<string, Observation>) {
    && Distinct(pending) && Distinct(flight) && Keyed(table)
    && Ids(pending) !! table.Keys && Ids(pending) !! Ids(flight) && table.Keys !! Ids(flight)
    && (forall o :: o in pending ==> o.id in issued && issued[o.id] == o)
    && (forall k :: k in table ==> k in issued && Scorer.SameButPriority(issued[k], table[k].observation))
    && (forall o :: o in flight ==> o.id in issued && Scorer.SameButPriority(issued[o.id], o))
  }

  ghost predicate PhaseSound(c: CoreState, p: Phase, clock: int) {
    && (c.tickInFlight <==> !p.Idle?)
    && (p.Delivering? ==> c.chat.Some?)
    && (p.Scoring? ==> p.batch != [] && p.scoredAt <= clock)
    && (p.Thinking? ==> p.batch != [] && RankingOf(p.batch, p.ranked))
  }

  ghost predicate Sound(s: System) {
    && s.clock > 0
    && s.core.engine.deferred.Valid()
    && s.core.tracked.Valid()
    && PhaseSound(s.core, s.phase, s.clock)
    && Placed(s.core.engine.pending, s.core.engine.deferred.items, Flight(s.phase), s.issued)
  }

  lemma {:induction false} StartSound(config: Config, t0: int)
    requires t0 > 0
    ensures Sound(Start(config, t0))
  {
  }

  // ---------- entering ----------

  lemma {:induction false} RegisterExact(issued: map<string, Observation>, s: seq<Observation>, n: nat)
    requires n <= |s| && Distinct(s) && Ids(s) !! issued.Keys
    ensures forall i :: 0 <= i < n ==> s[i].id in Register(issued, s, n) && Register(issued, s, n)[s[i].id] == s[i]
    ensures forall k :: k in issued ==> k in Register(issued, s, n) && Register(issued, s, n)[k] == issued[k]
  {
    IdsExact(s);
    if n > 0 {
      RegisterExact(issued, s, n - 1);
      assert s[n - 1] in s;
    }
  }

  lemma {:induction false} RegisterAll(issued: map<string, Observation>, s: seq<Observation>,
      all: map<string, Observation>)
    requires Distinct(s) && Ids(s) !! issued.Keys && all == Register(issued, s, |s|)
    ensures forall o :: o in s ==> o.id in all && all[o.id] == o
    ensures forall k :: k in issued ==> k in all && all[k] == issued[k]
  {
    RegisterExact(issued, s, |s|);
  }

  lemma TailIds(s: seq<Observation>)
    requires s != []
    ensures Ids(s) == {s[0].id} + Ids(s[1..])
    ensures Distinct(s) ==> Distinct(s[1..])
  {
    assert s == [s[0]] + s[1..];
    ConcatIds([s[0]], s[1..]);
    assert Ids([s[0]]) == {s[0].id} by {
      assert [s[0]] == [] + [s[0]];
      SnocIds([], s[0]);
    }
    ConcatDistinct([s[0]], s[1..]);
  }

  /** Injecting a new observation appends it; at most the oldest injection is lost. */
  lemma InjectIds(e: EngineState, o: Observation, p: seq<Observation>)
    requires Distinct(e.pending) && o.id !in Ids(e.pending)
    requires p == Inject(e, o).pending
    ensures Distinct(p) && Ids(p) <= Ids(e.pending) + {o.id}
    ensures forall x :: x in p ==> x in e.pending || x == o
  {
    var kept := if |e.pending| >= MAX_PENDING_INJECTIONS then e.pending[1..] else e.pending;
    if |e.pending| >= MAX_PENDING_INJECTIONS {
      TailIds(e.pending);
    }
    SnocIds(kept, o);
    SnocDistinct(kept, o);
  }

  lemma PlacedApart(pending: set<string>, id: string, pending': set<string>, other: set<string>)
    requires pending !! other && id !in other && pending' <= pending + {id}
    ensures pending' !! other
  {
  }

  lemma InjectRemembered(pending: seq<Observation>, o: Observation, p: seq<Observation>, table: Table,
      flight: seq<Observation>, issued: map<string, Observation>, all: map<string, Observation>)
    requires forall x :: x in pending ==> x.id in issued && issued[x.id] == x
    requires forall k :: k in table ==> k in issued && Scorer.SameButPriority(issued[k], table[k].observation)
    requires forall x :: x in flight ==> x.id in issued && Scorer.SameButPriority(issued[x.id], x)
    requires o.id !in issued && all == issued[o.id := o]
    requires forall x :: x in p ==> x in pending || x == o
    ensures forall x :: x in p ==> x.id in all && all[x.id] == x
    ensures forall k :: k in table ==> k in all && Scorer.SameButPriority(all[k], table[k].observation)
    ensures forall x :: x in flight ==> x.id in all && Scorer.SameButPriority(all[x.id], x)
  {
  }

  lemma InjectPlaced(e: EngineState, o: Observation, flight: seq<Observation>, issued: map<string, Observation>,
      p: seq<Observation>, all: map<string, Observation>)
    requires Placed(e.pending, e.deferred.items, flight, issued) && o.id !in issued
    requires p == Inject(e, o).pending && all == issued[o.id := o]
    ensures Placed(p, e.deferred.items, flight, all)
  {
    assert o.id !in Ids(e.pending) && o.id !in Ids(flight) by {
      IdsExact(e.pending);
      IdsExact(flight);
    }
    InjectIds(e, o, p);
    InjectRemembered(e.pending, o, p, e.deferred.items, flight, issued, all);
    PlacedApart(Ids(e.pending), o.id, Ids(p), e.deferred.items.Keys);
    PlacedApart(Ids(e.pending), o.id, Ids(p), Ids(flight));
  }

  lemma {:induction false} OutcomesIds(keys: seq<string>, tasks: seq<TaskReply>, n: nat, m: nat, now: int)
    requires n <= m <= |keys| == |tasks|
    ensures Ids(Outcomes(keys, tasks, n, now)) <= Ids(Outcomes(keys, tasks, m, now))
    ensures forall x :: x in Outcomes(keys, tasks, n, now) ==> x in Outcomes(keys, tasks, m, now)
    ensures Distinct(Outcomes(keys, tasks, m, now)) ==> Distinct(Outcomes(keys, tasks, n, now))
    decreases m - n
  {
    if n < m {
      OutcomesIds(keys, tasks, n, m - 1, now);
      if tasks[m - 1].Ended? {
        var before, o := Outcomes(keys, tasks, m - 1, now), OutcomeObservation(keys[m - 1], tasks[m - 1], now);
        assert Outcomes(keys, tasks, m, now) == before + [o];
        SnocIds(before, o);
        SnocDistinct(before, o);
      } else {
        assert Outcomes(keys, tasks, m, now) == Outcomes(keys, tasks, m - 1, now);
      }
    }
  }

  /** The queue holds nothing but what was queued before and what the sweep created. */
  ghost predicate QueuedFrom(p: seq<Observation>, before: seq<Observation>, made: seq<Observation>) {
    && Distinct(p) && Ids(p) <= Ids(before) + Ids(made)
    && (forall x :: x in p ==> x in before || x in made)
  }

  lemma QueueOneMore(e: EngineState, before: seq<Observation>, made: seq<Observation>, o: Observation,
      p: seq<Observation>)
    requires QueuedFrom(e.pending, before, made) && Ids(before) !! Ids(made + [o]) && Distinct(made + [o])
    requires p == Inject(e, o).pending
    ensures QueuedFrom(p, before, made + [o])
  {
    SnocIds(made, o);
    SnocDistinct(made, o);
    InjectIds(e, o, p);
  }

  lemma QueueNoMore(p: seq<Observation>, before: seq<Observation>, made: seq<Observation>, o: Observation)
    requires QueuedFrom(p, before, made)
    ensures QueuedFrom(p, before, made + [o])
  {
  }

  lemma SweepOneMore(r: EngineState, before: seq<Observation>, made: seq<Observation>, reply: TaskReply,
      taskId: string, now: int, made': seq<Observation>, p: seq<Observation>)
    requires QueuedFrom(r.pending, before, made) && reply.Ended?
    requires made' == made + [OutcomeObservation(taskId, reply, now)] && Ids(before) !! Ids(made') && Distinct(made')
    requires p == r.pending || p == Inject(r, OutcomeObservation(taskId, reply, now)).pending
    ensures QueuedFrom(p, before, made')
  {
    var o := OutcomeObservation(taskId, reply, now);
    if p == r.pending {
      QueueNoMore(r.pending, before, made, o);
    } else {
      QueueOneMore(r, before, made, o, p);
    }
  }

  /** One entry of the sweep queues its outcome or queues nothing. */
  lemma SweepStep(e: EngineState, tracked: OrderedMap<int>, tasks: seq<TaskReply>, n: nat, now: int)
    requires 0 < n <= |tracked.keys| == |tasks|
    ensures var r, r' := SweepTasks(e, tracked, tasks, n - 1, now).engine, SweepTasks(e, tracked, tasks, n, now).engine;
            || r' == r
            || (tasks[n - 1].Ended? && r' == Inject(r, OutcomeObservation(tracked.keys[n - 1], tasks[n - 1], now)))
  {
  }

  /** The sweep only injects: what is queued after it was queued before or is one of its outcomes. */
  lemma {:induction false} SweepQueue(e: EngineState, tracked: OrderedMap<int>, tasks: seq<TaskReply>, n: nat, now: int)
    requires n <= |tracked.keys| == |tasks|
    requires Distinct(e.pending) && Distinct(Outcomes(tracked.keys, tasks, n, now))
    requires Ids(e.pending) !! Ids(Outcomes(tracked.keys, tasks, n, now))
    ensures QueuedFrom(SweepTasks(e, tracked, tasks, n, now).engine.pending, e.pending,
                       Outcomes(tracked.keys, tasks, n, now))
  {
    if n > 0 {
      OutcomesIds(tracked.keys, tasks, n - 1, n, now);
      SweepQueue(e, tracked, tasks, n - 1, now);
      SweepStep(e, tracked, tasks, n, now);
      var made, made' := Outcomes(tracked.keys, tasks, n - 1, now), Outcomes(tracked.keys, tasks, n, now);
      if tasks[n - 1].Ended? {
        SweepOneMore(SweepTasks(e, tracked, tasks, n - 1, now).engine, e.pending, made, tasks[n - 1],
            tracked.keys[n - 1], now,
                     made', SweepTasks(e, tracked, tasks, n, now).engine.pending);
      } else {
        assert made' == made;
      }
    }
  }

  lemma {:induction false} SweepFrame(e: EngineState, tracked: OrderedMap<int>, tasks: seq<TaskReply>, n: nat, now: int)
    requires n <= |tracked.keys| == |tasks| && tracked.Valid()
    ensures var r := SweepTasks(e, tracked, tasks, n, now);
            && r.engine.recentHashes == e.recentHashes && r.engine.history == e.history
                     && r.engine.deferred == e.deferred
            && r.tracked.Valid()
  {
    if n > 0 {
      SweepFrame(e, tracked, tasks, n - 1, now);
      DeleteValid(SweepTasks(e, tracked, tasks, n - 1, now).tracked, tracked.keys[n - 1]);
    }
  }

  // ---------- looking around ----------

  /** The engine a collect starts from: the sweep's outcomes are already queued. */
  ghost function SweptEngine(c: CoreState, env: Surroundings): EngineState
    requires |env.tasks| == |c.tracked.keys|
  {
    Swept(c, env).engine
  }

  /** Whether looking around gets as far as collecting. */
  ghost predicate Collects(c: CoreState, env: Surroundings)
    requires |env.tasks| == |c.tracked.keys|
  {
    Admitted(c, env) && !Swept(c, env).failed
  }

  ghost function Harvested(c: CoreState, env: Surroundings): Harvest
    requires |env.tasks| == |c.tracked.keys|
  {
    Collect(SweptEngine(c, env), env.reports, env.now)
  }

  /** Everything a sweep leaves standing, over the observations registered by then. */
  lemma SweptPlaced(c: CoreState, env: Surroundings, issued: map<string, Observation>, all: map<string, Observation>)
    requires |env.tasks| == |c.tracked.keys| && c.tracked.Valid() && c.engine.deferred.Valid()
    requires Placed(c.engine.pending, c.engine.deferred.items, [], issued)
    requires Distinct(Newcomers(c, env)) && Ids(Newcomers(c, env)) !! issued.Keys
    requires all == Register(issued, Newcomers(c, env), |Newcomers(c, env)|)
    ensures var e := SweptEngine(c, env);
            && e.deferred == c.engine.deferred && e.recentHashes == c.engine.recentHashes
            && Placed(e.pending, e.deferred.items, [], all)
            && Ids(e.pending) !! Ids(Gathered(env.reports))
            && Ids(e.pending) <= Ids(c.engine.pending) + Ids(Newcomers(c, env))
    ensures Swept(c, env).tracked.Valid()
  {
    var outs, reps := Outcomes(c.tracked.keys, env.tasks, |env.tasks|, env.now), Gathered(env.reports);
    var news := Newcomers(c, env);
    ConcatIds(outs, reps);
    ConcatDistinct(outs, reps);
    RegisterAll(issued, news, all);
    IdsExact(c.engine.pending);
    SweepQueue(c.engine, c.tracked, env.tasks, |env.tasks|, env.now);
    SweepFrame(c.engine, c.tracked, env.tasks, |env.tasks|, env.now);
    var e := SweptEngine(c, env);
    forall o | o in e.pending ensures o.id in all && all[o.id] == o {
      assert o in outs ==> o in news;
    }
    IdsExact(news);
    assert c.engine.deferred.items.Keys <= issued.Keys;
  }

  /** What arrives at a collect: the queue, what is due, and the reports, no id twice. */
  lemma {:induction false} ArrivalsDistinct(e: EngineState, reports: seq<Option<seq<Observation>>>, now: int,
      issued: map<string, Observation>, all: seq<Observation>)
    requires e.deferred.Valid() && Placed(e.pending, e.deferred.items, [], issued)
    requires Distinct(Gathered(reports))
    requires Ids(Gathered(reports)) !! Ids(e.pending) && Ids(Gathered(reports)) !! e.deferred.items.Keys
    requires all == Arrivals(e, reports, now)
    ensures Distinct(all)
    ensures Ids(all) == Ids(e.pending) + Ids(Due(e.deferred, now)) + Ids(Gathered(reports))
    ensures ActionableIds(all)
         == ActionableIds(e.pending) + ActionableIds(Due(e.deferred, now)) + ActionableIds(Gathered(reports))
  {
    var due := Due(e.deferred, now);
    DueIds(e.deferred, now);
    ConcatIds(e.pending, due);
    ConcatDistinct(e.pending, due);
    ConcatIds(e.pending + due, Gathered(reports));
    ConcatDistinct(e.pending + due, Gathered(reports));
  }

  lemma CollectPlaced(e: EngineState, reports: seq<Option<seq<Observation>>>, now: int,
      issued: map<string, Observation>, h: Harvest)
    requires e.deferred.Valid() && Placed(e.pending, e.deferred.items, [], issued)
    requires Distinct(Gathered(reports))
    requires Ids(Gathered(reports)) !! Ids(e.pending) && Ids(Gathered(reports)) !! e.deferred.items.Keys
    requires forall o :: o in Gathered(reports) ==> o.id in issued && issued[o.id] == o
    requires h == Collect(e, reports, now)
    ensures h.engine.deferred.Valid()
    ensures Placed(h.engine.pending, h.engine.deferred.items, h.batch, issued)
  {
    var all := Arrivals(e, reports, now);
    ArrivalsDistinct(e, reports, now, issued, all);
    CollectSplits(e, reports, now);
    DrainExact(e.deferred, now);
    DueIds(e.deferred, now);
    forall o | o in h.batch ensures o.id in issued && Scorer.SameButPriority(issued[o.id], o) {
      assert o in all;
      assert o in e.pending || o in Due(e.deferred, now) || o in Gathered(reports);
    }
    assert h.engine.deferred.items.Keys !! Ids(all);
  }

  /** Looking around, as far as it gets: guards, sweep, collect. */
  lemma ObserveShape(core: CoreState, env: Surroundings, t: Turn)
    requires |env.tasks| == |core.tracked.keys| && t == Observe(core, env)
    ensures !Admitted(core, env) ==> t == Done(core)
    ensures Admitted(core, env) ==>
              && t.core.tracked == Swept(core, env).tracked
              && t.core.engine == (if Collects(core, env) then Harvested(core, env).engine else SweptEngine(core, env))
    ensures t.core == core.(engine := t.core.engine, tracked := t.core.tracked, tickInFlight := t.core.tickInFlight)
    ensures Collects(core, env) && Harvested(core, env).batch != [] ==>
              t.phase == Scoring(Harvested(core, env).batch, env.now) && t.core.tickInFlight == core.tickInFlight
    ensures !(Collects(core, env) && Harvested(core, env).batch != []) ==> t.phase == Idle && !t.core.tickInFlight
  {
  }

  lemma {:induction false} ObservePlaced(core: CoreState, env: Surroundings, issued: map<string, Observation>,
      all: map<string, Observation>, t: Turn)
    requires |env.tasks| == |core.tracked.keys| && core.tracked.Valid() && core.engine.deferred.Valid()
    requires Placed(core.engine.pending, core.engine.deferred.items, [], issued)
    requires Distinct(Newcomers(core, env)) && Ids(Newcomers(core, env)) !! issued.Keys
    requires all == Register(issued, Newcomers(core, env), |Newcomers(core, env)|)
    requires t == Observe(core, env)
    ensures t.core.tracked.Valid() && t.core.engine.deferred.Valid()
    ensures Placed(t.core.engine.pending, t.core.engine.deferred.items, Flight(t.phase), all)
  {
    ObserveShape(core, env, t);
    RegisterAll(issued, Newcomers(core, env), all);
    if Admitted(core, env) {
      SweptPlaced(core, env, issued, all);
      if Collects(core, env) {
        HarvestPlaced(core, env, issued, all, Harvested(core, env));
      }
    }
  }

  lemma HarvestPlaced(core: CoreState, env: Surroundings, issued: map<string, Observation>,
      all: map<string, Observation>, h: Harvest)
    requires |env.tasks| == |core.tracked.keys| && core.tracked.Valid() && core.engine.deferred.Valid()
    requires Placed(core.engine.pending, core.engine.deferred.items, [], issued)
    requires Distinct(Newcomers(core, env)) && Ids(Newcomers(core, env)) !! issued.Keys
    requires all == Register(issued, Newcomers(core, env), |Newcomers(core, env)|) && h == Harvested(core, env)
    ensures h.engine.deferred.Valid()
    ensures Placed(h.engine.pending, h.engine.deferred.items, h.batch, all)
  {
    var outs, reps := Outcomes(core.tracked.keys, env.tasks, |env.tasks|, env.now), Gathered(env.reports);
    RegisterAll(issued, Newcomers(core, env), all);
    SweptPlaced(core, env, issued, all);
    ConcatIds(outs, reps);
    ConcatDistinct(outs, reps);
    assert SweptEngine(core, env).deferred.items.Keys <= issued.Keys;
    CollectPlaced(SweptEngine(core, env), env.reports, env.now, all, h);
  }

  lemma ObserveSound(s: System, core: CoreState, env: Surroundings, s': System)
    requires Sound(s) && Flight(s.phase) == [] && Plausible(s, env)
    requires core == s.core.(tickInFlight := true)
    requires s' == Looked(s, core, env)
    ensures Sound(s')
  {
    var t := Observe(core, env);
    ObservePlaced(core, env, s.issued, s'.issued, t);
    ObserveShape(core, env, t);
  }

  // ---------- the rest of the tick ----------

  /** The batch leaves the tick: part of it goes back, the rest is settled. */
  lemma BackPlaced(pending: seq<Observation>, table: Table, batch: seq<Observation>, issued: map<string, Observation>,
      settled: set<string>, back: Table, now: int, table': Table)
    requires Placed(pending, table, batch, issued) && Conserves(batch, settled, back, now)
    requires table' == table + back
    ensures Placed(pending, table', [], issued)
  {
  }

  lemma FailSound(s: System, now: int, t: Turn)
    requires Sound(s) && (s.phase.Scoring? || s.phase.Thinking?) && now >= s.clock
    requires t == Fail(s.core, s.phase.batch, now)
    ensures Sound(s.(core := t.core, phase := t.phase, clock := now))
  {
    var batch := s.phase.batch;
    PutBackTable(s.core.engine, batch, 1, now);
    RequeueAllConserves(batch, 1, now);
    BackPlaced(s.core.engine.pending, s.core.engine.deferred.items, batch, s.issued, {}, Back(batch, |batch|, 1, now),
        now,
               t.core.engine.deferred.items);
  }

  /** Orienting touches no field but these. */
  lemma OrientFrame(c: CoreState, batch: seq<Observation>, scoredAt: int, matches: seq<nat>, now: int, t: Turn)
    requires |batch| == |matches| && t == Orient(c, batch, scoredAt, matches, now)
    ensures t.core == c.(engine := t.core.engine, actions := t.core.actions, overrides := t.core.overrides,
                         lastReasoningMs := t.core.lastReasoningMs, tickInFlight := t.core.tickInFlight)
    ensures t.core.overrides == ExpireThreshold(ExpireBoosts(c.overrides, now), now)
  {
  }

  /** A closed gate ends the tick, and puts back what it keeps. */
  lemma ClosedGate(s: System, e: Event, o: Orientation, kept: seq<Observation>, s': System)
    requires e.Scored? && Enabled(s, e) && s' == Next(s, e)
    requires o == Oriented(s.core, s.phase.batch, s.phase.scoredAt, e.matches, e.now) && !PassesGate(o)
    requires kept == SilencedBy(o, s.phase.batch)
    ensures s'.phase == Idle && !s'.core.tickInFlight && s'.issued == s.issued && s'.clock == e.now
    ensures s'.core.engine == PutBack(s.core.engine, kept, |kept|, 5, e.now)
    ensures s'.core.tracked == s.core.tracked && s'.core.config == s.core.config
  {
  }

  lemma OrientSound(s: System, matches: seq<nat>, now: int)
    requires Sound(s) && Enabled(s, Scored(matches, now))
    ensures Sound(Next(s, Scored(matches, now)))
  {
    var batch := s.phase.batch;
    var o := Oriented(s.core, batch, s.phase.scoredAt, matches, now);
    OrientedIsRanking(s.core, batch, s.phase.scoredAt, matches, now, o);
    if !PassesGate(o) {
      var kept := SilencedBy(o, batch);
      ClosedGate(s, Scored(matches, now), o, kept, Next(s, Scored(matches, now)));
      ClosedGateSound(s, o, kept, now, Next(s, Scored(matches, now)));
    }
  }

  lemma ClosedGateSound(s: System, o: Orientation, kept: seq<Observation>, now: int, s': System)
    requires Sound(s) && s.phase.Scoring? && RankingOf(s.phase.batch, o.ranked) && now >= s.clock
    requires kept == SilencedBy(o, s.phase.batch)
    requires s'.phase == Idle && !s'.core.tickInFlight && s'.issued == s.issued && s'.clock == now
    requires s'.core.engine == PutBack(s.core.engine, kept, |kept|, 5, now) && s'.core.tracked == s.core.tracked
    ensures Sound(s')
  {
    var back := Back(kept, |kept|, 5, now);
    PutBackTable(s.core.engine, kept, 5, now);
    GateConserves(s.phase.batch, o, kept, now, back);
    BackPlaced(s.core.engine.pending, s.core.engine.deferred.items, s.phase.batch, s.issued,
               DroppedIds(s.phase.batch, o), back, now, s'.core.engine.deferred.items);
  }

  lemma RankingHasTop(batch: seq<Observation>, ranked: seq<Observation>)
    requires batch != [] && RankingOf(batch, ranked)
    ensures TopFromBatch(batch, ranked)
  {
    assert ranked[0] in ranked;
  }

  lemma ActFrame(c: CoreState, batch: seq<Observation>, ranked: seq<Observation>, v: Verdict, now: int)
    requires ranked != [] && c.tracked.Valid()
    ensures var t := Act(c, batch, ranked, v, now);
            && t.core.tracked.Valid()
            && t.core.chat == c.chat
            && t.core.config == c.config
            && (v.Spoke? ==> t.phase == Notifying(batch) && t.core.tickInFlight == c.tickInFlight)
            && (!v.Spoke? ==> t.phase == Idle && !t.core.tickInFlight)
  {
    if v.Submitted? {
      SubmitFrame(c, batch, ranked, v, now, AfterSubmit(c, batch, ranked, v, now));
    } else if v.Unreadable? {
      UnreadableFrame(c, batch, v.warning, now, UnreadableRound(c, batch, v.warning, now));
    }
  }

  lemma SubmitFrame(c: CoreState, batch: seq<Observation>, ranked: seq<Observation>, v: Verdict, now: int,
      c': CoreState)
    requires ranked != [] && v.Submitted? && c.tracked.Valid() && c' == AfterSubmit(c, batch, ranked, v, now)
    ensures c'.tracked.Valid() && c'.chat == c.chat && c'.config == c.config
  {
    SetValid(c.tracked, v.task, now);
  }

  lemma UnreadableFrame(c: CoreState, batch: seq<Observation>, warning: string, now: int, c': CoreState)
    requires c' == UnreadableRound(c, batch, warning, now)
    ensures c'.tracked == c.tracked && c'.chat == c.chat && c'.config == c.config
  {
  }

  lemma ActPlaced(c: CoreState, batch: seq<Observation>, ranked: seq<Observation>, v: Verdict, now: int,
      issued: map<string, Observation>, t: Turn)
    requires Placed(c.engine.pending, c.engine.deferred.items, batch, issued) && c.engine.deferred.Valid()
             && c.tracked.Valid()
    requires batch != [] && RankingOf(batch, ranked) && (v.PutOff? ==> v.minutes >= 1)
    requires t == Act(c, batch, ranked, v, now)
    ensures t.core.engine.deferred.Valid()
    ensures Placed(t.core.engine.pending, t.core.engine.deferred.items, Flight(t.phase), issued)
  {
    RankingHasTop(batch, ranked);
    ActTable(c, batch, ranked, v, now);
    ActFrame(c, batch, ranked, v, now);
    if !v.Spoke? {
      var back := ActBack(c.unparsedRounds, batch, ranked, v, now);
      EndedActConserves(c.unparsedRounds, batch, ranked, v, now);
      BackPlaced(c.engine.pending, c.engine.deferred.items, batch, issued, SettledIds(batch, v), back, now,
                 t.core.engine.deferred.items);
    } else {
      assert t.core.engine.deferred.items == c.engine.deferred.items;
    }
  }

  lemma ActSound(s: System, e: Event)
    requires Sound(s) && e.Replied? && Enabled(s, e)
    ensures Sound(Next(s, e))
  {
    var batch, ranked := s.phase.batch, s.phase.ranked;
    var v := Judge(e.d, ranked, e.foreground, e.submit);
    ActPlaced(s.core, batch, ranked, v, e.now, s.issued, Act(s.core, batch, ranked, v, e.now));
    ActFrame(s.core, batch, ranked, v, e.now);
  }

  /** Nothing moved and the phase is in order: the state is as sound as it was. */
  lemma SoundKept(s: System, s': System)
    requires Sound(s) && s'.core.engine == s.core.engine && s'.core.tracked == s.core.tracked
    requires Flight(s'.phase) == Flight(s.phase) && s'.issued == s.issued && s'.clock >= s.clock
    requires PhaseSound(s'.core, s'.phase, s'.clock)
    ensures Sound(s')
  {
  }

  lemma QuietSound(s: System, e: Event)
    requires Sound(s) && Enabled(s, e) && !LooksAround(s, e) && (e.UserActive? || e.TickCalled? || e.Delivered?)
    ensures Sound(Next(s, e))
  {
    var s' := Next(s, e);
    if e.UserActive? {
      assert PhaseSound(s'.core, s'.phase, s'.clock);
    } else if e.TickCalled? {
      assert PhaseSound(s'.core, s'.phase, s'.clock);
    } else {
      assert PhaseSound(s'.core, s'.phase, s'.clock);
    }
    SoundKept(s, s');
  }

  lemma LookSound(s: System, e: Event)
    requires Sound(s) && Enabled(s, e) && LooksAround(s, e)
    ensures Sound(Next(s, e))
  {
    ObserveSound(s, s.core.(tickInFlight := true), e.env, Next(s, e));
  }

  lemma InjectSound(s: System, o: Observation)
    requires Sound(s) && Enabled(s, Injected(o))
    ensures Sound(Next(s, Injected(o)))
  {
    InjectPlaced(s.core.engine, o, Flight(s.phase), s.issued, Inject(s.core.engine, o).pending, s.issued[o.id := o]);
  }

  lemma NextSound(s: System, e: Event)
    requires Sound(s) && Enabled(s, e)
    ensures Sound(Next(s, e))
  {
    if LooksAround(s, e) {
      LookSound(s, e);
    } else if e.UserActive? || e.TickCalled? || e.Delivered? {
      QuietSound(s, e);
    } else {
      match e
      case Injected(o) => InjectSound(s, o);
      case Scored(matches, now) => OrientSound(s, matches, now);
      case ScoringFailed(now) => FailSound(s, now, Fail(s.core, s.phase.batch, now));
      case Replied(_, _, _, _) => ActSound(s, e);
      case ReplyFailed(now) => FailSound(s, now, Fail(s.core, s.phase.batch, now));
      case MessageSent => SentSound(s);
    }
  }

  lemma SentSound(s: System)
    requires Sound(s) && Enabled(s, MessageSent)
    ensures Sound(Next(s, MessageSent))
  {
  }

  /** Over any run: no observation is ever in two places, and the in-flight flag says exactly whether
      a tick body is waiting somewhere. */
  lemma {:induction false} AlwaysSound(config: Config, t0: int, run: Run)
    requires t0 > 0 && Legal(config, t0, run)
    ensures Sound(After(config, t0, run))
  {
    if run == [] {
      StartSound(config, t0);
    } else {
      AlwaysSound(config, t0, run[..|run| - 1]);
      NextSound(After(config, t0, run[..|run| - 1]), run[|run| - 1]);
    }
  }
}
