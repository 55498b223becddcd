/** `AgentCore`: the state of the observe, orient, decide, act step, and what each stretch of a tick
    between two awaits does to it. */
module Core {
  import opened Observations
  import opened OrderedMaps
  import opened Decisions
  import opened Engine
  import Scorer
  import StableSort

  const FOREGROUND_DECISION_DEFER_MINUTES: nat := 5
  const UNACTED_BATCH_RECHECK_MINUTES: nat := 1
  const MAX_UNPARSED_ROUNDS: nat := 3
  const UNPARSED_COOLDOWN_MINUTES: nat := 60
  const UNPARSED_TABLE_LIMIT: nat := 500
  const LLM_PRIORITY_THRESHOLD_CEILING: nat := 80
  const PRIORITY_THRESHOLD_OVERRIDE_TTL_MS: nat := 30 * 60_000
  const BELOW_THRESHOLD_RECHECK_MINUTES: nat := 5
  const MAX_HELD_FOR_OPERATOR: nat := 10
  const TRACKED_TASK_TTL_MS: nat := 7 * 24 * 60 * 60 * 1000

  datatype Config = Config(minObservationPriority: int, minReasoningIntervalMs: int, budgetFloorPct: real)

  datatype Overrides = Overrides(
    threshold: Option<int>, thresholdExpiresAt: Option<int>,
    boosts: map<string, int>, boostExpiresAt: map<string, int>,
    intervalMs: Option<int>)

  /** `tracked` is the map of submitted tasks still followed up, with the time each was submitted. */
  datatype CoreState = CoreState(
    config: Config,
    engine: EngineState,
    actions: Scorer.ActionTable,
    tickInFlight: bool,
    lastReasoningMs: int,
    unparsedRounds: map<string, nat>,
    unparsedReported: bool,
    chat: Option<string>,
    held: seq<string>,
    tracked: OrderedMap<int>,
    overrides: Overrides)

  /** What a tick is waiting for, with the locals it will need when it resumes. */
  datatype Phase =
    | Idle
    | Delivering(rest: seq<string>)
    | Scoring(batch: seq<Observation>, scoredAt: int)
    | Thinking(batch: seq<Observation>, ranked: seq<Observation>)
    | Notifying(batch: seq<Observation>)

  datatype Turn = Turn(core: CoreState, phase: Phase)

  /** However a tick ends, the in-flight flag comes down. */
  function Done(c: CoreState): Turn {
    Turn(c.(tickInFlight := false), Idle)
  }

  function NewCore(config: Config, now: int): CoreState {
    CoreState(config, NEW_ENGINE, map[], false, now, map[], false, None, [], OrderedMap([], map[]),
              Overrides(None, None, map[], map[], None))
  }

  // ---------- putting observations back ----------

  /** `requeueUnacted`: the actionable ones among the first n are deferred, in order. */
  function PutBack(e: EngineState, batch: seq<Observation>, n: nat, minutes: int, now: int): EngineState
    requires n <= |batch|
  {
    if n == 0 then e
    else
      var r := PutBack(e, batch, n - 1, minutes, now);
      if batch[n - 1].actionable then Engine.Defer(r, batch[n - 1], minutes, now) else r
  }

  function Requeue(c: CoreState, batch: seq<Observation>, minutes: int, now: int): CoreState {
    c.(engine := PutBack(c.engine, batch, |batch|, minutes, now))
  }

  // ---------- the operator's mailbox ----------

  function HoldText(held: seq<string>, text: string): seq<string> {
    (if |held| >= MAX_HELD_FOR_OPERATOR then held[1..] else held) + [text]
  }

  /** `sendToOperator`: sent when a chat is known (whether or not the channel delivers it), held
      otherwise. */
  function Speak(c: CoreState, text: string): CoreState {
    if c.chat.None? then c.(held := HoldText(c.held, text)) else c
  }

  function UserActivity(c: CoreState, chat: Option<string>): CoreState {
    if Given(chat) then c.(chat := chat) else c
  }

  // ---------- maintenance: finished tasks become observations ----------

  datatype TaskReply =
    | Missing
    | Running
    | Ended(success: bool, title: Option<string>, uuid: string)
    | StatusThrows

  function OutcomeObservation(taskId: string, r: TaskReply, now: int): Observation
    requires r.Ended?
  {
    Observation(
      r.uuid, TaskOutcome, if r.success then 40 else 70,
      "Agent task " + (if r.success then "succeeded" else "failed") + ": "
      + (if r.title.Some? then r.title.value else taskId),
      now, true)
  }

  datatype Sweep = Sweep(engine: EngineState, tracked: OrderedMap<int>, failed: bool)

  predicate Stale(tracked: OrderedMap<int>, taskId: string, now: int) {
    taskId in tracked.items && now - tracked.items[taskId] > TRACKED_TASK_TTL_MS
  }

  /** `checkCompletedTasks` after its first n entries; a status lookup that throws ends the loop. */
  function SweepTasks(e: EngineState, tracked: OrderedMap<int>, tasks: seq<TaskReply>, n: nat, now: int): Sweep
    requires n <= |tracked.keys| == |tasks|
  {
    if n == 0 then Sweep(e, tracked, false)
    else
      var r := SweepTasks(e, tracked, tasks, n - 1, now);
      var taskId := tracked.keys[n - 1];
      if r.failed then r
      else if Stale(tracked, taskId, now) then r.(tracked := r.tracked.Delete(taskId))
      else match tasks[n - 1]
        case Missing | Running => r
        case StatusThrows => r.(failed := true)
        case Ended(_, _, _) =>
          Sweep(Inject(r.engine, OutcomeObservation(taskId, tasks[n - 1], now)), r.tracked.Delete(taskId), false)
  }

  // ---------- observe ----------

  /** What a tick finds when it looks around. `budgetPct` is None when reading the budget throws; a
      report is None when that observer throws. */
  datatype Surroundings = Surroundings(
    now: int, coolingDown: bool, budgetPct: Option<real>,
    tasks: seq<TaskReply>, reports: seq<Option<seq<Observation>>>)

  function IntervalMs(c: CoreState): int {
    if c.overrides.intervalMs.Some? then c.overrides.intervalMs.value else c.config.minReasoningIntervalMs
  }

  /** The guards a tick passes before it touches anything. */
  predicate Admitted(c: CoreState, env: Surroundings) {
    && env.now - c.lastReasoningMs >= IntervalMs(c)
    && !env.coolingDown
    && env.budgetPct.Some?
    && env.budgetPct.value < 1.0 - c.config.budgetFloorPct / 100.0
  }

  function Swept(c: CoreState, env: Surroundings): Sweep
    requires |env.tasks| == |c.tracked.keys|
  {
    SweepTasks(c.engine, c.tracked, env.tasks, |env.tasks|, env.now)
  }

  function Observe(c: CoreState, env: Surroundings): Turn
    requires |env.tasks| == |c.tracked.keys|
  {
    if !Admitted(c, env) then Done(c)
    else
      var sweep := Swept(c, env);
      if sweep.failed then Done(c.(engine := sweep.engine, tracked := sweep.tracked))
      else
        var harvest := Collect(sweep.engine, env.reports, env.now);
        var c' := c.(engine := harvest.engine, tracked := sweep.tracked);
        if harvest.batch == [] then Done(c') else Turn(c', Scoring(harvest.batch, env.now))
  }

  /** `tick` up to its first await: with messages held and a chat known it first delivers them, unless
      the user is in the middle of a task of their own. */
  function StartTick(c: CoreState, foreground: int, env: Surroundings): Turn
    requires |env.tasks| == |c.tracked.keys|
  {
    var c' := c.(tickInFlight := true);
    if c.held != [] && c.chat.Some? then
      if foreground > 0 then Turn(c', Delivering([])) else Turn(c'.(held := []), Delivering(c.held[1..]))
    else Observe(c', env)
  }

  /** A held message has gone out: the next one follows, and after the last the tick goes on. */
  function ContinueDelivery(c: CoreState, rest: seq<string>, env: Surroundings): Turn
    requires |env.tasks| == |c.tracked.keys|
  {
    if rest != [] then Turn(Speak(c, rest[0]), Delivering(rest[1..])) else Observe(c, env)
  }

  // ---------- orient ----------

  function ExpireBoosts(o: Overrides, now: int): Overrides {
    o.(boosts := map s | s in o.boosts && !(s in o.boostExpiresAt && now >= o.boostExpiresAt[s]) :: o.boosts[s],
       boostExpiresAt := map s | s in o.boostExpiresAt && now < o.boostExpiresAt[s] :: o.boostExpiresAt[s])
  }

  function Boost(o: Observation, boosts: map<string, int>): Observation {
    var s := o.source.Name();
    if s in boosts && boosts[s] != 0 then o.(priority := Scorer.Clamp(o.priority + boosts[s])) else o
  }

  function BoostEach(s: seq<Observation>, n: nat, boosts: map<string, int>): (r: seq<Observation>)
    requires n <= |s|
    ensures |r| == n
  {
    if n == 0 then [] else BoostEach(s, n - 1, boosts) + [Boost(s[n - 1], boosts)]
  }

  function Boosted(ranked: seq<Observation>, boosts: map<string, int>): seq<Observation> {
    var each := BoostEach(ranked, |ranked|, boosts);
    if |boosts| > 0 then StableSort.Sort(each) else each
  }

  function ExpireThreshold(o: Overrides, now: int): Overrides {
    if o.threshold.Some? && o.thresholdExpiresAt.Some? && now >= o.thresholdExpiresAt.value
    then o.(threshold := None, thresholdExpiresAt := None)
    else o
  }

  /** The gate's threshold once a lapsed override has been dropped. */
  function Threshold(c: CoreState): int {
    if c.overrides.threshold.Some? then c.overrides.threshold.value else c.config.minObservationPriority
  }

  function PrioritiesUpTo(s: seq<Observation>, n: nat): map<string, int>
    requires n <= |s|
  {
    if n == 0 then map[] else PrioritiesUpTo(s, n - 1)[s[n - 1].id := s[n - 1].priority]
  }

  function ById(s: seq<Observation>, n: nat): map<string, Observation>
    requires n <= |s|
  {
    if n == 0 then map[] else ById(s, n - 1)[s[n - 1].id := s[n - 1]]
  }

  function Max(a: int, b: int): int { if a >= b then a else b }

  /** Of the first n ranked observations, those an override silenced (boosted or not, they reach the
      configured minimum), as they were collected. */
  function Silenced(ranked: seq<Observation>, n: nat, unboosted: map<string, int>, collected: map<string, Observation>,
      minimum: int): seq<Observation>
    requires n <= |ranked|
  {
    if n == 0 then []
    else
      var o := ranked[n - 1];
      var before := if o.id in unboosted then unboosted[o.id] else o.priority;
      Silenced(ranked, n - 1, unboosted, collected, minimum)
      + (if Max(o.priority, before) >= minimum then [if o.id in collected then collected[o.id] else o] else [])
  }

  /** The batch as the gate sees it, and the state after the lapsed overrides were swept. */
  datatype Orientation = Orientation(scored: seq<Observation>, ranked: seq<Observation>, core: CoreState)

  function Oriented(c: CoreState, batch: seq<Observation>, scoredAt: int, matches: seq<nat>, now: int): Orientation
    requires |batch| == |matches|
  {
    var actions := Scorer.Pruned(c.actions, scoredAt);
    var scored := Scorer.Ranked(batch, matches, actions, scoredAt);
    var overrides := ExpireBoosts(c.overrides, now);
    Orientation(scored, Boosted(scored, overrides.boosts),
                c.(actions := actions, overrides := ExpireThreshold(overrides, now)))
  }

  predicate PassesGate(o: Orientation) {
    o.ranked != [] && o.ranked[0].priority >= Threshold(o.core)
  }

  /** What a closed gate puts back. */
  function SilencedBy(o: Orientation, batch: seq<Observation>): seq<Observation> {
    Silenced(o.ranked, |o.ranked|, PrioritiesUpTo(o.scored, |o.scored|), ById(batch, |batch|),
             o.core.config.minObservationPriority)
  }

  function Orient(c: CoreState, batch: seq<Observation>, scoredAt: int, matches: seq<nat>, now: int): Turn
    requires |batch| == |matches|
  {
    var o := Oriented(c, batch, scoredAt, matches, now);
    if PassesGate(o) then Turn(o.core.(lastReasoningMs := now), Thinking(batch, o.ranked))
    else Done(Requeue(o.core, SilencedBy(o, batch), BELOW_THRESHOLD_RECHECK_MINUTES, now))
  }

  // ---------- decide and act ----------

  datatype Charge = Charge(rounds: map<string, nat>, exhausted: bool)

  function ChargeUpTo(rounds: map<string, nat>, batch: seq<Observation>, n: nat): Charge
    requires n <= |batch|
  {
    if n == 0 then Charge(rounds, false)
    else
      var r := ChargeUpTo(rounds, batch, n - 1);
      var id := batch[n - 1].id;
      var spent := (if id in r.rounds then r.rounds[id] else 0) + 1;
      Charge(r.rounds[id := spent], r.exhausted || spent >= MAX_UNPARSED_ROUNDS)
  }

  /** `chargeUnparsed`: the table is forgotten altogether once it holds more than 500 ids. */
  function ChargeUnparsed(rounds: map<string, nat>, batch: seq<Observation>): Charge {
    var r := ChargeUpTo(rounds, batch, |batch|);
    if |r.rounds| > UNPARSED_TABLE_LIMIT then r.(rounds := map[]) else r
  }

  function ClearRounds(c: CoreState, batch: seq<Observation>): CoreState {
    c.(unparsedRounds := c.unparsedRounds - Ids(batch))
  }

  function RecordEach(actions: Scorer.ActionTable, s: seq<Observation>, n: nat, now: int): Scorer.ActionTable
    requires n <= |s|
  {
    if n == 0 then actions else Scorer.RecordAction(RecordEach(actions, s, n - 1, now), s[n - 1], now)
  }

  function ApplyAdjustments(o: Overrides, a: Adjustments, now: int): Overrides {
    var expiry := now + PRIORITY_THRESHOLD_OVERRIDE_TTL_MS;
    var o1 := if a.priorityThreshold.Some? then
                var requested := a.priorityThreshold.value;
                o.(threshold := Some(if requested < LLM_PRIORITY_THRESHOLD_CEILING then requested
                                     else LLM_PRIORITY_THRESHOLD_CEILING),
                   thresholdExpiresAt := Some(expiry))
              else o;
    var o2 := if a.sourceBoost.Some? then
                o1.(boosts := o1.boosts[a.sourceBoost.value.source := a.sourceBoost.value.delta],
                    boostExpiresAt := o1.boostExpiresAt[a.sourceBoost.value.source := expiry])
              else o1;
    if a.reasoningIntervalMs.Some? then o2.(intervalMs := a.reasoningIntervalMs) else o2
  }

  /** The charged round: the batch goes back, for an hour once one of it has spent its patience. */
  function ChargeRound(c: CoreState, batch: seq<Observation>, now: int): CoreState {
    var charge := ChargeUnparsed(c.unparsedRounds, batch);
    Requeue(c.(unparsedRounds := charge.rounds), batch,
            if charge.exhausted then UNPARSED_COOLDOWN_MINUTES else UNACTED_BATCH_RECHECK_MINUTES, now)
  }

  /** An unreadable reply is charged, and said out loud once. */
  function UnreadableRound(c: CoreState, batch: seq<Observation>, warning: string, now: int): CoreState {
    var c' := ChargeRound(c, batch, now);
    if ChargeUnparsed(c.unparsedRounds, batch).exhausted && !c.unparsedReported
    then Speak(c'.(unparsedReported := true), warning)
    else c'
  }

  /** The goal is tracked, what it answers is recorded as acted on, and the rest of the batch goes
      back. An "execute" also records the top observation, answered or not. */
  function AfterSubmit(c: CoreState, batch: seq<Observation>, ranked: seq<Observation>, v: Verdict, now: int): CoreState
    requires v.Submitted? && ranked != []
  {
    var recorded := RecordEach(c.actions, v.credited, |v.credited|, now);
    var actions := if v.recordTop && ranked[0].id !in Ids(v.credited)
                   then Scorer.RecordAction(recorded, ranked[0], now) else recorded;
    var c' := c.(tracked := c.tracked.Set(v.task, now), actions := actions);
    Requeue(ClearRounds(c', batch), Outside(batch, Ids(v.credited)), UNACTED_BATCH_RECHECK_MINUTES, now)
  }

  /** The top observation is put off (as scored, informational or not); the rest of the batch goes
      back for its own time (as collected). */
  function PutOffTop(c: CoreState, batch: seq<Observation>, ranked: seq<Observation>, topMinutes: int,
      restMinutes: int, now: int): CoreState
    requires ranked != []
  {
    var c' := c.(engine := Engine.Defer(c.engine, ranked[0], topMinutes, now));
    Requeue(ClearRounds(c', batch), Outside(batch, {ranked[0].id}), restMinutes, now)
  }

  /** What is said to the operator on the way. */
  function Says(c: CoreState, batch: seq<Observation>, v: Verdict): seq<string> {
    match v
    case Spoke(text) => [text]
    case Unreadable(warning) =>
      if ChargeUnparsed(c.unparsedRounds, batch).exhausted && !c.unparsedReported then [warning] else []
    case _ => []
  }

  /** Everything from the reply to the end of the tick, or to the await of a fresh message. */
  function Act(c: CoreState, batch: seq<Observation>, ranked: seq<Observation>, v: Verdict, now: int): Turn
    requires ranked != []
  {
    match v
    case Unusable => Done(ChargeRound(c, batch, now))
    case Unreadable(warning) => Done(UnreadableRound(c, batch, warning, now))
    case Refused(_) => Done(Requeue(ClearRounds(c, batch), batch, UNACTED_BATCH_RECHECK_MINUTES, now))
    case SubmitFailed => Done(Requeue(c, batch, UNACTED_BATCH_RECHECK_MINUTES, now))
    case Submitted(_, _, _) => Done(AfterSubmit(c, batch, ranked, v, now))
    case Postponed =>
      Done(PutOffTop(c, batch, ranked, FOREGROUND_DECISION_DEFER_MINUTES, FOREGROUND_DECISION_DEFER_MINUTES, now))
    case PutOff(minutes) => Done(PutOffTop(c, batch, ranked, minutes, UNACTED_BATCH_RECHECK_MINUTES, now))
    case Spoke(text) => Turn(Speak(c, text), Notifying(batch))
    case Adjusted(a) => Done(ClearRounds(c.(overrides := ApplyAdjustments(c.overrides, a, now)), batch))
    case Waited => Done(ClearRounds(c, batch))
  }

  /** A throw after `collect` and before any arm consumed the batch. */
  function Fail(c: CoreState, batch: seq<Observation>, now: int): Turn {
    Done(Requeue(c, batch, UNACTED_BATCH_RECHECK_MINUTES, now))
  }

  /** A fresh message has gone out. */
  function Notified(c: CoreState, batch: seq<Observation>): Turn {
    Done(ClearRounds(c, batch))
  }
}
