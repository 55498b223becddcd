/** The mutable `AgentCore`. Each method is one stretch of `tick` between two awaits, or one of the
    private methods it calls, proved against its step in module Core. What the tick waits for comes
    back as a `Phase`; what the world answers comes in as a parameter. */
module CoreObject {
  import opened Observations
  import opened OrderedMaps
  import opened Decisions
  import opened Core
  import Engine
  import EngineObject
  import Inventory
  import Scorer
  import ScorerObject
  import StableSort

  class AgentCore {
    const config: Config
    const engine: EngineObject.ObservationEngine
    const scorer: ScorerObject.PriorityScorer
    var tickInFlight: bool
    var lastReasoningMs: int
    var unparsedRounds: map<string, nat>
    var unparsedReported: bool
    var operatorChatId: Option<string>
    var heldForOperator: seq<string>
    var trackedTasks: OrderedMap<int>
    var runtimeOverrides: Overrides

    ghost function State(): CoreState
      reads this, engine, scorer
    {
      CoreState(config, engine.State(), scorer.recentActionHashes, tickInFlight, lastReasoningMs, unparsedRounds,
                unparsedReported, operatorChatId, heldForOperator, trackedTasks, runtimeOverrides)
    }

    ghost predicate Valid()
      reads this, engine
    {
      engine.Valid() && trackedTasks.Valid()
    }

    constructor (config: Config, now: int)
      ensures fresh(engine) && fresh(scorer)
      ensures Valid() && State() == NewCore(config, now)
    {
      this.config := config;
      engine := new EngineObject.ObservationEngine();
      scorer := new ScorerObject.PriorityScorer();
      tickInFlight, lastReasoningMs := false, now;
      unparsedRounds, unparsedReported := map[], false;
      operatorChatId, heldForOperator := None, [];
      trackedTasks := OrderedMap([], map[]);
      runtimeOverrides := Overrides(None, None, map[], map[], None);
    }

    // ---------- the operator ----------

    method OnUserActivity(chatId: Option<string>)
      modifies this`operatorChatId
      ensures State() == UserActivity(old(State()), chatId)
    {
      if chatId.Some? && chatId.value != "" {
        operatorChatId := chatId;
      }
    }

    /** `sent` says whether the text went to the channel; the channel's own failure is swallowed. */
    method SendToOperator(text: string) returns (sent: bool)
      modifies this`heldForOperator
      ensures State() == Speak(old(State()), text)
      ensures sent <==> operatorChatId.Some?
    {
      if operatorChatId.None? {
        if |heldForOperator| >= MAX_HELD_FOR_OPERATOR {
          heldForOperator := heldForOperator[1..];
        }
        heldForOperator := heldForOperator + [text];
        return false;
      }
      return true;
    }

    // ---------- putting observations back ----------

    method RequeueUnacted(batch: seq<Observation>, recheckMinutes: int, now: int)
      requires Valid()
      modifies engine
      ensures Valid()
      ensures engine.State() == PutBack(old(engine.State()), batch, |batch|, recheckMinutes, now)
    {
      var i := 0;
      while i < |batch|
        invariant 0 <= i <= |batch| && Valid()
        invariant engine.State() == PutBack(old(engine.State()), batch, i, recheckMinutes, now)
      {
        if batch[i].actionable {
          engine.Defer(batch[i], recheckMinutes, now);
        }
        i := i + 1;
      }
    }

    method ChargeUnparsed(batch: seq<Observation>) returns (exhausted: bool)
      modifies this`unparsedRounds
      ensures Charge(unparsedRounds, exhausted) == Core.ChargeUnparsed(old(unparsedRounds), batch)
    {
      exhausted := false;
      var i := 0;
      while i < |batch|
        invariant 0 <= i <= |batch|
        invariant Charge(unparsedRounds, exhausted) == ChargeUpTo(old(unparsedRounds), batch, i)
      {
        var spent := (if batch[i].id in unparsedRounds then unparsedRounds[batch[i].id] else 0) + 1;
        unparsedRounds := unparsedRounds[batch[i].id := spent];
        if spent >= MAX_UNPARSED_ROUNDS {
          exhausted := true;
        }
        i := i + 1;
      }
      if |unparsedRounds| > UNPARSED_TABLE_LIMIT {
        unparsedRounds := map[];
      }
    }

    /** Put off the top observation, unless the user is not busy. */
    method DeferHumanVisibleDecision(top: Observation, activeForegroundTaskCount: int, now: int) returns (put: bool)
      requires Valid()
      modifies engine
      ensures Valid()
      ensures put <==> activeForegroundTaskCount > 0
      ensures engine.State() ==
              if put then Engine.Defer(old(engine.State()), top, FOREGROUND_DECISION_DEFER_MINUTES, now)
                                else old(engine.State())
    {
      if activeForegroundTaskCount <= 0 {
        return false;
      }
      engine.Defer(top, FOREGROUND_DECISION_DEFER_MINUTES, now);
      return true;
    }

    // ---------- runtime overrides ----------

    method ExpireSourceBoosts(now: int)
      modifies this`runtimeOverrides
      ensures runtimeOverrides == ExpireBoosts(old(runtimeOverrides), now)
    {
      var o := runtimeOverrides;
      var boosts, expiries := o.boosts, o.boostExpiresAt;
      var todo := o.boostExpiresAt.Keys;
      while todo != {}
        invariant todo <= o.boostExpiresAt.Keys
        invariant forall s :: s in boosts <==>
                    s in o.boosts && !(s in o.boostExpiresAt && s !in todo && now >= o.boostExpiresAt[s])
        invariant forall s :: s in boosts ==> boosts[s] == o.boosts[s]
        invariant forall s :: s in expiries <==> s in o.boostExpiresAt && (s in todo || now < o.boostExpiresAt[s])
        invariant forall s :: s in expiries ==> expiries[s] == o.boostExpiresAt[s]
        decreases todo
      {
        var s :| s in todo;
        if now >= o.boostExpiresAt[s] {
          boosts, expiries := boosts - {s}, expiries - {s};
        }
        todo := todo - {s};
      }
      runtimeOverrides := o.(boosts := boosts, boostExpiresAt := expiries);
    }

    method EffectivePriorityThreshold(now: int) returns (threshold: int)
      modifies this`runtimeOverrides
      ensures runtimeOverrides == ExpireThreshold(old(runtimeOverrides), now)
      ensures threshold == Threshold(State())
    {
      if runtimeOverrides.threshold.None? {
        return config.minObservationPriority;
      }
      if runtimeOverrides.thresholdExpiresAt.Some? && now >= runtimeOverrides.thresholdExpiresAt.value {
        runtimeOverrides := runtimeOverrides.(threshold := None, thresholdExpiresAt := None);
        return config.minObservationPriority;
      }
      return runtimeOverrides.threshold.value;
    }

    // ---------- tick: start, deliver, observe ----------

    method CheckCompletedTasks(tasks: seq<TaskReply>, now: int) returns (failed: bool)
      requires Valid() && |tasks| == |trackedTasks.keys|
      modifies engine, this`trackedTasks
      ensures Valid()
      ensures Sweep(engine.State(), trackedTasks, failed)
              == SweepTasks(old(engine.State()), old(trackedTasks), tasks, |tasks|, now)
    {
      ghost var e0, t0 := engine.State(), trackedTasks;
      var entries := trackedTasks;
      var i := 0;
      while i < |entries.keys|
        invariant 0 <= i <= |entries.keys| && Valid()
        invariant Sweep(engine.State(), trackedTasks, false) == SweepTasks(e0, t0, tasks, i, now)
      {
        var taskId := entries.keys[i];
        if Stale(entries, taskId, now) {
          DeleteValid(trackedTasks, taskId);
          trackedTasks := trackedTasks.Delete(taskId);
        } else if tasks[i].StatusThrows? {
          SweepStays(e0, t0, tasks, i + 1, now);
          return true;
        } else if tasks[i].Ended? {
          engine.Inject(OutcomeObservation(taskId, tasks[i], now));
          DeleteValid(trackedTasks, taskId);
          trackedTasks := trackedTasks.Delete(taskId);
        }
        i := i + 1;
      }
      failed := false;
    }

    /** The tick from its guards to the await inside `scoreAll`. */
    method TickObserve(env: Surroundings) returns (phase: Phase)
      requires Valid() && |env.tasks| == |trackedTasks.keys|
      modifies this, engine
      ensures Valid()
      ensures Turn(State(), phase) == Observe(old(State()), env)
    {
      var effectiveIntervalMs :=
        if runtimeOverrides.intervalMs.Some? then runtimeOverrides.intervalMs.value else config.minReasoningIntervalMs;
      if env.now - lastReasoningMs < effectiveIntervalMs || env.coolingDown || env.budgetPct.None?
         || env.budgetPct.value >= 1.0 - config.budgetFloorPct / 100.0 {
        tickInFlight := false;
        return Idle;
      }
      var failed := CheckCompletedTasks(env.tasks, env.now);
      if failed {
        tickInFlight := false;
        return Idle;
      }
      var batch := engine.Collect(env.reports, env.now);
      if batch == [] {
        tickInFlight := false;
        return Idle;
      }
      return Scoring(batch, env.now);
    }

    /** `tick()` up to its first await. A call while a tick is in flight does nothing. `sent` is the
        held text handed to the channel, if any. */
    method TickStart(foreground: int, env: Surroundings) returns (phase: Phase, sent: seq<string>)
      requires Valid() && (!tickInFlight ==> |env.tasks| == |trackedTasks.keys|)
      modifies this, engine
      ensures Valid()
      ensures old(tickInFlight) ==> State() == old(State()) && phase == Idle && sent == []
      ensures !old(tickInFlight) ==> Turn(State(), phase) == StartTick(old(State()), foreground, env)
      ensures !old(tickInFlight) ==>
                sent == if old(heldForOperator) != [] && operatorChatId.Some? && foreground <= 0
                        then [old(heldForOperator)[0]] else []
    {
      sent := [];
      if tickInFlight {
        return Idle, [];
      }
      tickInFlight := true;
      if heldForOperator != [] && operatorChatId.Some? {
        if foreground > 0 {
          return Delivering([]), [];
        }
        var texts := heldForOperator;
        heldForOperator := [];
        var attempted := SendToOperator(texts[0]);
        return Delivering(texts[1..]), texts[..1];
      }
      phase := TickObserve(env);
    }

    method TickDelivered(rest: seq<string>, env: Surroundings) returns (phase: Phase, sent: seq<string>)
      requires Valid() && |env.tasks| == |trackedTasks.keys|
      modifies this, engine
      ensures Valid()
      ensures Turn(State(), phase) == ContinueDelivery(old(State()), rest, env)
      ensures sent == if rest != [] && operatorChatId.Some? then [rest[0]] else []
    {
      if rest != [] {
        var attempted := SendToOperator(rest[0]);
        return Delivering(rest[1..]), if attempted then [rest[0]] else [];
      }
      phase := TickObserve(env);
      sent := [];
    }

    // ---------- tick: orient ----------

    method Unboosted(ranked: seq<Observation>) returns (m: map<string, int>)
      ensures m == PrioritiesUpTo(ranked, |ranked|)
    {
      m := map[];
      var i := 0;
      while i < |ranked|
        invariant 0 <= i <= |ranked| && m == PrioritiesUpTo(ranked, i)
      {
        m := m[ranked[i].id := ranked[i].priority];
        i := i + 1;
      }
    }

    /** The boosts are written into the scored copies where they stand. */
    method BoostInPlace(scored: seq<Observation>) returns (ranked: seq<Observation>)
      ensures ranked == Boosted(scored, runtimeOverrides.boosts)
    {
      ranked := scored;
      var i := 0;
      while i < |ranked|
        invariant 0 <= i <= |ranked| == |scored|
        invariant ranked[..i] == BoostEach(scored, i, runtimeOverrides.boosts)
        invariant ranked[i..] == scored[i..]
      {
        var s := ranked[i].source.Name();
        assert ranked[i] == ranked[i..][0] == scored[i..][0];
        ghost var was := ranked;
        if s in runtimeOverrides.boosts && runtimeOverrides.boosts[s] != 0 {
          ranked := ranked[i := ranked[i].(priority := Scorer.Clamp(ranked[i].priority + runtimeOverrides.boosts[s]))];
        }
        assert ranked[..i] == was[..i];
        assert ranked[..i + 1] == ranked[..i] + [ranked[i]];
        assert ranked[i + 1..] == was[i..][1..];
        i := i + 1;
      }
      assert ranked[..|ranked|] == ranked;
      if |runtimeOverrides.boosts| > 0 {
        ranked := StableSort.Sort(ranked);
      }
    }

    method SilencedByOverride(ranked: seq<Observation>, unboosted: map<string, int>, batch: seq<Observation>)
      returns (silenced: seq<Observation>)
      ensures silenced == Silenced(ranked, |ranked|, unboosted, ById(batch, |batch|), config.minObservationPriority)
    {
      var collected := map[];
      var i := 0;
      while i < |batch|
        invariant 0 <= i <= |batch| && collected == ById(batch, i)
      {
        collected := collected[batch[i].id := batch[i]];
        i := i + 1;
      }
      silenced := [];
      i := 0;
      while i < |ranked|
        invariant 0 <= i <= |ranked|
        invariant silenced == Silenced(ranked, i, unboosted, collected, config.minObservationPriority)
      {
        var o := ranked[i];
        var before := if o.id in unboosted then unboosted[o.id] else o.priority;
        if Max(o.priority, before) >= config.minObservationPriority {
          silenced := silenced + [if o.id in collected then collected[o.id] else o];
        }
        i := i + 1;
      }
    }

    /** The tick from the scores to the await of the reply, or to its end at a closed gate. */
    method TickOrient(batch: seq<Observation>, scoredAt: int, matches: seq<nat>, now: int) returns (phase: Phase)
      requires Valid() && |batch| == |matches|
      modifies this, engine, scorer
      ensures Valid()
      ensures Turn(State(), phase) == Orient(old(State()), batch, scoredAt, matches, now)
    {
      var scored := scorer.ScoreAll(batch, matches, scoredAt);
      ExpireSourceBoosts(now);
      var unboosted := Unboosted(scored);
      var ranked := BoostInPlace(scored);
      var threshold := EffectivePriorityThreshold(now);
      if ranked == [] || ranked[0].priority < threshold {
        var silenced := SilencedByOverride(ranked, unboosted, batch);
        RequeueUnacted(silenced, BELOW_THRESHOLD_RECHECK_MINUTES, now);
        tickInFlight := false;
        return Idle;
      }
      lastReasoningMs := now;
      return Thinking(batch, ranked);
    }

    // ---------- tick: decide and act ----------

    method RecordActions(s: seq<Observation>, now: int)
      modifies scorer
      ensures scorer.recentActionHashes == RecordEach(old(scorer.recentActionHashes), s, |s|, now)
    {
      var i := 0;
      while i < |s|
        invariant 0 <= i <= |s|
        invariant scorer.recentActionHashes == RecordEach(old(scorer.recentActionHashes), s, i, now)
      {
        scorer.RecordAction(s[i], now);
        i := i + 1;
      }
    }

    method ApplyAdjustments(a: Adjustments, now: int)
      modifies this`runtimeOverrides
      ensures runtimeOverrides == Core.ApplyAdjustments(old(runtimeOverrides), a, now)
    {
      if a.priorityThreshold.Some? {
        var applied := a.priorityThreshold.value;
        if applied > LLM_PRIORITY_THRESHOLD_CEILING {
          applied := LLM_PRIORITY_THRESHOLD_CEILING;
        }
        runtimeOverrides := runtimeOverrides.(
          threshold := Some(applied), thresholdExpiresAt := Some(now + PRIORITY_THRESHOLD_OVERRIDE_TTL_MS));
      }
      if a.sourceBoost.Some? {
        var SourceBoost(source, delta) := a.sourceBoost.value;
        runtimeOverrides := runtimeOverrides.(
          boosts := runtimeOverrides.boosts[source := delta],
          boostExpiresAt := runtimeOverrides.boostExpiresAt[source := now + PRIORITY_THRESHOLD_OVERRIDE_TTL_MS]);
      }
      if a.reasoningIntervalMs.Some? {
        runtimeOverrides := runtimeOverrides.(intervalMs := a.reasoningIntervalMs);
      }
    }

    /** The end of every arm that decided something: the charge is cleared and, for the arms that act
        on a subset, what they did not handle goes back. */
    method Finish(batch: seq<Observation>, handled: set<string>, requeue: bool, minutes: int,
        now: int) returns (phase: Phase)
      requires Valid()
      modifies this, engine
      ensures Valid()
      ensures Turn(State(), phase) ==
              Done(if requeue then Requeue(ClearRounds(old(State()), batch), Outside(batch, handled), minutes, now)
                   else ClearRounds(old(State()), batch))
    {
      unparsedRounds := unparsedRounds - Ids(batch);
      if requeue {
        var unhandled := Outside(batch, handled);
        RequeueUnacted(unhandled, minutes, now);
      }
      tickInFlight := false;
      phase := Idle;
    }

    /** A goal was taken on as `task`. */
    method GoalSubmitted(batch: seq<Observation>, ranked: seq<Observation>, task: string, answered: seq<Observation>,
        recordTop: bool, now: int)
      returns (phase: Phase)
      requires Valid() && ranked != []
      modifies this, engine, scorer
      ensures Valid()
      ensures Turn(State(), phase) == Act(old(State()), batch, ranked, Submitted(task, answered, recordTop), now)
    {
      SetValid(trackedTasks, task, now);
      trackedTasks := trackedTasks.Set(task, now);
      RecordActions(answered, now);
      if recordTop && ranked[0].id !in Ids(answered) {
        scorer.RecordAction(ranked[0], now);
      }
      phase := Finish(batch, Ids(answered), true, UNACTED_BATCH_RECHECK_MINUTES, now);
    }

    /** The "execute" and "batch" arms. `submit` is what submitting answered (None: it threw). */
    method TickSubmit(batch: seq<Observation>, ranked: seq<Observation>, d: Decision, submit: Option<string>, now: int)
      returns (phase: Phase)
      requires Valid() && ranked != []
      requires (d.action.Execute? || d.action.Batch?) && !IsUnusable(d)
      modifies this, engine, scorer
      ensures Valid()
      ensures Turn(State(), phase) == Act(old(State()), batch, ranked, Judge(d, ranked, 0, submit), now)
    {
      var refusal := WhyNotActionableWork(ranked, d.named);
      if refusal.Some? {
        Inventory.OutsideNothing(batch);
        phase := Finish(batch, {}, true, UNACTED_BATCH_RECHECK_MINUTES, now);
      } else if submit.None? {
        phase := TickFailed(batch, now);
      } else {
        phase := GoalSubmitted(batch, ranked, submit.value, Credited(d, ranked), d.action.Execute?, now);
      }
    }

    /** The "notify" and "escalate" arms, once there is something to say. */
    method TickSpeak(batch: seq<Observation>, ranked: seq<Observation>, text: string, foreground: int, now: int)
      returns (phase: Phase, sent: seq<string>)
      requires Valid() && ranked != []
      modifies this, engine
      ensures Valid()
      ensures Turn(State(), phase) ==
              Act(old(State()), batch, ranked, if foreground > 0 then Postponed else Spoke(text), now)
      ensures sent == if foreground <= 0 && operatorChatId.Some? then [text] else []
    {
      var put := DeferHumanVisibleDecision(ranked[0], foreground, now);
      if put {
        phase := Finish(batch, {ranked[0].id}, true, FOREGROUND_DECISION_DEFER_MINUTES, now);
        return phase, [];
      }
      var attempted := SendToOperator(text);
      return Notifying(batch), if attempted then [text] else [];
    }

    method TickEscalate(batch: seq<Observation>, ranked: seq<Observation>, d: Decision, foreground: int, now: int)
      returns (phase: Phase, sent: seq<string>)
      requires Valid() && ranked != [] && d.action.Escalate?
      modifies this, engine
      ensures Valid()
      ensures Turn(State(), phase) == Act(old(State()), batch, ranked, Judge(d, ranked, foreground, None), now)
      ensures sent == if Given(d.question) && foreground <= 0 && operatorChatId.Some? then [Question(d)] else []
    {
      EscalateJudged(d, ranked, foreground);
      sent := [];
      if Given(d.question) {
        phase, sent := TickSpeak(batch, ranked, Question(d), foreground, now);
      } else {
        phase := Finish(batch, {}, false, 0, now);
      }
    }

    method TickWait(batch: seq<Observation>, ranked: seq<Observation>, d: Decision, now: int)
      returns (phase: Phase, sent: seq<string>)
      requires Valid() && ranked != [] && d.action.Wait?
      modifies this, engine
      ensures Valid()
      ensures Turn(State(), phase) == Act(old(State()), batch, ranked, Judge(d, ranked, 0, None), now)
      ensures sent == if operatorChatId.Some? then Says(old(State()), batch, Judge(d, ranked, 0, None)) else []
    {
      WaitJudged(State(), batch, ranked, d, now);
      sent := [];
      if d.unparsed {
        phase, sent := Unread(batch, UnreadableWarning(d.reasoning), now);
      } else {
        phase := Finish(batch, {}, false, 0, now);
      }
    }

    method TickAdjust(batch: seq<Observation>, adjustments: Option<Adjustments>, now: int) returns (phase: Phase)
      requires Valid()
      modifies this, engine
      ensures Valid()
      ensures adjustments.Some? ==>
                Turn(State(), phase) ==
                Done(ClearRounds(
                       old(State()).(overrides := Core.ApplyAdjustments(old(runtimeOverrides), adjustments.value, now)),
                       batch))
      ensures adjustments.None? ==> Turn(State(), phase) == Done(ClearRounds(old(State()), batch))
    {
      if adjustments.Some? {
        ApplyAdjustments(adjustments.value, now);
      }
      phase := Finish(batch, {}, false, 0, now);
    }

    /** The tick from the reply on. `submitted` is the goal that was handed over, if any, and `sent` the text
        that was handed to the channel. */
    method TickAct(batch: seq<Observation>, ranked: seq<Observation>, d: Decision, foreground: int,
        submit: Option<string>, now: int)
      returns (phase: Phase, submitted: Option<string>, sent: seq<string>)
      requires Valid() && ranked != []
      modifies this, engine, scorer
      ensures Valid()
      ensures Turn(State(), phase) == Act(old(State()), batch, ranked, Judge(d, ranked, foreground, submit), now)
      ensures submitted == GoalText(d, ranked)
      ensures sent == if operatorChatId.Some? then Says(old(State()), batch, Judge(d, ranked, foreground, submit))
                                              else []
    {
      submitted, sent := GoalText(d, ranked), [];
      JudgedSilently(State(), batch, ranked, d, foreground, submit);
      if IsUnusable(d) {
        phase := Charged(batch, now);
        return;
      }
      match d.action {
        case Execute | Batch =>
          phase := TickSubmit(batch, ranked, d, submit, now);
        case Notify =>
          phase, sent := TickSpeak(batch, ranked, d.message.value, foreground, now);
        case Escalate =>
          phase, sent := TickEscalate(batch, ranked, d, foreground, now);
        case Defer =>
          engine.Defer(ranked[0], d.deferMinutes.value, now);
          phase := Finish(batch, {ranked[0].id}, true, UNACTED_BATCH_RECHECK_MINUTES, now);
        case Adjust =>
          phase := TickAdjust(batch, d.adjustments, now);
        case Wait =>
          phase, sent := TickWait(batch, ranked, d, now);
      }
    }

    /** An unusable decision: charged like an unreadable one. */
    method Charged(batch: seq<Observation>, now: int) returns (phase: Phase)
      requires Valid()
      modifies this, engine
      ensures Valid()
      ensures Turn(State(), phase) == Done(ChargeRound(old(State()), batch, now))
    {
      var exhausted := ChargeUnparsed(batch);
      RequeueUnacted(batch, if exhausted then UNPARSED_COOLDOWN_MINUTES else UNACTED_BATCH_RECHECK_MINUTES, now);
      tickInFlight := false;
      phase := Idle;
    }

    method Unread(batch: seq<Observation>, warning: string, now: int) returns (phase: Phase, sent: seq<string>)
      requires Valid()
      modifies this, engine
      ensures Valid()
      ensures Turn(State(), phase) == Done(UnreadableRound(old(State()), batch, warning, now))
      ensures sent == if operatorChatId.Some? then Says(old(State()), batch, Unreadable(warning)) else []
    {
      sent := [];
      var exhausted := ChargeUnparsed(batch);
      if exhausted {
        RequeueUnacted(batch, UNPARSED_COOLDOWN_MINUTES, now);
        if !unparsedReported {
          unparsedReported := true;
          var attempted := SendToOperator(warning);
          sent := if attempted then [warning] else [];
        }
      } else {
        RequeueUnacted(batch, UNACTED_BATCH_RECHECK_MINUTES, now);
      }
      tickInFlight := false;
      phase := Idle;
    }

    method TickNotified(batch: seq<Observation>) returns (phase: Phase)
      requires Valid()
      modifies this
      ensures Valid()
      ensures Turn(State(), phase) == Notified(old(State()), batch)
    {
      unparsedRounds := unparsedRounds - Ids(batch);
      tickInFlight := false;
      phase := Idle;
    }

    /** The catch: a throw after `collect` that no arm had consumed the batch before. */
    method TickFailed(batch: seq<Observation>, now: int) returns (phase: Phase)
      requires Valid()
      modifies this, engine
      ensures Valid()
      ensures Turn(State(), phase) == Fail(old(State()), batch, now)
    {
      RequeueUnacted(batch, UNACTED_BATCH_RECHECK_MINUTES, now);
      tickInFlight := false;
      phase := Idle;
    }
  }

  /** Only a "notify", an "escalate" and an unreadable reply have anything to say. */
  lemma JudgedSilently(c: CoreState, batch: seq<Observation>, ranked: seq<Observation>, d: Decision, foreground: int,
      submit: Option<string>)
    ensures IsUnusable(d) || !(d.action.Notify? || d.action.Escalate? || d.action.Wait?) ==>
              Says(c, batch, Judge(d, ranked, foreground, submit)) == []
    ensures d.action.Escalate? && !Given(d.question) ==> Says(c, batch, Judge(d, ranked, foreground, submit)) == []
  {
  }

  lemma WaitJudged(c: CoreState, batch: seq<Observation>, ranked: seq<Observation>, d: Decision, now: int)
    requires ranked != [] && d.action.Wait?
    ensures Act(c, batch, ranked, Judge(d, ranked, 0, None), now) ==
            Done(if d.unparsed then UnreadableRound(c, batch, UnreadableWarning(d.reasoning), now)
                 else ClearRounds(c, batch))
  {
  }

  lemma EscalateJudged(d: Decision, ranked: seq<Observation>, foreground: int)
    requires d.action.Escalate?
    ensures Judge(d, ranked, foreground, None) ==
            if !Given(d.question) then Waited else if foreground > 0 then Postponed else Spoke(Question(d))
  {
  }

  /** Once the sweep has failed it stays where it was. */
  lemma {:induction false} SweepStays(e: Engine.EngineState, tracked: OrderedMap<int>, tasks: seq<TaskReply>, n: nat,
      now: int)
    requires n <= |tracked.keys| == |tasks|
    requires SweepTasks(e, tracked, tasks, n, now).failed
    ensures SweepTasks(e, tracked, tasks, |tasks|, now) == SweepTasks(e, tracked, tasks, n, now)
    decreases |tasks| - n
  {
    if n < |tasks| {
      SweepStays(e, tracked, tasks, n + 1, now);
    }
  }
}
