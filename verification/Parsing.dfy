/** What the reply parser lets through, whatever the model wrote. */
module Parsing {
  import opened Observations
  import opened Decisions

  datatype JsNumber = NaN | NegativeInfinity | Finite(value: real) | PositiveInfinity

  datatype RawBoost = RawBoost(source: Option<string>, delta: Option<JsNumber>)

  datatype RawAdjustments = RawAdjustments(
    priorityThreshold: Option<JsNumber>, sourceBoost: Option<RawBoost>, reasoningIntervalMs: Option<JsNumber>)

  /** The JSON object of a reply: a field of the wrong type is None, `action` is trimmed. A reply that
      is no such object is `Garbage`. */
  datatype RawReply =
    | Garbage(complaint: string)
    | Raw(action: Option<string>, goal: Option<string>, message: Option<string>, question: Option<string>,
          reasoning: Option<string>, batchObservationIds: Option<seq<string>>, deferMinutes: Option<JsNumber>,
          adjustments: Option<RawAdjustments>)

  function ActionNamed(name: string): Option<Action> {
    if name == "execute" then Some(Execute)
    else if name == "wait" then Some(Wait)
    else if name == "notify" then Some(Notify)
    else if name == "escalate" then Some(Escalate)
    else if name == "batch" then Some(Batch)
    else if name == "defer" then Some(Defer)
    else if name == "adjust" then Some(Adjust)
    else None
  }

  /** Rounded half up and brought between the bounds; nothing for NaN. */
  function ClampRounded(n: Option<JsNumber>, lo: int, hi: int): (r: Option<int>)
    requires lo <= hi
    ensures r.Some? ==> lo <= r.value <= hi
    ensures r.None? <==> n.None? || n.value.NaN?
    ensures n.Some? && n.value.Finite? && r.value > lo ==> r.value as real - 0.5 <= n.value.value
    ensures n.Some? && n.value.Finite? && r.value < hi ==> n.value.value < r.value as real + 0.5
    ensures n == Some(NegativeInfinity) ==> r == Some(lo)
    ensures n == Some(PositiveInfinity) ==> r == Some(hi)
  {
    if n.None? then None
    else match n.value
      case NaN => None
      case NegativeInfinity => Some(lo)
      case PositiveInfinity => Some(hi)
      case Finite(x) =>
        var rounded := (x + 0.5).Floor;
        Some(if rounded < lo then lo else if rounded > hi then hi else rounded)
  }

  function ParseAdjustments(raw: RawAdjustments): Option<Adjustments> {
    var boost :=
      if raw.sourceBoost.Some? && raw.sourceBoost.value.source.Some?
      then var delta := ClampRounded(raw.sourceBoost.value.delta, -50, 50);
           if delta.Some? then Some(SourceBoost(raw.sourceBoost.value.source.value, delta.value)) else None
      else None;
    var a := Adjustments(ClampRounded(raw.priorityThreshold, 0, 100), boost,
                         ClampRounded(raw.reasoningIntervalMs, 5_000, 300_000));
    if a == Adjustments(None, None, None) then None else Some(a)
  }

  function Shortened(t: Option<string>): Option<string> {
    if t.Some? then Some(Prefix(t.value, 2000)) else None
  }

  /** A text of the reply, and what the decision has of it: the whole, or its first 2000 characters. */
  ghost predicate CutTo2000(raw: Option<string>, d: Option<string>) {
    && (d.Some? <==> raw.Some?)
    && (d.Some? ==> d.value <= raw.value && |d.value| == if |raw.value| < 2000 then |raw.value| else 2000)
  }

  /** The known actions, each by its name. */
  ghost predicate IsCalled(name: string, a: Action) {
    match a
    case Execute => name == "execute"
    case Wait => name == "wait"
    case Notify => name == "notify"
    case Escalate => name == "escalate"
    case Batch => name == "batch"
    case Defer => name == "defer"
    case Adjust => name == "adjust"
  }

  lemma ActionsByName(name: string, a: Action)
    ensures ActionNamed(name) == Some(a) <==> IsCalled(name, a)
    ensures ActionNamed(name).None? <==> forall b :: !IsCalled(name, b)
  {
    assert IsCalled("execute", Execute) && IsCalled("wait", Wait) && IsCalled("notify", Notify)
           && IsCalled("escalate", Escalate) && IsCalled("batch", Batch) && IsCalled("defer", Defer)
           && IsCalled("adjust", Adjust);
  }

  /** Nothing a reply says is dropped, added or given to another field: what a decision has is what the
      reply said, its texts cut to 2000 characters, its ids to twenty, its minutes to 1..120. */
  lemma ParsedFaithfully(raw: RawReply, d: Decision)
    requires raw.Raw? && raw.action.Some? && d == Parse(raw)
    ensures d.unparsed <==> forall a :: !IsCalled(raw.action.value, a)
    ensures !d.unparsed ==>
              && IsCalled(raw.action.value, d.action)
              && CutTo2000(raw.goal, d.goal) && CutTo2000(raw.message, d.message) && CutTo2000(raw.question, d.question)
              && (raw.reasoning.None? ==> d.reasoning == "No reasoning provided")
              && (raw.reasoning.Some? ==> CutTo2000(raw.reasoning, Some(d.reasoning)))
              && d.named <= (if raw.batchObservationIds.Some? then raw.batchObservationIds.value else [])
              && (|d.named| < 20 ==> raw.batchObservationIds.None? || d.named == raw.batchObservationIds.value)
              && d.deferMinutes == ClampRounded(raw.deferMinutes, 1, 120)
    ensures d.unparsed ==> d.action.Wait? && d.named == [] && d.adjustments.None?
  {
    ActionsByName(raw.action.value, d.action);
  }

  /** What an "adjust" asks for is what the reply asked for, within its bounds: a threshold of 0..100, a boost
      of -50..50 for its source, an interval of 5 to 300 seconds. */
  lemma AdjustmentsFaithful(raw: RawAdjustments, a: Option<Adjustments>)
    requires a == ParseAdjustments(raw)
    ensures var boosted := raw.sourceBoost.Some? && raw.sourceBoost.value.source.Some?
                           && raw.sourceBoost.value.delta.Some? && !raw.sourceBoost.value.delta.value.NaN?;
            var timed := raw.reasoningIntervalMs.Some? && !raw.reasoningIntervalMs.value.NaN?;
            var bounded := raw.priorityThreshold.Some? && !raw.priorityThreshold.value.NaN?;
            && (a.Some? <==> boosted || timed || bounded)
            && (a.Some? ==>
                 && a.value.priorityThreshold == ClampRounded(raw.priorityThreshold, 0, 100)
                 && a.value.reasoningIntervalMs == ClampRounded(raw.reasoningIntervalMs, 5_000, 300_000)
                 && (a.value.sourceBoost.Some? <==> boosted)
                 && (boosted ==>
                      && a.value.sourceBoost.value.source == raw.sourceBoost.value.source.value
                      && Some(a.value.sourceBoost.value.delta) == ClampRounded(raw.sourceBoost.value.delta, -50, 50)))
  {
  }

  function NotADecision(complaint: string): Decision {
    Decision(Wait, None, None, None, [], None, None, complaint, true)
  }

  /** Every reply becomes a decision, and every decision keeps to its bounds: in particular a "defer"
      lasts at least a minute, which is what keeps an observation clear of its own earlier return. A
      reply that names no known action is never a deliberate "wait". */
  function Parse(raw: RawReply): (d: Decision)
    ensures Parsed(d) && |d.named| <= 20
    ensures d.unparsed <==> raw.Garbage? || raw.action.None? || ActionNamed(raw.action.value).None?
    ensures !d.unparsed ==> Some(d.action) == ActionNamed(raw.action.value)
    ensures d.action.Defer? && IsUnusable(d) ==> raw.deferMinutes.None? || raw.deferMinutes.value.NaN?
    ensures d.unparsed ==>
              d.reasoning == if raw.Garbage? then raw.complaint
                             else if raw.action.None? || raw.action.value == "" then "No action in the response"
                             else "Unknown action: " + raw.action.value
  {
    match raw
    case Garbage(complaint) => NotADecision(complaint)
    case Raw(action, goal, message, question, reasoning, ids, deferMinutes, adjustments) =>
      if action.None? || action.value == "" then NotADecision("No action in the response")
      else if ActionNamed(action.value).None? then NotADecision("Unknown action: " + action.value)
      else
        Decision(
          ActionNamed(action.value).value, Shortened(goal), Shortened(message), Shortened(question),
          if ids.Some? then Prefix20(ids.value) else [],
          ClampRounded(deferMinutes, 1, 120),
          if adjustments.Some? then ParseAdjustments(adjustments.value) else None,
          if reasoning.Some? then Prefix(reasoning.value, 2000) else "No reasoning provided",
          false)
  }

  function Prefix20(ids: seq<string>): seq<string> {
    if |ids| <= 20 then ids else ids[..20]
  }
}
