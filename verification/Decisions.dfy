/** The reasoning reply, and what it amounts to for the batch it was made about. */
module Decisions {
  import opened Observations
  import Selections

  datatype Action = Execute | Wait | Notify | Escalate | Batch | Defer | Adjust

  datatype SourceBoost = SourceBoost(source: string, delta: int)

  datatype Adjustments = Adjustments(
    priorityThreshold: Option<int>, sourceBoost: Option<SourceBoost>, reasoningIntervalMs: Option<int>)

  /** `named` is `batchObservationIds ?? []`. */
  datatype Decision = Decision(
    action: Action, goal: Option<string>, message: Option<string>, question: Option<string>,
    named: seq<string>, deferMinutes: Option<int>, adjustments: Option<Adjustments>,
    reasoning: string, unparsed: bool)

  /** Neither missing nor the empty string, both of which JavaScript takes for false. */
  predicate Given(t: Option<string>) {
    t.Some? && t.value != ""
  }

  /** What the reply parser lets through: everything else about a decision is arbitrary. */
  ghost predicate Parsed(d: Decision) {
    && (d.deferMinutes.Some? ==> 1 <= d.deferMinutes.value <= 120)
    && (d.unparsed ==> d.action.Wait?)
    && (d.adjustments.Some? ==>
          var a := d.adjustments.value;
          && a != Adjustments(None, None, None)
          && (a.priorityThreshold.Some? ==> 0 <= a.priorityThreshold.value <= 100)
          && (a.sourceBoost.Some? ==> -50 <= a.sourceBoost.value.delta <= 50)
          && (a.reasoningIntervalMs.Some? ==> 5_000 <= a.reasoningIntervalMs.value <= 300_000))
  }

  /** A decision that cannot be carried out. An "escalate" without a question and an "adjust"
      without adjustments are not in the list. */
  predicate IsUnusable(d: Decision) {
    || (d.action.Execute? && !Given(d.goal))
    || (d.action.Batch? && (!Given(d.goal) || d.named == []))
    || (d.action.Notify? && !Given(d.message))
    || (d.action.Defer? && (d.deferMinutes.None? || d.deferMinutes.value == 0))
  }

  /** Those of the first n whose id is in `ids`, or (inside == false) is not. */
  function Keep(s: seq<Observation>, n: nat, ids: set<string>, inside: bool): (r: seq<Observation>)
    requires n <= |s|
    ensures |r| <= n
  {
    if n == 0 then []
    else Keep(s, n - 1, ids, inside) + (if (s[n - 1].id in ids) == inside then [s[n - 1]] else [])
  }

  function Within(s: seq<Observation>, ids: set<string>): seq<Observation> { Keep(s, |s|, ids, true) }

  function Outside(s: seq<Observation>, ids: set<string>): seq<Observation> { Keep(s, |s|, ids, false) }

  function Actionable(s: seq<Observation>, n: nat): (r: seq<Observation>)
    requires n <= |s|
    ensures |r| <= n
  {
    if n == 0 then [] else Actionable(s, n - 1) + (if s[n - 1].actionable then [s[n - 1]] else [])
  }

  function Names(named: seq<string>): set<string> { set x | x in named }

  datatype Refusal = OnlyInformational | OutsideBatch | NamesNothingBesideInformational | NothingToAnswer

  predicate AllActionable(s: seq<Observation>) {
    forall o :: o in s ==> o.actionable
  }

  predicate NoneActionable(s: seq<Observation>) {
    forall o :: o in s ==> !o.actionable
  }

  function WhyNotActionableWork(ranked: seq<Observation>, named: seq<string>): Option<Refusal> {
    var answered := Within(ranked, Names(named));
    if answered != [] then (if NoneActionable(answered) then Some(OnlyInformational) else None)
    else if named != [] then Some(OutsideBatch)
    else if !AllActionable(ranked) then Some(NamesNothingBesideInformational)
    else if ranked == [] then Some(NothingToAnswer)
    else None
  }

  /** The observations a submitted goal is credited with. */
  function Credited(d: Decision, ranked: seq<Observation>): seq<Observation> {
    if d.action.Batch? || d.named != [] then Within(ranked, Names(d.named))
    else
      var work := Actionable(ranked, |ranked|);
      if |work| == 1 then work else []
  }

  function JoinContext(s: seq<Observation>, n: nat): string
    requires n <= |s|
  {
    if n == 0 then ""
    else
      JoinContext(s, n - 1) + (if n == 1 then "" else "; ")
      + "[" + s[n - 1].source.Name() + "] " + s[n - 1].summary
  }

  function CompoundGoal(goal: string, matched: seq<Observation>): string {
    goal + " (context: " + JoinContext(matched, |matched|) + ")"
  }

  function Question(d: Decision): string
    requires d.question.Some?
  {
    "[Agent needs input] " + d.question.value
  }

  /** The goal a decision submits, if it gets that far. */
  function GoalText(d: Decision, ranked: seq<Observation>): Option<string> {
    if IsUnusable(d) || !(d.action.Execute? || d.action.Batch?) || WhyNotActionableWork(ranked, d.named).Some? then None
    else Some(if d.action.Batch? then CompoundGoal(d.goal.value, Within(ranked, Names(d.named))) else d.goal.value)
  }

  function UnreadableWarning(reasoning: string): string {
    "I could not read my own reasoning 3 times in a row (" + reasoning + "). "
    + "The observations are held for an hour; the reasoning provider needs a look."
  }

  datatype Verdict =
    | Unusable
    | Unreadable(warning: string)
    | Refused(why: Refusal)
    | SubmitFailed
    | Submitted(task: string, credited: seq<Observation>, recordTop: bool)
    | Postponed
    | Spoke(text: string)
    | PutOff(minutes: int)
    | Adjusted(a: Adjustments)
    | Waited

  /** What a decision amounts to. `foreground` counts the user's own running tasks; `submit` is the
      task id the goal was given, or None when submitting threw. */
  function Judge(d: Decision, ranked: seq<Observation>, foreground: int, submit: Option<string>): Verdict {
    if IsUnusable(d) then Unusable
    else match d.action
      case Execute | Batch =>
        var why := WhyNotActionableWork(ranked, d.named);
        if why.Some? then Refused(why.value)
        else if submit.None? then SubmitFailed
        else Submitted(submit.value, Credited(d, ranked), d.action.Execute?)
      case Notify => if foreground > 0 then Postponed else Spoke(d.message.value)
      case Escalate =>
        if !Given(d.question) then Waited
        else if foreground > 0 then Postponed
        else Spoke(Question(d))
      case Defer => PutOff(d.deferMinutes.value)
      case Adjust => if d.adjustments.Some? then Adjusted(d.adjustments.value) else Waited
      case Wait => if d.unparsed then Unreadable(UnreadableWarning(d.reasoning)) else Waited
  }

  // ---------- a goal answers real work ----------

  lemma {:induction false} KeepMembers(s: seq<Observation>, n: nat, ids: set<string>, inside: bool)
    requires n <= |s|
    ensures forall i :: 0 <= i < n && (s[i].id in ids) == inside ==> s[i] in Keep(s, n, ids, inside)
    ensures forall o :: o in Keep(s, n, ids, inside) ==> o in s && (o.id in ids) == inside
  {
    if n > 0 {
      KeepMembers(s, n - 1, ids, inside);
    }
  }

  lemma {:induction false} AllKept(s: seq<Observation>, n: nat)
    requires n <= |s| && AllActionable(s)
    ensures Actionable(s, n) == s[..n]
  {
    if n > 0 {
      AllKept(s, n - 1);
      assert s[n - 1] in s;
    }
  }

  lemma WithinExact(s: seq<Observation>, named: seq<string>)
    ensures forall o :: o in Within(s, Names(named)) <==> o in s && o.id in named
  {
    KeepMembers(s, |s|, Names(named), true);
    forall o | o in s && o.id in named ensures o in Within(s, Names(named)) {
      var i :| 0 <= i < |s| && s[i] == o;
      assert s[i].id in Names(named);
    }
  }

  /** A goal is let through exactly when it answers actionable work: it names an actionable
      observation of the batch, or it names nothing and the batch is all actionable and not empty. */
  lemma GoalAllowedIff(ranked: seq<Observation>, named: seq<string>)
    ensures WhyNotActionableWork(ranked, named).None? <==>
            || (exists o :: o in ranked && o.id in named && o.actionable)
            || (named == [] && ranked != [] && AllActionable(ranked))
  {
    WithinExact(ranked, named);
    var answered := Within(ranked, Names(named));
    if answered != [] {
      assert answered[0] in answered;
    }
  }

  lemma SoleWork(ranked: seq<Observation>)
    requires AllActionable(ranked)
    ensures Actionable(ranked, |ranked|) == ranked
  {
    AllKept(ranked, |ranked|);
    assert ranked[..|ranked|] == ranked;
  }

  /** A submitted goal is credited with exactly the observations it names; naming none, with the
      batch's one observation, and with nothing when the batch has more. */
  lemma CreditedExactly(d: Decision, ranked: seq<Observation>, foreground: int, submit: Option<string>)
    requires Judge(d, ranked, foreground, submit).Submitted?
    ensures var credited := Judge(d, ranked, foreground, submit).credited;
            && (d.named != [] ==> forall o :: o in credited <==> o in ranked && o.id in d.named)
            && (d.named == [] ==> credited == (if |ranked| == 1 then ranked else []))
            && (forall o :: o in credited ==> o in ranked)
            && (credited != [] ==> exists o :: o in credited && o.actionable)
  {
    GoalAllowedIff(ranked, d.named);
    assert WhyNotActionableWork(ranked, d.named).None?;
    if d.named != [] {
      WithinExact(ranked, d.named);
    } else {
      SoleWork(ranked);
      assert |ranked| == 1 ==> ranked[0] in ranked;
    }
  }

  // ---------- the text of a goal ----------

  /** An observation as a batch goal mentions it. */
  ghost function Mention(o: Observation): string {
    "[" + o.source.Name() + "] " + o.summary
  }

  /** Read from the front: the first, and what follows each behind a semicolon. */
  ghost function Mentions(s: seq<Observation>): string {
    if s == [] then "" else Mention(s[0]) + Others(s[1..])
  }

  ghost function Others(s: seq<Observation>): string {
    if s == [] then "" else "; " + Mention(s[0]) + Others(s[1..])
  }

  lemma Regroup(a: string, b: string, c: string)
    ensures a + (b + c) == (a + b) + c
  {
  }

  lemma {:induction false} OneMoreOther(s: seq<Observation>, o: Observation)
    ensures Others(s + [o]) == Others(s) + ("; " + Mention(o))
  {
    if s == [] {
      assert [o][1..] == [] && [] + [o] == [o];
      assert Others([o]) == "; " + Mention(o) + "";
      assert "" + ("; " + Mention(o)) == "; " + Mention(o);
    } else {
      assert (s + [o])[1..] == s[1..] + [o] && (s + [o])[0] == s[0];
      OneMoreOther(s[1..], o);
      Regroup("; " + Mention(s[0]), Others(s[1..]), "; " + Mention(o));
    }
  }

  lemma OneMoreMention(before: string, separator: string, o: Observation)
    ensures before + separator + "[" + o.source.Name() + "] " + o.summary == before + (separator + Mention(o))
  {
  }

  /** Joined from either end the context reads the same. */
  lemma {:induction false} ContextMentions(s: seq<Observation>, n: nat)
    requires n <= |s|
    ensures JoinContext(s, n) == Mentions(s[..n])
  {
    if n == 1 {
      assert s[..1] == [s[0]] && [s[0]][1..] == [];
      assert JoinContext(s, 0) == "";
      OneMoreMention("", "", s[0]);
    } else if n > 1 {
      ContextMentions(s, n - 1);
      OneMoreMention(JoinContext(s, n - 1), "; ", s[n - 1]);
      OneMoreMentioned(s[..n - 1], s[n - 1]);
      assert s[..n] == s[..n - 1] + [s[n - 1]];
    }
  }

  lemma OneMoreMentioned(s: seq<Observation>, o: Observation)
    requires s != []
    ensures Mentions(s + [o]) == Mentions(s) + ("; " + Mention(o))
  {
    assert (s + [o])[1..] == s[1..] + [o] && (s + [o])[0] == s[0];
    OneMoreOther(s[1..], o);
    Regroup(Mention(s[0]), Others(s[1..]), "; " + Mention(o));
  }

  /** Where the named ones stand. */
  ghost function NamedPlaces(s: seq<Observation>, n: nat, named: seq<string>): set<int>
    requires n <= |s|
  {
    set i | 0 <= i < n && s[i].id in named
  }

  lemma OneMoreNamed(s: seq<Observation>, n: nat, named: seq<string>)
    requires 0 < n <= |s|
    ensures NamedPlaces(s, n, named) == if s[n - 1].id in named then NamedPlaces(s, n - 1, named) + {n - 1}
                                        else NamedPlaces(s, n - 1, named)
    ensures s[..n] == s[..n - 1] + [s[n - 1]] && |s[..n - 1]| == n - 1
  {
  }

  lemma {:induction false} NamedPicked(s: seq<Observation>, n: nat, named: seq<string>)
    requires n <= |s|
    ensures Selections.PicksOut(Keep(s, n, Names(named), true), s[..n], NamedPlaces(s, n, named))
  {
    if n == 0 {
      Selections.NothingPicked(s[..0]);
      assert NamedPlaces(s, 0, named) == {};
    } else {
      NamedPicked(s, n - 1, named);
      OneMoreNamed(s, n, named);
      Selections.PickedOneMore(Keep(s, n - 1, Names(named), true), s[..n - 1], NamedPlaces(s, n - 1, named), s[n - 1],
                               s[n - 1].id in named, Keep(s, n, Names(named), true), NamedPlaces(s, n, named));
    }
  }

  /** A goal that is given, and for a "batch" the observations it is about. */
  ghost predicate GivesAGoal(d: Decision) {
    d.goal.Some? && d.goal.value != "" && (d.action.Execute? || (d.action.Batch? && d.named != []))
  }

  lemma HandedOverIff(d: Decision, ranked: seq<Observation>)
    ensures GoalText(d, ranked).Some? <==> GivesAGoal(d) && WhyNotActionableWork(ranked, d.named).None?
    ensures GoalText(d, ranked).Some? ==>
              GoalText(d, ranked).value == if d.action.Execute? then d.goal.value
                                           else CompoundGoal(d.goal.value, Within(ranked, Names(d.named)))
  {
  }

  lemma CompoundMentions(goal: string, s: seq<Observation>)
    ensures CompoundGoal(goal, s) == goal + " (context: " + Mentions(s) + ")"
  {
    ContextMentions(s, |s|);
    assert s[..|s|] == s;
  }

  lemma NamedInOrder(ranked: seq<Observation>, named: seq<string>)
    ensures Selections.PicksOut(Within(ranked, Names(named)), ranked, NamedPlaces(ranked, |ranked|, named))
  {
    NamedPicked(ranked, |ranked|, named);
    assert ranked[..|ranked|] == ranked;
  }

  /** WHAT IS HANDED OVER. A goal is handed over exactly when it is given and about work of its batch; an
      "execute" hands over the goal as it was given, a "batch" adds the observations it names, in rank order,
      each with its source. */
  lemma {:induction false} GoalHandedOver(d: Decision, ranked: seq<Observation>) returns (mentioned: seq<Observation>)
    ensures GoalText(d, ranked).Some? <==>
            && GivesAGoal(d)
            && (|| (exists o :: o in ranked && o.id in d.named && o.actionable)
                || (d.named == [] && ranked != [] && AllActionable(ranked)))
    ensures Selections.PicksOut(mentioned, ranked, NamedPlaces(ranked, |ranked|, d.named))
    ensures GoalText(d, ranked).Some? ==>
              GoalText(d, ranked).value == if d.action.Execute? then d.goal.value
                                           else d.goal.value + " (context: " + Mentions(mentioned) + ")"
  {
    mentioned := Within(ranked, Names(d.named));
    NamedInOrder(ranked, d.named);
    HandedOverIff(d, ranked);
    GoalAllowedIff(ranked, d.named);
    if d.goal.Some? {
      CompoundMentions(d.goal.value, mentioned);
    }
  }
}
