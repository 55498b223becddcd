/** The observation stream: what an observation is, the hash the engine and the
    scorer recognise a repeat by, and the sets of ids a batch stands for. */
module Observations {

  datatype Option<+T> = None | Some(value: T)

  datatype Source = FileWatch | Git | Test | Build | User | Trigger | Schedule | TaskOutcome {
    function Name(): string {
      match this
      case FileWatch => "file-watch"
      case Git => "git"
      case Test => "test"
      case Build => "build"
      case User => "user"
      case Trigger => "trigger"
      case Schedule => "schedule"
      case TaskOutcome => "task-outcome"
    }
  }

  datatype Observation = Observation(
    id: string, source: Source, priority: int, summary: string, timestamp: int, actionable: bool)

  /** The first n characters, or all there are. */
  function Prefix(s: string, n: nat): string {
    if |s| <= n then s else s[..n]
  }

  /** The last n: what trimming a list from the front leaves. */
  function LastN<T>(s: seq<T>, n: nat): seq<T> {
    if |s| <= n then s else s[|s| - n..]
  }

  /** What a repeat is recognised by. The program writes it as one string, `Text()`;
      `TextIsFaithful` shows that the string says no more and no less. */
  datatype Fingerprint = Fingerprint(source: Source, prefix: string) {
    function Text(): string {
      source.Name() + ":" + prefix
    }
  }

  function Print(o: Observation, n: nat): Fingerprint {
    Fingerprint(o.source, Prefix(o.summary, n))
  }

  function Ids(s: seq<Observation>): set<string> {
    if s == [] then {} else Ids(s[..|s| - 1]) + {s[|s| - 1].id}
  }

  ghost function ActionableIds(s: seq<Observation>): set<string> {
    if s == [] then {}
    else ActionableIds(s[..|s| - 1]) + (if s[|s| - 1].actionable then {s[|s| - 1].id} else {})
  }

  ghost predicate Distinct(s: seq<Observation>) {
    forall i, j :: 0 <= i < j < |s| ==> s[i].id != s[j].id
  }

  lemma {:induction false} IdsExact(s: seq<Observation>)
    ensures forall o :: o in s ==> o.id in Ids(s) && (o.actionable ==> o.id in ActionableIds(s))
    ensures forall k :: k in Ids(s) ==> exists o :: o in s && o.id == k
    ensures forall k :: k in ActionableIds(s) ==> exists o :: o in s && o.id == k && o.actionable
    ensures ActionableIds(s) <= Ids(s)
  {
    if s != [] {
      var front, last := s[..|s| - 1], s[|s| - 1];
      assert s == front + [last];
      IdsExact(front);
      assert last in s;
      assert forall o :: o in front ==> o in s;
    }
  }

  lemma SameMembersSameIds(s: seq<Observation>, t: seq<Observation>)
    requires forall o :: o in s <==> o in t
    ensures Ids(s) == Ids(t) && ActionableIds(s) == ActionableIds(t)
  {
    IdsExact(s);
    IdsExact(t);
  }

  lemma SnocIds(s: seq<Observation>, o: Observation)
    ensures Ids(s + [o]) == Ids(s) + {o.id}
    ensures ActionableIds(s + [o]) == ActionableIds(s) + (if o.actionable then {o.id} else {})
  {
  }

  lemma SoleIds(o: Observation)
    ensures Ids([o]) == {o.id}
  {
    SnocIds([], o);
    assert [] + [o] == [o];
  }

  lemma SnocDistinct(s: seq<Observation>, o: Observation)
    ensures Distinct(s + [o]) <==> Distinct(s) && o.id !in Ids(s)
  {
    IdsExact(s);
    var u := s + [o];
    assert u[|s|] == o;
    assert forall i :: 0 <= i < |s| ==> u[i] == s[i] && s[i] in s;
    if Distinct(u) {
      assert forall i :: 0 <= i < |s| ==> u[i].id != u[|s|].id;
    }
  }

  lemma {:induction false} ConcatIds(s: seq<Observation>, t: seq<Observation>)
    ensures Ids(s + t) == Ids(s) + Ids(t)
    ensures ActionableIds(s + t) == ActionableIds(s) + ActionableIds(t)
  {
    if t == [] {
      assert s + t == s;
    } else {
      var front, last := t[..|t| - 1], t[|t| - 1];
      assert s + t == (s + front) + [last];
      ConcatIds(s, front);
      SnocIds(s + front, last);
    }
  }

  lemma {:induction false} ConcatDistinct(s: seq<Observation>, t: seq<Observation>)
    ensures Distinct(s + t) <==> Distinct(s) && Distinct(t) && Ids(s) !! Ids(t)
  {
    if t == [] {
      assert s + t == s;
    } else {
      var front, last := t[..|t| - 1], t[|t| - 1];
      assert s + t == (s + front) + [last] && t == front + [last];
      ConcatDistinct(s, front);
      ConcatIds(s, front);
      SnocDistinct(s + front, last);
      SnocDistinct(front, last);
    }
  }

  /** Either both have an i-th character, and the same, or neither has one. */
  ghost predicate AgreeAt(s: string, t: string, i: nat) {
    (i < |s| <==> i < |t|) && (i < |s| && i < |t| ==> s[i] == t[i])
  }

  ghost predicate SameStart(s: string, t: string, n: nat) {
    forall i: nat :: i < n ==> AgreeAt(s, t, i)
  }

  /** What a repeat is recognised by: its source and how its summary starts, nothing more and nothing less. */
  lemma PrintsAlike(a: Observation, b: Observation, n: nat)
    ensures Print(a, n) == Print(b, n) <==> a.source == b.source && SameStart(a.summary, b.summary, n)
  {
    if SameStart(a.summary, b.summary, n) {
      SameLength(a.summary, b.summary, n);
    } else if Print(a, n) == Print(b, n) {
      var p := Prefix(a.summary, n);
      forall i: nat | i < n ensures AgreeAt(a.summary, b.summary, i) {
        if i < |p| {
          assert a.summary[i] == p[i] && b.summary[i] == p[i];
        }
      }
    }
  }

  lemma SameLength(s: string, t: string, n: nat)
    requires SameStart(s, t, n)
    ensures Prefix(s, n) == Prefix(t, n)
  {
    assert |s| < n ==> AgreeAt(s, t, |s|);
    assert |t| < n ==> AgreeAt(s, t, |t|);
    var p, q := Prefix(s, n), Prefix(t, n);
    forall i | 0 <= i < |p| && i < |q| ensures p[i] == q[i] {
      assert AgreeAt(s, t, i);
    }
  }

  /** Trimming as you go keeps the same newest elements as trimming once at the end. */
  lemma LastNCompose<T>(a: seq<T>, b: seq<T>, n: nat)
    ensures LastN(LastN(a, n) + b, n) == LastN(a + b, n)
  {
  }

  /** The names observers report and adjustments boost sources by. */
  lemma SourcesByName()
    ensures FileWatch.Name() == "file-watch" && Git.Name() == "git" && Test.Name() == "test"
    ensures Build.Name() == "build" && User.Name() == "user" && Trigger.Name() == "trigger"
    ensures Schedule.Name() == "schedule" && TaskOutcome.Name() == "task-outcome"
  {
  }

  /** A source name holds no colon, so the first colon of a hash ends the source name. */
  lemma NameHasNoColon(s: Source)
    ensures ':' !in s.Name()
  {
  }

  lemma NameInjective(s: Source, t: Source)
    requires s.Name() == t.Name()
    ensures s == t
  {
  }

  ghost function FirstColon(s: string): nat {
    if s == [] || s[0] == ':' then 0 else 1 + FirstColon(s[1..])
  }

  lemma {:induction false} ColonEndsName(a: string, p: string)
    requires ':' !in a
    ensures FirstColon(a + ":" + p) == |a|
  {
    if a != [] {
      assert (a + ":" + p)[1..] == a[1..] + ":" + p;
      ColonEndsName(a[1..], p);
    }
  }

  lemma SplitAtColon(a: string, p: string, b: string, q: string)
    requires ':' !in a && ':' !in b
    requires a + ":" + p == b + ":" + q
    ensures a == b && p == q
  {
    var x, y := a + ":" + p, b + ":" + q;
    ColonEndsName(a, p);
    ColonEndsName(b, q);
    assert a == x[..|a|] && b == y[..|b|];
    assert p == x[|a| + 1..] && q == y[|b| + 1..];
  }

  /** Two hash strings are equal exactly when source and hashed summary are: a summary can never
      make one source pass for another. (The ids and the actionable flags may still differ.) */
  lemma TextIsFaithful(f: Fingerprint, g: Fingerprint)
    ensures f.Text() == g.Text() <==> f == g
  {
    if f.Text() == g.Text() {
      NameHasNoColon(f.source);
      NameHasNoColon(g.source);
      SplitAtColon(f.source.Name(), f.prefix, g.source.Name(), g.prefix);
      NameInjective(f.source, g.source);
    }
  }
}
