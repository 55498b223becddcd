/** What one `collect` does, told without its loops: what arrives and in which order, what of it is
    returned, and what is left behind. */
module Collecting {
  import opened Observations
  import opened OrderedMaps
  import opened Engine
  import Recency
  import Selections
  import StableSort

  // ---------- what the observers report ----------

  /** What the i-th observer reported; one that throws reported nothing. */
  ghost function ReportOf(reports: seq<Option<seq<Observation>>>, i: nat): seq<Observation>
    requires i < |reports|
  {
    if reports[i].Some? then reports[i].value else []
  }

  /** `all` is every report end to end: the i-th begins where the one before it ends, whole and in its own
      order, and there is nothing before the first, between two, or after the last. */
  ghost predicate LaidOut(all: seq<Observation>, reports: seq<Option<seq<Observation>>>, starts: seq<nat>) {
    && |starts| == |reports| + 1 && starts[0] == 0 && starts[|reports|] == |all|
    && forall i :: 0 <= i < |reports| ==> InPlace(all, reports, starts, i)
  }

  ghost predicate InPlace(all: seq<Observation>, reports: seq<Option<seq<Observation>>>, starts: seq<nat>, i: nat)
    requires i < |reports| == |starts| - 1
  {
    && starts[i + 1] == starts[i] + |ReportOf(reports, i)| && starts[i + 1] <= |all|
    && all[starts[i]..starts[i + 1]] == ReportOf(reports, i)
  }

  /** NO REPORT IS LOST, SHORTENED OR REORDERED. */
  lemma {:induction false} GatheredExactly(reports: seq<Option<seq<Observation>>>) returns (starts: seq<nat>)
    ensures LaidOut(Gathered(reports), reports, starts)
  {
    if reports == [] {
      starts := [0];
    } else {
      var front, n := reports[..|reports| - 1], |reports| - 1;
      var before := GatheredExactly(front);
      var all, last := Gathered(front), ReportOf(reports, n);
      starts := before + [|all| + |last|];
      assert Gathered(reports) == all + last;
      forall i | 0 <= i < |reports| ensures InPlace(all + last, reports, starts, i) {
        if i < n {
          assert InPlace(all, front, before, i);
          assert (all + last)[starts[i]..starts[i + 1]] == all[starts[i]..starts[i + 1]];
        } else {
          assert (all + last)[|all|..|all| + |last|] == last;
        }
      }
    }
  }

  lemma {:induction false} StartsGrow(all: seq<Observation>, reports: seq<Option<seq<Observation>>>, starts: seq<nat>,
      i: nat, j: nat)
    requires LaidOut(all, reports, starts) && i <= j < |starts|
    ensures starts[i] <= starts[j] <= |all|
    decreases j - i
  {
    if i < j {
      StartsGrow(all, reports, starts, i, j - 1);
      assert InPlace(all, reports, starts, j - 1);
    }
    if i == j < |reports| {
      assert InPlace(all, reports, starts, j);
    }
  }

  /** The layout leaves no choice. */
  lemma {:induction false} LaidOutOnce(all: seq<Observation>, all': seq<Observation>,
      reports: seq<Option<seq<Observation>>>, starts: seq<nat>, starts': seq<nat>, n: nat)
    requires LaidOut(all, reports, starts) && LaidOut(all', reports, starts') && n <= |reports|
    ensures starts[n] == starts'[n] <= |all| && starts[n] <= |all'|
    ensures all[..starts[n]] == all'[..starts[n]]
  {
    StartsGrow(all, reports, starts, n, |reports|);
    StartsGrow(all', reports, starts', n, |reports|);
    if n > 0 {
      LaidOutOnce(all, all', reports, starts, starts', n - 1);
      assert InPlace(all, reports, starts, n - 1) && InPlace(all', reports, starts', n - 1);
      assert all[..starts[n]] == all[..starts[n - 1]] + all[starts[n - 1]..starts[n]];
      assert all'[..starts[n]] == all'[..starts[n - 1]] + all'[starts[n - 1]..starts[n]];
    }
  }

  /** The j-th observation of the i-th report has its place. */
  lemma ReportedAt(all: seq<Observation>, reports: seq<Option<seq<Observation>>>, starts: seq<nat>, i: nat, j: nat)
    requires LaidOut(all, reports, starts) && i < |reports| && j < |ReportOf(reports, i)|
    ensures starts[i] + j < |all| && all[starts[i] + j] == ReportOf(reports, i)[j]
  {
    assert InPlace(all, reports, starts, i);
    assert all[starts[i]..starts[i + 1]][j] == ReportOf(reports, i)[j];
  }

  // ---------- what falls due ----------

  /** The filed observations in the order they were filed. */
  ghost function OnFile(table: OrderedMap<Deferral>): seq<Observation>
    requires table.Valid()
  {
    seq(|table.keys|, i requires 0 <= i < |table.keys| => table.items[table.keys[i]].observation)
  }

  /** Where those stand whose time has come. */
  ghost function DuePlaces(table: OrderedMap<Deferral>, n: nat, now: int): set<int>
    requires table.Valid() && n <= |table.keys|
  {
    set i | 0 <= i < n && table.items[table.keys[i]].recheckAt <= now
  }

  lemma OneMorePlace(table: OrderedMap<Deferral>, n: nat, now: int)
    requires table.Valid() && 0 < n <= |table.keys|
    ensures var due := table.items[table.keys[n - 1]].recheckAt <= now;
            DuePlaces(table, n, now) == if due then DuePlaces(table, n - 1, now) + {n - 1}
                                        else DuePlaces(table, n - 1, now)
    ensures OnFile(table)[..n] == OnFile(table)[..n - 1] + [table.items[table.keys[n - 1]].observation]
    ensures |OnFile(table)[..n - 1]| == n - 1
  {
  }

  /** What is due arrives once, in the order of the table. */
  lemma {:induction false} DuePicks(table: OrderedMap<Deferral>, n: nat, now: int)
    requires table.Valid() && n <= |table.keys|
    ensures Selections.PicksOut(DueAmong(table.keys, n, table.items, now), OnFile(table)[..n],
                                DuePlaces(table, n, now))
  {
    var keys, items := table.keys, table.items;
    if n == 0 {
      Selections.NothingPicked(OnFile(table)[..0]);
      assert DuePlaces(table, 0, now) == {};
    } else {
      DuePicks(table, n - 1, now);
      OneMorePlace(table, n, now);
      Selections.PickedOneMore(DueAmong(keys, n - 1, items, now), OnFile(table)[..n - 1], DuePlaces(table, n - 1, now),
                               items[keys[n - 1]].observation, items[keys[n - 1]].recheckAt <= now,
                               DueAmong(keys, n, items, now), DuePlaces(table, n, now));
    }
  }

  // ---------- what is returned ----------

  /** Nobody heard of it lately: no observation that reads the same (its source, and its summary up to the
      hundredth character) was returned in the last sixty seconds, or stands ahead of it. */
  ghost predicate News(all: seq<Observation>, i: nat, hashes: map<Fingerprint, int>, now: int)
    requires i < |all|
  {
    var o := all[i];
    var hash := Fingerprint(o.source, if |o.summary| < 100 then o.summary else o.summary[..100]);
    && (hash in hashes ==> hashes[hash] == 0 || hashes[hash] + 60_000 <= now)
    && (forall j :: 0 <= j < i ==> all[j].source == o.source ==> !SameStart(all[j].summary, o.summary, 100))
  }

  lemma NewsIsSurvival(all: seq<Observation>, i: nat, hashes: map<Fingerprint, int>, now: int)
    requires i < |all|
    ensures News(all, i, hashes, now) <==> Survives(all, i, hashes, now)
  {
    var o := all[i];
    assert |o.summary| == 100 ==> o.summary[..100] == o.summary;
    forall j | 0 <= j < i
      ensures DedupHash(all[j]) != DedupHash(o) <==>
              (all[j].source == o.source ==> !SameStart(all[j].summary, o.summary, 100)) {
      PrintsAlike(all[j], o, 100);
    }
  }

  ghost function NewsPlaces(all: seq<Observation>, n: nat, hashes: map<Fingerprint, int>, now: int): set<int>
    requires n <= |all|
  {
    set i: nat | i < n && News(all, i, hashes, now)
  }

  lemma OneMoreNews(all: seq<Observation>, n: nat, hashes: map<Fingerprint, int>, now: int)
    requires 0 < n <= |all|
    ensures NewsPlaces(all, n, hashes, now) == if Survives(all, n - 1, hashes, now)
                                               then NewsPlaces(all, n - 1, hashes, now) + {n - 1}
                                               else NewsPlaces(all, n - 1, hashes, now)
    ensures all[..n] == all[..n - 1] + [all[n - 1]] && |all[..n - 1]| == n - 1
  {
    NewsIsSurvival(all, n - 1, hashes, now);
  }

  lemma {:induction false} NewsPicked(all: seq<Observation>, n: nat, hashes: map<Fingerprint, int>, now: int)
    requires n <= |all|
    ensures Selections.PicksOut(Survivors(all, n, hashes, now), all[..n], NewsPlaces(all, n, hashes, now))
  {
    if n == 0 {
      Selections.NothingPicked(all[..0]);
      assert NewsPlaces(all, 0, hashes, now) == {};
    } else {
      NewsPicked(all, n - 1, hashes, now);
      OneMoreNews(all, n, hashes, now);
      Selections.PickedOneMore(Survivors(all, n - 1, hashes, now), all[..n - 1], NewsPlaces(all, n - 1, hashes, now),
                               all[n - 1], Survives(all, n - 1, hashes, now), Survivors(all, n, hashes, now),
                               NewsPlaces(all, n, hashes, now));
    }
  }

  // ---------- what stays on file ----------

  ghost function LeftKeys(table: OrderedMap<Deferral>, n: nat, now: int): seq<string>
    requires table.Valid() && n <= |table.keys|
  {
    if n == 0 then []
    else
      LeftKeys(table, n - 1, now)
      + (if now < table.items[table.keys[n - 1]].recheckAt then [table.keys[n - 1]] else [])
  }

  lemma {:induction false} LeftAmong(table: OrderedMap<Deferral>, n: nat, now: int)
    requires table.Valid() && n <= |table.keys|
    ensures forall k :: k in LeftKeys(table, n, now) ==> k in table.keys[..n]
  {
    if n > 0 {
      LeftAmong(table, n - 1, now);
      assert table.keys[..n] == table.keys[..n - 1] + [table.keys[n - 1]];
    }
  }

  /** Draining as one iterates leaves the rest where it stood. */
  lemma {:induction false} DrainedKeys(table: OrderedMap<Deferral>, n: nat, now: int)
    requires table.Valid() && n <= |table.keys|
    ensures DrainedUpTo(table, n, now).keys == LeftKeys(table, n, now) + table.keys[n..]
  {
    if n == 0 {
      assert [] + table.keys[0..] == table.keys;
    } else {
      DrainedKeys(table, n - 1, now);
      LeftApart(table, n, now);
      OneMoreDrained(table, n, now, table.keys[n - 1], LeftKeys(table, n - 1, now), table.keys[n..],
                     DrainedUpTo(table, n - 1, now));
    }
  }

  lemma LeftApart(table: OrderedMap<Deferral>, n: nat, now: int)
    requires table.Valid() && 0 < n <= |table.keys|
    ensures table.keys[n - 1] !in LeftKeys(table, n - 1, now) && table.keys[n - 1] !in table.keys[n..]
    ensures table.keys[n - 1..] == [table.keys[n - 1]] + table.keys[n..]
  {
    LeftAmong(table, n - 1, now);
  }

  lemma OneMoreDrained(table: OrderedMap<Deferral>, n: nat, now: int, k: string, left: seq<string>, rest: seq<string>,
      r: OrderedMap<Deferral>)
    requires table.Valid() && 0 < n <= |table.keys| && k == table.keys[n - 1]
    requires left == LeftKeys(table, n - 1, now) && r == DrainedUpTo(table, n - 1, now)
    requires r.keys == left + ([k] + rest) && k !in left && k !in rest
    ensures DrainedUpTo(table, n, now).keys == LeftKeys(table, n, now) + rest
  {
    assert left + ([k] + rest) == left + [k] + rest;
    WithoutThat(left, k, rest);
    assert k in table.items;
  }

  ghost function LeftPlaces(table: OrderedMap<Deferral>, n: nat, now: int): set<int>
    requires table.Valid() && n <= |table.keys|
  {
    set i | 0 <= i < n && now < table.items[table.keys[i]].recheckAt
  }

  lemma OneMoreLeft(table: OrderedMap<Deferral>, n: nat, now: int)
    requires table.Valid() && 0 < n <= |table.keys|
    ensures var stays := now < table.items[table.keys[n - 1]].recheckAt;
            LeftPlaces(table, n, now) == if stays then LeftPlaces(table, n - 1, now) + {n - 1}
                                         else LeftPlaces(table, n - 1, now)
    ensures table.keys[..n] == table.keys[..n - 1] + [table.keys[n - 1]] && |table.keys[..n - 1]| == n - 1
  {
  }

  lemma {:induction false} LeftPicks(table: OrderedMap<Deferral>, n: nat, now: int)
    requires table.Valid() && n <= |table.keys|
    ensures Selections.PicksOut(LeftKeys(table, n, now), table.keys[..n], LeftPlaces(table, n, now))
  {
    if n == 0 {
      Selections.NothingPicked(table.keys[..0]);
      assert LeftPlaces(table, 0, now) == {};
    } else {
      LeftPicks(table, n - 1, now);
      OneMoreLeft(table, n, now);
      var k := table.keys[n - 1];
      Selections.PickedOneMore(LeftKeys(table, n - 1, now), table.keys[..n - 1], LeftPlaces(table, n - 1, now), k,
                               now < table.items[k].recheckAt, LeftKeys(table, n, now), LeftPlaces(table, n, now));
    }
  }

  // ---------- the whole collect ----------

  /** What arrives: the queue, then what is due in the order it was filed, then the reports. */
  ghost predicate Arrived(all: seq<Observation>, e: EngineState, reports: seq<Option<seq<Observation>>>, now: int,
      due: seq<Observation>, reported: seq<Observation>, starts: seq<nat>)
    requires e.deferred.Valid()
  {
    && all == e.pending + due + reported
    && Selections.PicksOut(due, OnFile(e.deferred), DuePlaces(e.deferred, |e.deferred.keys|, now))
    && LaidOut(reported, reports, starts)
  }

  lemma ArrivedExactly(e: EngineState, reports: seq<Option<seq<Observation>>>, now: int)
    returns (due: seq<Observation>, reported: seq<Observation>, starts: seq<nat>)
    requires e.deferred.Valid()
    ensures Arrived(Arrivals(e, reports, now), e, reports, now, due, reported, starts)
  {
    due, reported := Due(e.deferred, now), Gathered(reports);
    starts := GatheredExactly(reports);
    DuePicks(e.deferred, |e.deferred.keys|, now);
    assert OnFile(e.deferred)[..|e.deferred.keys|] == OnFile(e.deferred);
  }

  /** What is returned: the news among the arrivals, highest priority first and otherwise as they came;
      the rest of them is suppressed. */
  ghost predicate Returned(h: Harvest, all: seq<Observation>, hashes: map<Fingerprint, int>, now: int,
      news: seq<Observation>) {
    && Selections.PicksOut(news, all, NewsPlaces(all, |all|, hashes, now))
    && multiset(h.batch) == multiset(news) && StableSort.Descending(h.batch)
    && (forall p :: StableSort.Level(h.batch, p) == StableSort.Level(news, p))
    && multiset(all) == multiset(h.batch) + multiset(h.suppressed)
  }

  lemma PrunedSurvivors(all: seq<Observation>, n: nat, hashes: map<Fingerprint, int>, now: int,
      pruned: map<Fingerprint, int>)
    requires n <= |all| && pruned == Recency.Prune(hashes, now, DEDUP_WINDOW_MS)
    ensures Survivors(all, n, pruned, now) == Survivors(all, n, hashes, now)
  {
    if n > 0 {
      PrunedSurvivors(all, n - 1, hashes, now, pruned);
      assert SeenRecently(pruned, DedupHash(all[n - 1]), now) == SeenRecently(hashes, DedupHash(all[n - 1]), now);
    }
  }

  lemma ReturnedExactly(e: EngineState, reports: seq<Option<seq<Observation>>>, now: int, h: Harvest)
    returns (news: seq<Observation>)
    requires now > 0 && h == Collect(e, reports, now)
    ensures Returned(h, Arrivals(e, reports, now), e.recentHashes, now, news)
  {
    var all, pruned := Arrivals(e, reports, now), Recency.Prune(e.recentHashes, now, DEDUP_WINDOW_MS);
    news := Sift(all, pruned, now).kept;
    SiftExact(all, pruned, now);
    PrunedSurvivors(all, |all|, e.recentHashes, now, pruned);
    NewsPicked(all, |all|, e.recentHashes, now);
    assert all[..|all|] == all;
    SiftSplits(all, pruned, now);
    StableSort.SortCorrect(news);
  }

  /** What stays: of the file what is not due, in its order; of the history the newest hundred; of the queue
      nothing. */
  ghost predicate LeftBehind(h: Harvest, e: EngineState, now: int)
    requires e.deferred.Valid()
  {
    && h.engine.pending == []
    && Selections.PicksOut(h.engine.deferred.keys, e.deferred.keys,
                           LeftPlaces(e.deferred, |e.deferred.keys|, now))
    && (forall k :: k in h.engine.deferred.items <==> k in h.engine.deferred.keys)
    && (forall k :: k in h.engine.deferred.keys ==> h.engine.deferred.items[k] == e.deferred.items[k])
    && |h.engine.history| == (if |e.history| + |h.batch| < 100 then |e.history| + |h.batch| else 100)
    && h.engine.history == (e.history + h.batch)[|e.history| + |h.batch| - |h.engine.history|..]
  }

  lemma LeftExactly(e: EngineState, reports: seq<Option<seq<Observation>>>, now: int, h: Harvest)
    requires e.deferred.Valid() && h == Collect(e, reports, now)
    ensures LeftBehind(h, e, now)
  {
    DrainExact(e.deferred, now);
    LeftInOrder(e.deferred, now);
  }

  lemma LeftInOrder(table: OrderedMap<Deferral>, now: int)
    requires table.Valid()
    ensures Selections.PicksOut(Drained(table, now).keys, table.keys, LeftPlaces(table, |table.keys|, now))
  {
    var keys := table.keys;
    DrainedKeys(table, |keys|, now);
    LeftPicks(table, |keys|, now);
    assert keys[..|keys|] == keys && keys[|keys|..] == [];
    assert LeftKeys(table, |keys|, now) + [] == LeftKeys(table, |keys|, now);
  }

  /** WHAT A COLLECT DOES. The queue arrives, then what is due, then every report of every observer that did
      not throw, whole and in order, and nothing else; the news of it is returned, highest priority first;
      the rest of it is suppressed; and what is not due is all that stays. */
  lemma CollectExactly(e: EngineState, reports: seq<Option<seq<Observation>>>, now: int, h: Harvest)
    returns (all: seq<Observation>, due: seq<Observation>, reported: seq<Observation>, starts: seq<nat>,
             news: seq<Observation>)
    requires e.deferred.Valid() && now > 0 && h == Collect(e, reports, now)
    ensures Arrived(all, e, reports, now, due, reported, starts)
    ensures Returned(h, all, e.recentHashes, now, news)
    ensures LeftBehind(h, e, now)
  {
    all := Arrivals(e, reports, now);
    due, reported, starts := ArrivedExactly(e, reports, now);
    news := ReturnedExactly(e, reports, now, h);
    LeftExactly(e, reports, now, h);
  }

  /** Of every report each observation is returned or suppressed. */
  lemma ReportsAreCollected(e: EngineState, reports: seq<Option<seq<Observation>>>, now: int, h: Harvest, i: nat,
      j: nat)
    requires e.deferred.Valid() && now > 0 && h == Collect(e, reports, now)
    requires i < |reports| && reports[i].Some? && j < |reports[i].value|
    ensures reports[i].value[j] in h.batch || reports[i].value[j] in h.suppressed
  {
    var all, due, reported, starts, news := CollectExactly(e, reports, now, h);
    ReportedAt(reported, reports, starts, i, j);
    var o := reports[i].value[j];
    assert o in reported;
    assert o in all;
    assert multiset(all)[o] > 0;
  }
}
