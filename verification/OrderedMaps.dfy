/** A JavaScript `Map` keyed by strings: iteration follows insertion, and setting a key that is
    already there keeps its place. */
module OrderedMaps {
  import Selections

  datatype OrderedMap<V> = OrderedMap(keys: seq<string>, items: map<string, V>) {
    ghost predicate Valid() {
      && NoRepeats(keys)
      && (forall k :: k in keys <==> k in items)
    }

    function Set(k: string, v: V): OrderedMap<V> {
      OrderedMap(if k in items then keys else keys + [k], items[k := v])
    }

    function Delete(k: string): OrderedMap<V> {
      OrderedMap(Without(keys, k), items - {k})
    }
  }

  ghost predicate NoRepeats(keys: seq<string>) {
    forall i, j :: 0 <= i < j < |keys| ==> keys[i] != keys[j]
  }

  function Without(keys: seq<string>, k: string): (r: seq<string>)
    ensures |r| <= |keys|
  {
    WithoutUpTo(keys, |keys|, k)
  }

  function WithoutUpTo(keys: seq<string>, n: nat, k: string): (r: seq<string>)
    requires n <= |keys|
    ensures |r| <= n
  {
    if n == 0 then []
    else WithoutUpTo(keys, n - 1, k) + (if keys[n - 1] == k then [] else [keys[n - 1]])
  }

  lemma {:induction false} WithoutMembers(keys: seq<string>, n: nat, k: string)
    requires n <= |keys|
    ensures forall x :: x in WithoutUpTo(keys, n, k) <==> x in keys[..n] && x != k
  {
    if n > 0 {
      assert keys[..n] == keys[..n - 1] + [keys[n - 1]];
      WithoutMembers(keys, n - 1, k);
    }
  }

  lemma {:induction false} WithoutDistinct(keys: seq<string>, n: nat, k: string)
    requires NoRepeats(keys) && n <= |keys|
    ensures NoRepeats(WithoutUpTo(keys, n, k))
  {
    if n > 0 {
      WithoutDistinct(keys, n - 1, k);
      WithoutMembers(keys, n - 1, k);
      assert keys[n - 1] !in keys[..n - 1];
    }
  }

  lemma SetValid<V>(m: OrderedMap<V>, k: string, v: V)
    requires m.Valid()
    ensures m.Set(k, v).Valid()
  {
  }

  /** Setting an entry moves no other, and not its own if it had one; a new one stands last. */
  lemma SetKeepsPlaces<V>(m: OrderedMap<V>, k: string, v: V)
    requires m.Valid()
    ensures forall i :: 0 <= i < |m.keys| ==> i < |m.Set(k, v).keys| && m.Set(k, v).keys[i] == m.keys[i]
    ensures forall x :: x in m.Set(k, v).keys <==> x in m.keys || x == k
    ensures m.Set(k, v).items == m.items[k := v]
  {
  }

  /** Where the others stand. */
  ghost function Others(keys: seq<string>, n: nat, k: string): set<int>
    requires n <= |keys|
  {
    set i | 0 <= i < n && keys[i] != k
  }

  /** Deleting a key leaves the others in their order. */
  lemma {:induction false} WithoutPicks(keys: seq<string>, n: nat, k: string)
    requires n <= |keys|
    ensures Selections.PicksOut(WithoutUpTo(keys, n, k), keys[..n], Others(keys, n, k))
  {
    if n == 0 {
      Selections.NothingPicked(keys[..0]);
      assert Others(keys, 0, k) == {};
    } else {
      WithoutPicks(keys, n - 1, k);
      OneMoreOther(keys, n, k);
      Selections.PickedOneMore(WithoutUpTo(keys, n - 1, k), keys[..n - 1], Others(keys, n - 1, k), keys[n - 1],
                               keys[n - 1] != k, WithoutUpTo(keys, n, k), Others(keys, n, k));
    }
  }

  lemma OneMoreOther(keys: seq<string>, n: nat, k: string)
    requires 0 < n <= |keys|
    ensures Others(keys, n, k) == if keys[n - 1] == k then Others(keys, n - 1, k) else Others(keys, n - 1, k) + {n - 1}
    ensures keys[..n] == keys[..n - 1] + [keys[n - 1]] && |keys[..n - 1]| == n - 1
  {
  }

  lemma {:induction false} WithoutHole(a: seq<string>, k: string, b: seq<string>, n: nat)
    requires k !in a && k !in b && n <= |a| + 1 + |b|
    ensures WithoutUpTo(a + [k] + b, n, k) == if n <= |a| then a[..n] else a + b[..n - |a| - 1]
  {
    if n > 0 {
      WithoutHole(a, k, b, n - 1);
      if n <= |a| {
        assert (a + [k] + b)[n - 1] == a[n - 1] && a[n - 1] in a;
      } else if n > |a| + 1 {
        assert (a + [k] + b)[n - 1] == b[n - |a| - 2] && b[n - |a| - 2] in b;
      }
    }
  }

  lemma WithoutThat(a: seq<string>, k: string, b: seq<string>)
    requires k !in a && k !in b
    ensures Without(a + [k] + b, k) == a + b
  {
    WithoutHole(a, k, b, |a| + 1 + |b|);
    assert b[..|b|] == b;
    assert a[..|a|] == a;
  }

  lemma DeleteValid<V>(m: OrderedMap<V>, k: string)
    requires m.Valid()
    ensures m.Delete(k).Valid()
  {
    WithoutMembers(m.keys, |m.keys|, k);
    WithoutDistinct(m.keys, |m.keys|, k);
    assert m.keys[..|m.keys|] == m.keys;
  }
}
