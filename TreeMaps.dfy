/**
 * java.util.TreeMap with String keys, as the result writers use it: an
 * association list kept strictly sorted by Java's String order, so that
 * `keySet()` and `values()` iterate the same entries in the same order.
 */
module TreeMaps {
  import opened Model

  /**
   * `a.compareTo(b) < 0` for Java strings: the first differing code unit
   * decides, and a proper prefix comes first.
   */
  predicate StrLess(a: string, b: string)
    decreases |a|
  {
    if |a| == 0 then |b| > 0
    else if |b| == 0 then false
    else if a[0] != b[0] then a[0] < b[0]
    else StrLess(a[1..], b[1..])
  }

  lemma {:induction false} StrLessIrreflexive(a: string)
    ensures !StrLess(a, a)
    decreases |a|
  {
    if |a| > 0 {
      StrLessIrreflexive(a[1..]);
    }
  }

  lemma {:induction false} StrLessTransitive(a: string, b: string, c: string)
    requires StrLess(a, b) && StrLess(b, c)
    ensures StrLess(a, c)
    decreases |a|
  {
    if |a| > 0 && a[0] == b[0] && b[0] == c[0] {
      StrLessTransitive(a[1..], b[1..], c[1..]);
    }
  }

  /** Any two different strings are ordered one way or the other. */
  lemma {:induction false} StrLessTotal(a: string, b: string)
    ensures a == b || StrLess(a, b) || StrLess(b, a)
    decreases |a|
  {
    if |a| > 0 && |b| > 0 && a[0] == b[0] {
      StrLessTotal(a[1..], b[1..]);
      if a[1..] == b[1..] {
        assert a == [a[0]] + a[1..] && b == [b[0]] + b[1..];
      }
    }
  }

  /** Entries strictly increasing by key: the TreeMap's iteration order, with no key twice. */
  ghost predicate Sorted<V>(m: seq<(string, V)>)
  {
    forall i, j :: 0 <= i < j < |m| ==> StrLess(m[i].0, m[j].0)
  }

  function KeySet<V>(m: seq<(string, V)>): set<string>
  {
    set i | 0 <= i < |m| :: m[i].0
  }

  /** `get(key)`: the value of the first entry with that key. */
  function Get<V>(m: seq<(string, V)>, key: string): Option<V>
    decreases |m|
  {
    if |m| == 0 then None else if m[0].0 == key then Some(m[0].1) else Get(m[1..], key)
  }

  /** `put(key, value)`: replaces the entry of `key`, or inserts one before the first greater key. */
  function Put<V>(m: seq<(string, V)>, key: string, v: V): seq<(string, V)>
    decreases |m|
  {
    if |m| == 0 then [(key, v)]
    else if m[0].0 == key then [(key, v)] + m[1..]
    else if StrLess(key, m[0].0) then [(key, v)] + m
    else [m[0]] + Put(m[1..], key, v)
  }

  /** `keySet()` in iteration order: the header row of a result file. */
  function Keys<V>(m: seq<(string, V)>): (r: seq<string>)
    ensures |r| == |m|
  {
    seq(|m|, i requires 0 <= i < |m| => m[i].0)
  }

  /** `values()` in iteration order: the data row of a result file. */
  function Values<V>(m: seq<(string, V)>): (r: seq<V>)
    ensures |r| == |m|
  {
    seq(|m|, i requires 0 <= i < |m| => m[i].1)
  }

  /** The keys of an entry followed by a map. */
  lemma KeySetCons<V>(e: (string, V), m: seq<(string, V)>)
    ensures KeySet([e] + m) == {e.0} + KeySet(m)
  {
    var r := [e] + m;
    forall x | x in KeySet(r)
      ensures x in {e.0} + KeySet(m)
    {
      var i :| 0 <= i < |r| && r[i].0 == x;
      if i > 0 {
        assert m[i - 1].0 == x;
      }
    }
    forall x | x in KeySet(m)
      ensures x in KeySet(r)
    {
      var i :| 0 <= i < |m| && m[i].0 == x;
      assert r[i + 1].0 == x;
    }
    assert r[0].0 == e.0;
  }

  /** A put adds its key to the key set and nothing else. */
  lemma {:induction false} PutKeys<V>(m: seq<(string, V)>, key: string, v: V)
    ensures KeySet(Put(m, key, v)) == KeySet(m) + {key}
    decreases |m|
  {
    if |m| == 0 {
      KeySetCons((key, v), m);
    } else {
      assert m == [m[0]] + m[1..];
      KeySetCons(m[0], m[1..]);
      if m[0].0 == key {
        KeySetCons((key, v), m[1..]);
      } else if StrLess(key, m[0].0) {
        KeySetCons((key, v), m);
      } else {
        PutKeys(m[1..], key, v);
        KeySetCons(m[0], Put(m[1..], key, v));
      }
    }
  }

  /** A put keeps the entries sorted, so keys stay unique and in order. */
  lemma {:induction false} PutSorted<V>(m: seq<(string, V)>, key: string, v: V)
    requires Sorted(m)
    ensures Sorted(Put(m, key, v))
    decreases |m|
  {
    var r := Put(m, key, v);
    if |m| == 0 {
    } else if m[0].0 == key {
      forall i, j | 0 <= i < j < |r|
        ensures StrLess(r[i].0, r[j].0)
      {
        assert r[j] == m[j];
        if i > 0 {
          assert r[i] == m[i];
        }
      }
    } else if StrLess(key, m[0].0) {
      forall i, j | 0 <= i < j < |r|
        ensures StrLess(r[i].0, r[j].0)
      {
        assert r[j] == m[j - 1];
        if i > 0 {
          assert r[i] == m[i - 1];
        } else if j > 1 {
          StrLessTransitive(key, m[0].0, m[j - 1].0);
        }
      }
    } else {
      StrLessTotal(key, m[0].0);
      var rest := Put(m[1..], key, v);
      assert Sorted(m[1..]) by {
        forall i, j | 0 <= i < j < |m[1..]|
          ensures StrLess(m[1..][i].0, m[1..][j].0)
        {
          assert m[1..][i] == m[i + 1] && m[1..][j] == m[j + 1];
        }
      }
      PutSorted(m[1..], key, v);
      PutKeys(m[1..], key, v);
      assert r == [m[0]] + rest;
      forall i, j | 0 <= i < j < |r|
        ensures StrLess(r[i].0, r[j].0)
      {
        if i == 0 {
          assert r[j].0 in KeySet(rest) by {
            assert rest[j - 1] == r[j];
          }
          if r[j].0 != key {
            assert r[j].0 in KeySet(m[1..]);
            var k :| 0 <= k < |m[1..]| && m[1..][k].0 == r[j].0;
            assert m[k + 1].0 == r[j].0;
          }
        } else {
          assert r[i] == rest[i - 1] && r[j] == rest[j - 1];
        }
      }
    }
  }

  /** After a put, `key` maps to the new value and every other key to what it mapped to before. */
  lemma {:induction false} PutGet<V>(m: seq<(string, V)>, key: string, v: V, other: string)
    requires Sorted(m)
    ensures Get(Put(m, key, v), key) == Some(v)
    ensures other != key ==> Get(Put(m, key, v), other) == Get(m, other)
    decreases |m|
  {
    if |m| > 0 && m[0].0 != key && !StrLess(key, m[0].0) {
      assert Sorted(m[1..]) by {
        forall i, j | 0 <= i < j < |m[1..]|
          ensures StrLess(m[1..][i].0, m[1..][j].0)
        {
          assert m[1..][i] == m[i + 1] && m[1..][j] == m[j + 1];
        }
      }
      PutGet(m[1..], key, v, other);
    } else if |m| > 0 && m[0].0 == key && other != key {
      GetAbsentFirst(m, other);
    }
  }

  /** In a sorted map, an entry's key does not occur again later, so looking past the first entry is the same as looking in the tail. */
  lemma GetAbsentFirst<V>(m: seq<(string, V)>, other: string)
    requires Sorted(m) && |m| > 0 && m[0].0 != other
    ensures Get(m[1..], other) == Get(m, other)
  {
  }

  /** Header and data row line up: column i of the header is the key whose value is in column i of the row. */
  lemma ColumnsAlign<V>(m: seq<(string, V)>)
    requires Sorted(m)
    ensures |Keys(m)| == |Values(m)| == |m|
    ensures forall i :: 0 <= i < |m| ==> Get(m, Keys(m)[i]) == Some(Values(m)[i])
    ensures forall i, j :: 0 <= i < j < |m| ==> StrLess(Keys(m)[i], Keys(m)[j])
  {
    forall i | 0 <= i < |m|
      ensures Get(m, Keys(m)[i]) == Some(Values(m)[i])
    {
      GetAt(m, i);
    }
  }

  lemma {:induction false} GetAt<V>(m: seq<(string, V)>, i: nat)
    requires Sorted(m) && i < |m|
    ensures Get(m, m[i].0) == Some(m[i].1)
    decreases i
  {
    if i > 0 {
      StrLessIrreflexive(m[0].0);
      assert m[0].0 != m[i].0 by {
        assert StrLess(m[0].0, m[i].0);
      }
      assert Sorted(m[1..]) by {
        forall a, b | 0 <= a < b < |m[1..]|
          ensures StrLess(m[1..][a].0, m[1..][b].0)
        {
          assert m[1..][a] == m[a + 1] && m[1..][b] == m[b + 1];
        }
      }
      GetAt(m[1..], i - 1);
      assert m[1..][i - 1] == m[i];
    }
  }

  /** A sequence of puts, in order. */
  function PutAll<V>(m: seq<(string, V)>, entries: seq<(string, V)>): seq<(string, V)>
    decreases |entries|
  {
    if |entries| == 0 then m
    else Put(PutAll(m, entries[..|entries| - 1]), entries[|entries| - 1].0, entries[|entries| - 1].1)
  }

  lemma PutAllSnoc<V>(m: seq<(string, V)>, entries: seq<(string, V)>, e: (string, V))
    ensures PutAll(m, entries + [e]) == Put(PutAll(m, entries), e.0, e.1)
  {
    assert (entries + [e])[..|entries|] == entries;
  }

  lemma {:induction false} PutAllAppend<V>(m: seq<(string, V)>, a: seq<(string, V)>, b: seq<(string, V)>)
    ensures PutAll(m, a + b) == PutAll(PutAll(m, a), b)
    decreases |b|
  {
    if |b| == 0 {
      assert a + b == a;
    } else {
      var init := b[..|b| - 1];
      PutAllAppend(m, a, init);
      assert a + b == (a + init) + [b[|b| - 1]];
      PutAllSnoc(m, a + init, b[|b| - 1]);
    }
  }

  /** Puts keep the map sorted, and its keys are the old keys plus the keys put. */
  lemma {:induction false} PutAllSorted<V>(m: seq<(string, V)>, entries: seq<(string, V)>)
    requires Sorted(m)
    ensures Sorted(PutAll(m, entries))
    ensures KeySet(PutAll(m, entries)) == KeySet(m) + KeySet(entries)
    decreases |entries|
  {
    if |entries| > 0 {
      var init := entries[..|entries| - 1];
      var e := entries[|entries| - 1];
      PutAllSorted(m, init);
      PutSorted(PutAll(m, init), e.0, e.1);
      PutKeys(PutAll(m, init), e.0, e.1);
      assert KeySet(entries) == KeySet(init) + {e.0} by {
        assert entries == init + [e];
      }
    }
  }
}
