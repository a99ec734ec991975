/** Go's `url.Values` (a map from a key to its list of values), its `Set`,
    and the specification of its `Encode`: the `key=value` pairs,
    query-escaped, in ascending order of keys and then in the order of each
    key's values, joined by `&`. */
module UrlValues {
  import opened Wrappers
  import opened GoStrings
  import opened Sorting
  import opened UrlEscape

  type Values = map<GoString, seq<GoString>>

  /** `v.Set(key, value)`: the key now has exactly the one value, whatever it
      had before; no other key changes. */
  function Set(q: Values, key: GoString, value: GoString): (r: Values)
    ensures r.Keys == q.Keys + {key}
    ensures r[key] == [value]
    ensures forall k | k in q && k != key :: r[k] == q[k]
  {
    q[key := [value]]
  }

  /** `Set` calls on different keys commute. */
  lemma SetCommutes(q: Values, a: GoString, va: GoString, b: GoString, vb: GoString)
    requires a != b
    ensures Set(Set(q, a, va), b, vb) == Set(Set(q, b, vb), a, va)
  {
    assert Set(Set(q, a, va), b, vb) == q[a := [va]][b := [vb]];
    assert Set(Set(q, b, vb), a, va) == q[b := [vb]][a := [va]];
  }

  /** A run of `Set` calls, in order. */
  function SetAll(q: Values, pairs: seq<(GoString, GoString)>): Values
    decreases |pairs|
  {
    if pairs == [] then q else SetAll(Set(q, pairs[0].0, pairs[0].1), pairs[1..])
  }

  predicate DistinctKeys(pairs: seq<(GoString, GoString)>)
  {
    forall i, j | 0 <= i < j < |pairs| :: pairs[i].0 != pairs[j].0
  }

  /** After Setting pairs with distinct keys, each of those keys holds just
      its pair's value, and every other key is as it was. */
  lemma {:induction false} SetAllContents(q: Values, pairs: seq<(GoString, GoString)>)
    requires DistinctKeys(pairs)
    ensures forall i | 0 <= i < |pairs| :: pairs[i].0 in SetAll(q, pairs) && SetAll(q, pairs)[pairs[i].0] == [pairs[i].1]
    ensures forall k :: k in SetAll(q, pairs) <==> k in q || exists i | 0 <= i < |pairs| :: pairs[i].0 == k
    ensures forall k | k in q && (forall i | 0 <= i < |pairs| :: pairs[i].0 != k) :: SetAll(q, pairs)[k] == q[k]
    decreases |pairs|
  {
    if pairs != [] {
      var q' := Set(q, pairs[0].0, pairs[0].1);
      SetAllContents(q', pairs[1..]);
      assert forall i | 0 < i < |pairs| :: pairs[i] == pairs[1..][i - 1];
    }
  }

  /** A key that the pairs Set in one order is Set, to the same value, in
      any other order of the same pairs. */
  lemma SetAllAgreesAt(q: Values, p1: seq<(GoString, GoString)>, p2: seq<(GoString, GoString)>, k: GoString)
    requires DistinctKeys(p1) && DistinctKeys(p2)
    requires multiset(p1) == multiset(p2)
    requires k in SetAll(q, p1)
    ensures k in SetAll(q, p2) && SetAll(q, p1)[k] == SetAll(q, p2)[k]
  {
    SetAllContents(q, p1);
    SetAllContents(q, p2);
    if i :| 0 <= i < |p1| && p1[i].0 == k {
      assert p1[i] in multiset(p2);
      var j :| 0 <= j < |p2| && p2[j] == p1[i];
    } else {
      forall j | 0 <= j < |p2| ensures p2[j].0 != k {
        assert p2[j] in multiset(p1);
      }
    }
  }

  /** Setting the same distinct-keyed pairs in any order builds the same
      Values. */
  lemma SetAllOrderIndependent(q: Values, p1: seq<(GoString, GoString)>, p2: seq<(GoString, GoString)>)
    requires DistinctKeys(p1) && DistinctKeys(p2)
    requires multiset(p1) == multiset(p2)
    ensures SetAll(q, p1) == SetAll(q, p2)
  {
    var r1, r2 := SetAll(q, p1), SetAll(q, p2);
    forall k | k in r1 ensures k in r2 && r1[k] == r2[k] {
      SetAllAgreesAt(q, p1, p2, k);
    }
    forall k | k in r2 ensures k in r1 {
      SetAllAgreesAt(q, p2, p1, k);
    }
  }

  /** One part of the encoding: `QueryEscape(key) + "=" + QueryEscape(value)`. */
  function Pair(key: GoString, value: GoString): (r: GoString)
    ensures '&' !in r
  {
    QueryEscape(key) + "=" + QueryEscape(value)
  }

  /** The parts for one key, one per value, in the order of the values. */
  function KeyParts(key: GoString, values: seq<GoString>): (r: seq<GoString>)
    ensures |r| == |values|
    ensures forall j | 0 <= j < |r| :: r[j] == Pair(key, values[j])
  {
    if values == [] then []
    else KeyParts(key, values[..|values| - 1]) + [Pair(key, values[|values| - 1])]
  }

  /** The parts for a list of keys, key after key. */
  function Parts(keys: seq<GoString>, q: Values): (r: seq<GoString>)
    requires forall i | 0 <= i < |keys| :: keys[i] in q
    ensures forall j | 0 <= j < |r| :: '&' !in r[j]
  {
    if keys == [] then []
    else Parts(keys[..|keys| - 1], q) + KeyParts(keys[|keys| - 1], q[keys[|keys| - 1]])
  }

  /** The specification of `v.Encode()`. */
  ghost function Encode(q: Values): GoString
  {
    var keys := SortedKeys(q.Keys);
    assert forall i | 0 <= i < |keys| :: keys[i] in q by {
      forall i | 0 <= i < |keys| ensures keys[i] in q {
        assert keys[i] in multiset(keys);
      }
    }
    Join(Parts(keys, q), "&")
  }

  /** Reading an encoding back: split at `&`, it gives the parts, in order,
      each `key=value`, and unescaping key and value gives what was Set. */
  lemma EncodeDecodes(q: Values)
    requires exists k | k in q :: q[k] != []
    ensures var keys := SortedKeys(q.Keys);
            (forall i | 0 <= i < |keys| :: keys[i] in q) &&
            Split(Encode(q), '&') == Parts(keys, q)
  {
    var keys := SortedKeys(q.Keys);
    forall i | 0 <= i < |keys| ensures keys[i] in q {
      assert keys[i] in multiset(keys);
    }
    var k :| k in q && q[k] != [];
    assert k in multiset(keys);
    var i :| 0 <= i < |keys| && keys[i] == k;
    PartsNonEmpty(keys, q, i);
    SplitJoin(Parts(keys, q), '&');
  }

  lemma {:induction false} PartsNonEmpty(keys: seq<GoString>, q: Values, i: nat)
    requires forall j | 0 <= j < |keys| :: keys[j] in q
    requires i < |keys| && q[keys[i]] != []
    ensures |Parts(keys, q)| > 0
    decreases |keys|
  {
    if i < |keys| - 1 {
      PartsNonEmpty(keys[..|keys| - 1], q, i);
    }
  }

  /** One part splits at `=` into the escaped key and the escaped value, and
      unescaping them gives the key and the value. */
  lemma PairDecodes(key: GoString, value: GoString)
    ensures Split(Pair(key, value), '=') == [QueryEscape(key), QueryEscape(value)]
    ensures QueryUnescape(QueryEscape(key)) == Some(key)
    ensures QueryUnescape(QueryEscape(value)) == Some(value)
  {
    SplitJoin([QueryEscape(key), QueryEscape(value)], '=');
    UnescapeEscape(key, QueryComponent);
    UnescapeEscape(value, QueryComponent);
  }

  /** Setting a run of pairs and then another run is Setting them all. */
  lemma {:induction false} SetAllAppend(q: Values, a: seq<(GoString, GoString)>, b: seq<(GoString, GoString)>)
    ensures SetAll(q, a + b) == SetAll(SetAll(q, a), b)
    decreases |a|
  {
    if a == [] {
      assert a + b == b;
    } else {
      assert (a + b)[1..] == a[1..] + b;
      SetAllAppend(Set(q, a[0].0, a[0].1), a[1..], b);
    }
  }

  function KeysOf(pairs: seq<(GoString, GoString)>): (r: seq<GoString>)
    ensures |r| == |pairs| && forall i | 0 <= i < |pairs| :: r[i] == pairs[i].0
  {
    seq(|pairs|, i requires 0 <= i < |pairs| => pairs[i].0)
  }

  function PairParts(pairs: seq<(GoString, GoString)>): (r: seq<GoString>)
    ensures |r| == |pairs| && forall i | 0 <= i < |pairs| :: r[i] == Pair(pairs[i].0, pairs[i].1)
  {
    seq(|pairs|, i requires 0 <= i < |pairs| => Pair(pairs[i].0, pairs[i].1))
  }

  /** A sequence without repeats holds each string of its set exactly once. */
  lemma {:induction false} DistinctMultiset(s: seq<GoString>)
    requires forall i, j | 0 <= i < j < |s| :: s[i] != s[j]
    ensures multiset(s) == multiset(set x | x in s)
    decreases |s|
  {
    if s != [] {
      var t := s[..|s| - 1];
      DistinctMultiset(t);
      assert s == t + [s[|s| - 1]];
      assert s[|s| - 1] !in t;
      assert (set x | x in s) == (set x | x in t) + {s[|s| - 1]};
    }
  }

  lemma {:induction false} PartsOfPairs(pairs: seq<(GoString, GoString)>, q: Values, n: nat)
    requires n <= |pairs|
    requires forall i | 0 <= i < |pairs| :: pairs[i].0 in q && q[pairs[i].0] == [pairs[i].1]
    ensures Parts(KeysOf(pairs)[..n], q) == PairParts(pairs[..n])
    decreases n
  {
    if n > 0 {
      PartsOfPairs(pairs, q, n - 1);
      assert KeysOf(pairs)[..n][..n - 1] == KeysOf(pairs)[..n - 1];
      assert PairParts(pairs[..n]) == PairParts(pairs[..n - 1]) + [Pair(pairs[n - 1].0, pairs[n - 1].1)];
    }
  }

  /** Setting pairs with distinct keys on empty Values gives exactly
      their keys, each holding its pair's value. */
  lemma SetAllKeys(pairs: seq<(GoString, GoString)>)
    requires DistinctKeys(pairs)
    ensures SetAll(map[], pairs).Keys == set x | x in KeysOf(pairs)
    ensures forall i | 0 <= i < |pairs| :: SetAll(map[], pairs)[pairs[i].0] == [pairs[i].1]
  {
    SetAllContents(map[], pairs);
    var q := SetAll(map[], pairs);
    var keys := KeysOf(pairs);
    forall k | k in q ensures k in keys {
      var i :| 0 <= i < |pairs| && pairs[i].0 == k;
      assert keys[i] == k;
    }
  }

  /** Pairs Set with distinct keys in ascending order: the sorted keys of
      the result are the pairs' keys in their order. */
  lemma SortedKeysOfPairs(pairs: seq<(GoString, GoString)>)
    requires DistinctKeys(pairs) && Sorted(KeysOf(pairs))
    ensures SortedKeys(SetAll(map[], pairs).Keys) == KeysOf(pairs)
  {
    var keys := KeysOf(pairs);
    SetAllKeys(pairs);
    DistinctMultiset(keys);
    SortedUnique(keys, SortedKeys(SetAll(map[], pairs).Keys));
  }

  /** The encoding of Values built by Setting pairs whose keys are distinct
      and already in ascending order is the pairs' `key=value` parts in that
      order, joined by `&`. */
  lemma EncodeSortedPairs(pairs: seq<(GoString, GoString)>)
    requires DistinctKeys(pairs) && Sorted(KeysOf(pairs))
    ensures Encode(SetAll(map[], pairs)) == Join(PairParts(pairs), "&")
  {
    var q := SetAll(map[], pairs);
    var keys := KeysOf(pairs);
    SortedKeysOfPairs(pairs);
    SetAllKeys(pairs);
    PartsOfPairs(pairs, q, |pairs|);
    assert keys[..|pairs|] == keys && pairs[..|pairs|] == pairs;
  }
}
