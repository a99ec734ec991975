/** `sort.Strings`: Go's byte-wise string order, an in-place sort of a slice
    of strings, and the fact that makes the sorted result canonical: two
    sorted arrangements of the same strings are the same sequence. */
module Sorting {
  import opened GoStrings

  /** Go's `a <= b` on strings: lexicographic on bytes, a proper prefix
      first. */
  predicate Leq(a: GoString, b: GoString)
  {
    |a| == 0 || (|b| != 0 && (a[0] < b[0] || (a[0] == b[0] && Leq(a[1..], b[1..]))))
  }

  lemma {:induction false} LeqTotal(a: GoString, b: GoString)
    ensures Leq(a, b) || Leq(b, a)
  {
    if |a| != 0 && |b| != 0 && a[0] == b[0] {
      LeqTotal(a[1..], b[1..]);
    }
  }

  lemma {:induction false} LeqAntisymmetric(a: GoString, b: GoString)
    requires Leq(a, b) && Leq(b, a)
    ensures a == b
  {
    if |a| != 0 && |b| != 0 {
      LeqAntisymmetric(a[1..], b[1..]);
      assert a == [a[0]] + a[1..] && b == [b[0]] + b[1..];
    }
  }

  lemma {:induction false} LeqTransitive(a: GoString, b: GoString, c: GoString)
    requires Leq(a, b) && Leq(b, c)
    ensures Leq(a, c)
  {
    if |a| != 0 && |b| != 0 && |c| != 0 && a[0] == b[0] == c[0] {
      LeqTransitive(a[1..], b[1..], c[1..]);
    }
  }

  /** Two strings with a common prefix are ordered by what follows it. */
  lemma {:induction false} LeqAfterPrefix(p: GoString, a: GoString, b: GoString)
    requires |a| > 0 && |b| > 0 && a[0] < b[0]
    ensures Leq(p + a, p + b) && !Leq(p + b, p + a)
  {
    if p != [] {
      assert (p + a)[1..] == p[1..] + a;
      assert (p + b)[1..] == p[1..] + b;
      LeqAfterPrefix(p[1..], a, b);
    }
  }

  /** Each string is at most its right neighbour. */
  ghost predicate Sorted(s: seq<GoString>)
  {
    forall i | 0 < i < |s| :: Leq(s[i - 1], s[i])
  }

  /** In a sorted sequence every string is at most each string after it. */
  lemma {:induction false} SortedLeq(s: seq<GoString>, i: nat, j: nat)
    requires Sorted(s) && i <= j < |s|
    ensures Leq(s[i], s[j])
    decreases j - i
  {
    if i == j {
      LeqTotal(s[i], s[i]);
    } else {
      SortedLeq(s, i + 1, j);
      LeqTransitive(s[i], s[i + 1], s[j]);
    }
  }

  /** A sorted sequence whose neighbours differ holds no string twice. */
  lemma StrictlySortedDistinct(s: seq<GoString>)
    requires Sorted(s)
    requires forall i | 0 < i < |s| :: s[i - 1] != s[i]
    ensures forall i, j | 0 <= i < j < |s| :: s[i] != s[j]
  {
    forall i, j | 0 <= i < j < |s| ensures s[i] != s[j] {
      SortedLeq(s, i + 1, j);
      if s[i] == s[j] {
        LeqAntisymmetric(s[i], s[i + 1]);
      }
    }
  }

  /** `sort.Strings(a)`: sorts the slice in place. The result is sorted and
      holds the same strings as before, each as often as before. */
  method SortStrings(a: array<GoString>)
    modifies a
    ensures Sorted(a[..])
    ensures multiset(a[..]) == old(multiset(a[..]))
  {
    if a.Length == 0 {
      return;
    }
    var i := 1;
    while i < a.Length
      invariant 1 <= i <= a.Length
      invariant Sorted(a[..i])
      invariant multiset(a[..]) == old(multiset(a[..]))
    {
      InsertIntoPrefix(a, i);
      i := i + 1;
    }
    assert a[..a.Length] == a[..];
  }

  /** One step of the insertion sort: the string at `i` is swapped leftwards
      into the sorted prefix before it, which then extends through `i`. */
  method InsertIntoPrefix(a: array<GoString>, i: int)
    requires 0 < i < a.Length && Sorted(a[..i])
    modifies a
    ensures Sorted(a[..i + 1])
    ensures multiset(a[..]) == old(multiset(a[..]))
  {
    var j := i;
    while j > 0 && !Leq(a[j - 1], a[j])
      invariant 0 <= j <= i
      invariant forall k | 0 < k <= i && k != j :: Leq(a[k - 1], a[k])
      invariant 0 < j < i ==> Leq(a[j - 1], a[j + 1])
      invariant multiset(a[..]) == old(multiset(a[..]))
    {
      Swap(a, j);
      j := j - 1;
    }
    assert forall k | 0 < k <= i :: Leq(a[k - 1], a[k]);
  }

  /** Swaps a string with its left neighbour when it is the smaller. */
  method Swap(a: array<GoString>, j: int)
    requires 0 < j < a.Length && !Leq(a[j - 1], a[j])
    modifies a
    ensures a[j - 1] == old(a[j]) && a[j] == old(a[j - 1]) && Leq(a[j - 1], a[j])
    ensures forall k | 0 <= k < a.Length && k != j - 1 && k != j :: a[k] == old(a[k])
    ensures multiset(a[..]) == old(multiset(a[..]))
  {
    LeqTotal(a[j - 1], a[j]);
    a[j - 1], a[j] := a[j], a[j - 1];
  }

  /** The first string of a sorted sequence is at most each of its strings. */
  lemma {:induction false} SortedHeadIsLeast(s: seq<GoString>, x: GoString)
    requires Sorted(s) && x in s
    ensures Leq(s[0], x)
    decreases |s|
  {
    if s[0] == x {
      LeqTotal(x, x);
    } else {
      assert x in s[1..];
      SortedHeadIsLeast(s[1..], x);
      LeqTransitive(s[0], s[1], x);
    }
  }

  /** A sorted arrangement is determined by its multiset of strings: however
      the strings were first collected, sorting them gives one result. */
  lemma {:induction false} SortedUnique(a: seq<GoString>, b: seq<GoString>)
    requires Sorted(a) && Sorted(b)
    requires multiset(a) == multiset(b)
    ensures a == b
    decreases |a|
  {
    if |a| == 0 {
      assert |multiset(b)| == 0;
    } else {
      assert |b| != 0 by {
        assert a[0] in multiset(b);
      }
      SameHeads(a, b);
      SortedUnique(a[1..], b[1..]);
      assert a == [a[0]] + a[1..] && b == [b[0]] + b[1..];
    }
  }

  /** Two non-empty sorted arrangements of the same strings start with the
      same string, and what follows holds the same strings. */
  lemma SameHeads(a: seq<GoString>, b: seq<GoString>)
    requires Sorted(a) && Sorted(b) && |a| > 0 && |b| > 0
    requires multiset(a) == multiset(b)
    ensures a[0] == b[0]
    ensures multiset(a[1..]) == multiset(b[1..])
  {
    assert a[0] == b[0] by {
      assert b[0] in multiset(a) && a[0] in multiset(b);
      SortedHeadIsLeast(a, b[0]);
      SortedHeadIsLeast(b, a[0]);
      LeqAntisymmetric(a[0], b[0]);
    }
    TailMultiset(a);
    TailMultiset(b);
  }

  lemma TailMultiset(s: seq<GoString>)
    requires |s| > 0
    ensures multiset(s[1..]) == multiset(s) - multiset{s[0]}
  {
    assert s == [s[0]] + s[1..];
  }

  /** Some string of a non-empty finite set is at most all the others. */
  lemma {:induction false} LeastExists(s: set<GoString>)
    requires s != {}
    ensures exists m :: m in s && forall x | x in s :: Leq(m, x)
    decreases s
  {
    var y :| y in s;
    if s == {y} {
      LeqTotal(y, y);
      assert forall x | x in s :: Leq(y, x);
    } else {
      LeastExists(s - {y});
      var m :| m in s - {y} && forall x | x in s - {y} :: Leq(m, x);
      var least := LeastWithOneMore(s, m, y);
    }
  }

  /** If `m` is least among a set's strings other than `y`, the least string
      of the whole set is `m` or `y`. */
  lemma LeastWithOneMore(s: set<GoString>, m: GoString, y: GoString) returns (least: GoString)
    requires y in s && m in s - {y} && forall x | x in s - {y} :: Leq(m, x)
    ensures least in s && forall x | x in s :: Leq(least, x)
  {
    LeqTotal(m, y);
    if Leq(m, y) {
      least := m;
    } else {
      least := y;
      forall x | x in s ensures Leq(y, x) {
        if x != y {
          LeqTransitive(y, m, x);
        } else {
          LeqTotal(y, y);
        }
      }
    }
  }

  /** The strings of a finite set in ascending order, each once. */
  ghost function SortedKeys(s: set<GoString>): (r: seq<GoString>)
    ensures Sorted(r)
    ensures multiset(r) == multiset(s)
    decreases s
  {
    if s == {} then []
    else
      LeastExists(s);
      var m :| m in s && forall x | x in s :: Leq(m, x);
      var rest := SortedKeys(s - {m});
      assert multiset(s) == multiset{m} + multiset(s - {m});
      assert |rest| > 0 ==> rest[0] in multiset(s - {m});
      [m] + rest
  }
}
