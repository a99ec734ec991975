/** Go strings as what they are at run time: immutable sequences of bytes.
    `strings.Join` as the source uses it, and `strings.Split` on one byte as
    the reading that undoes it. */
module GoStrings {

  /** One byte of a Go string, written as the character with that code, so
      that the ASCII literals of the source ("GET", "host:") read as
      themselves. Comparing two Bytes compares the byte values. */
  type Byte = c: char | c as int < 0x100 witness '\0'

  type GoString = seq<Byte>

  /** `strings.Join(parts, sep)`: the parts in order with `sep` between
      neighbours, and nothing before the first or after the last. */
  function Join(parts: seq<GoString>, sep: GoString): (r: GoString)
    ensures |parts| == 1 ==> r == parts[0]
    decreases |parts|
  {
    if |parts| == 0 then []
    else if |parts| == 1 then parts[0]
    else parts[0] + sep + Join(parts[1..], sep)
  }

  /** Joining two non-empty lists of parts: the two joins with one
      separator between them. */
  lemma {:induction false} JoinAppend(a: seq<GoString>, b: seq<GoString>, sep: GoString)
    requires |a| > 0 && |b| > 0
    ensures Join(a + b, sep) == Join(a, sep) + sep + Join(b, sep)
    decreases |a|
  {
    if |a| == 1 {
      assert (a + b)[1..] == b;
    } else {
      assert (a + b)[1..] == a[1..] + b;
      JoinAppend(a[1..], b, sep);
    }
  }

  /** A part that ends in the separator joins as that part without it
      followed by an empty part. */
  lemma TrailingSeparator(head: seq<GoString>, x: GoString, tail: seq<GoString>, sep: GoString)
    requires |head| > 0 && |tail| > 0
    ensures Join(head + [x + sep] + tail, sep) == Join(head + [x, []] + tail, sep)
  {
    JoinAppend(head + [x + sep], tail, sep);
    JoinAppend(head, [x + sep], sep);
    JoinAppend(head + [x, []], tail, sep);
    JoinAppend(head, [x, []], sep);
    assert Join([x, []], sep) == x + sep;
  }

  /** `strings.Split(s, string(c))`: the pieces of `s` between the
      occurrences of `c`; there is always at least one piece. */
  function Split(s: GoString, c: Byte): (r: seq<GoString>)
    ensures |r| > 0
  {
    if s == [] then [[]]
    else
      var rest := Split(s[1..], c);
      if s[0] == c then [[]] + rest else [[s[0]] + rest[0]] + rest[1..]
  }

  /** A string without the separator is a single piece. */
  lemma {:induction false} SplitWithoutSeparator(s: GoString, c: Byte)
    requires c !in s
    ensures Split(s, c) == [s]
  {
    if s != [] {
      SplitWithoutSeparator(s[1..], c);
      assert [s[0]] + s[1..] == s;
    }
  }

  /** Splitting at the first separator: what comes before it is the first
      piece, and the rest is split on its own. */
  lemma {:induction false} SplitAtFirst(a: GoString, c: Byte, b: GoString)
    requires c !in a
    ensures Split(a + [c] + b, c) == [a] + Split(b, c)
  {
    if a == [] {
      assert a + [c] + b == [c] + b;
      assert ([c] + b)[1..] == b;
    } else {
      SplitAtFirst(a[1..], c, b);
      assert (a + [c] + b)[1..] == a[1..] + [c] + b;
      assert [a[0]] + a[1..] == a;
    }
  }

  /** Split undoes Join whenever no part contains the separator. */
  lemma {:induction false} SplitJoin(parts: seq<GoString>, c: Byte)
    requires |parts| > 0
    requires forall i | 0 <= i < |parts| :: c !in parts[i]
    ensures Split(Join(parts, [c]), c) == parts
    decreases |parts|
  {
    if |parts| == 1 {
      SplitWithoutSeparator(parts[0], c);
    } else {
      SplitJoin(parts[1..], c);
      SplitAtFirst(parts[0], c, Join(parts[1..], [c]));
      assert [parts[0]] + parts[1..] == parts;
    }
  }

  /** A separator-free list of parts joins into a string whose separators are
      exactly the joints: a byte other than the separator that no part holds
      is absent from the result. */
  lemma {:induction false} JoinAbsent(parts: seq<GoString>, sep: GoString, x: Byte)
    requires x !in sep
    requires forall i | 0 <= i < |parts| :: x !in parts[i]
    ensures x !in Join(parts, sep)
    decreases |parts|
  {
    if |parts| > 1 {
      JoinAbsent(parts[1..], sep, x);
    }
  }
}
