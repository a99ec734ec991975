/** Percent-escaping from Go's net/url (section 2.1 of RFC 3986 as Go
    applies it): `url.PathEscape` escapes a string for use as ONE path
    segment, `url.QueryEscape` for use as a query key or value. Both work
    byte by byte and write escapes with upper-case digits. The unescaping
    functions are Go's `url.PathUnescape` and `url.QueryUnescape`, used here
    as the inverses of the two escapes. */
module UrlEscape {
  import opened Wrappers
  import opened GoStrings
  import Hex

  /** The two modes of net/url's `escape` that the source reaches. */
  datatype Mode = PathSegment | QueryComponent

  predicate IsAlnum(c: Byte)
  {
    'a' <= c <= 'z' || 'A' <= c <= 'Z' || '0' <= c <= '9'
  }

  /** net/url's `shouldEscape`: letters, digits and the marks `-_.~` stay;
      of the reserved bytes `$&+,/:;=?@` a path segment escapes only `/;,?`
      while a query component escapes all; every other byte is escaped. */
  predicate ShouldEscape(c: Byte, mode: Mode)
  {
    if IsAlnum(c) then false
    else if c in "-_.~" then false
    else if c in "$&+,/:;=?@" then
      match mode
      case PathSegment => c in "/;,?"
      case QueryComponent => true
    else true
  }

  /** What one byte becomes: itself, `+` for a space in a query component,
      or `%` followed by two upper-case digits. */
  function EscapeByte(c: Byte, mode: Mode): (r: GoString)
  {
    if !ShouldEscape(c, mode) then [c]
    else if c == ' ' && mode == QueryComponent then ['+']
    else ['%', Hex.UpperDigit(c as int / 16), Hex.UpperDigit(c as int % 16)]
  }

  /** net/url's `escape(s, mode)`. Every byte of the result either needs no
      escaping in this mode, or opens an escape (`%`), or is the `+` that a
      query component writes for a space. */
  function Escape(s: GoString, mode: Mode): (r: GoString)
    ensures |r| >= |s|
    ensures forall i | 0 <= i < |r| ::
              !ShouldEscape(r[i], mode) || r[i] == '%' || (mode == QueryComponent && r[i] == '+')
  {
    if s == [] then []
    else EscapeByte(s[0], mode) + Escape(s[1..], mode)
  }

  /** `url.PathEscape(s)`. */
  function PathEscape(s: GoString): (r: GoString)
    ensures '/' !in r && '?' !in r && '\n' !in r
  {
    Escape(s, PathSegment)
  }

  /** `url.QueryEscape(s)`. */
  function QueryEscape(s: GoString): (r: GoString)
    ensures '&' !in r && '=' !in r && ' ' !in r && '\n' !in r
  {
    Escape(s, QueryComponent)
  }

  /** net/url's `unescape(s, mode)`: `%` and two digits of either case give
      one byte, `+` gives a space in a query component, every other byte
      stands for itself; None for a `%` without two digits after it. */
  function Unescape(s: GoString, mode: Mode): (r: Option<GoString>)
    decreases |s|
  {
    if s == [] then Some([])
    else if s[0] == '%' then
      if |s| < 3 then None
      else
        match (Hex.DigitValue(s[1]), Hex.DigitValue(s[2]), Unescape(s[3..], mode))
        case (Some(hi), Some(lo), Some(rest)) => Some([Hex.FromNibbles(hi, lo)] + rest)
        case _ => None
    else
      match Unescape(s[1..], mode)
      case Some(rest) => Some([if s[0] == '+' && mode == QueryComponent then ' ' else s[0]] + rest)
      case None => None
  }

  /** `url.PathUnescape(s)`. */
  function PathUnescape(s: GoString): Option<GoString>
  {
    Unescape(s, PathSegment)
  }

  /** `url.QueryUnescape(s)`. */
  function QueryUnescape(s: GoString): Option<GoString>
  {
    Unescape(s, QueryComponent)
  }

  /** Escaping works byte by byte, so it distributes over concatenation. */
  lemma {:induction false} EscapeAppend(a: GoString, b: GoString, mode: Mode)
    ensures Escape(a + b, mode) == Escape(a, mode) + Escape(b, mode)
  {
    if a == [] {
      assert a + b == b;
    } else {
      assert (a + b)[1..] == a[1..] + b;
      EscapeAppend(a[1..], b, mode);
      calc {
        Escape(a + b, mode);
        EscapeByte(a[0], mode) + Escape(a[1..] + b, mode);
        EscapeByte(a[0], mode) + (Escape(a[1..], mode) + Escape(b, mode));
        (EscapeByte(a[0], mode) + Escape(a[1..], mode)) + Escape(b, mode);
      }
    }
  }

  /** Unescaping what one byte became gives that byte back, whatever follows. */
  lemma UnescapeEscapeByte(c: Byte, mode: Mode, tail: GoString, rest: GoString)
    requires Unescape(tail, mode) == Some(rest)
    ensures Unescape(EscapeByte(c, mode) + tail, mode) == Some([c] + rest)
  {
    var e := EscapeByte(c, mode) + tail;
    if !ShouldEscape(c, mode) {
      assert e[1..] == tail;
    } else if c == ' ' && mode == QueryComponent {
      assert e[1..] == tail;
    } else {
      Hex.UpperDigitValue(c as int / 16);
      Hex.UpperDigitValue(c as int % 16);
      assert e[3..] == tail;
      assert Hex.FromNibbles(c as int / 16, c as int % 16) == c;
    }
  }

  /** Unescaping undoes escaping, in both modes: the escaped key names the
      same object, the escaped query value carries the same value. */
  lemma {:induction false} UnescapeEscape(s: GoString, mode: Mode)
    ensures Unescape(Escape(s, mode), mode) == Some(s)
  {
    if s != [] {
      UnescapeEscape(s[1..], mode);
      UnescapeEscapeByte(s[0], mode, Escape(s[1..], mode), s[1..]);
      assert [s[0]] + s[1..] == s;
    }
  }

  /** A string is left as it is exactly when none of its bytes needs
      escaping in that mode. */
  lemma {:induction false} EscapeUnchanged(s: GoString, mode: Mode)
    ensures Escape(s, mode) == s <==> forall i | 0 <= i < |s| :: !ShouldEscape(s[i], mode)
  {
    if s != [] {
      EscapeUnchanged(s[1..], mode);
      var e := Escape(s, mode);
      if ShouldEscape(s[0], mode) {
        if s[0] == ' ' && mode == QueryComponent {
          assert e[0] == '+' != s[0];
        } else {
          assert |e| >= 3 + |s[1..]|;
        }
      } else {
        assert e == [s[0]] + Escape(s[1..], mode);
        assert s == [s[0]] + s[1..];
        if Escape(s, mode) == s {
          assert Escape(s[1..], mode) == s[1..];
        }
        assert (forall i | 0 <= i < |s| :: !ShouldEscape(s[i], mode))
           <==> (forall i | 0 <= i < |s[1..]| :: !ShouldEscape(s[1..][i], mode));
      }
    }
  }

  /** A `/` inside an object key does not survive PathEscape: it becomes
      `%2F`, so the key stays a single path segment. */
  lemma PathEscapeSlash(a: GoString, b: GoString)
    ensures PathEscape(a + "/" + b) == PathEscape(a) + "%2F" + PathEscape(b)
  {
    EscapeAppend(a + "/", b, PathSegment);
    EscapeAppend(a, "/", PathSegment);
    SlashEscaped();
  }

  /** A lone slash, as a path segment, is `%2F`. */
  lemma SlashEscaped()
    ensures Escape("/", PathSegment) == "%2F"
  {
    var slash: GoString := "/";
    assert Escape(slash, PathSegment) == EscapeByte('/', PathSegment) + Escape([], PathSegment) by {
      assert slash[1..] == [];
    }
  }

  /** QueryEscape writes a space as `+`, not as `%20`. */
  lemma QueryEscapeSpace(a: GoString, b: GoString)
    ensures QueryEscape(a + " " + b) == QueryEscape(a) + "+" + QueryEscape(b)
  {
    EscapeAppend(a + " ", b, QueryComponent);
    EscapeAppend(a, " ", QueryComponent);
    SpaceEscaped();
  }

  /** A lone space, as a query component, is `+`. */
  lemma SpaceEscaped()
    ensures Escape(" ", QueryComponent) == "+"
  {
    var space: GoString := " ";
    assert Escape(space, QueryComponent) == EscapeByte(' ', QueryComponent) + Escape([], QueryComponent) by {
      assert space[1..] == [];
    }
  }
}
