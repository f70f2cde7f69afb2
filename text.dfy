/**
 * The string operations of the Kotlin standard library that the core relies on:
 * `isBlank`, `ifBlank`, `trim`, `joinToString`, `String.compareTo` (used by
 * `sorted()` and `sortedBy`), decimal formatting (`%d`, `%02d`) and
 * `toLongOrNull`.
 */
module Text {
  import opened Wrappers

  // ---------------------------------------------------------------------------
  // Whitespace, blank strings, trimming
  // ---------------------------------------------------------------------------

  /** Kotlin's `Char.isWhitespace()` on the JVM: Java whitespace or a Unicode space separator. */
  predicate IsWhitespace(c: char) {
    || ('\t' <= c <= '\r')
    || ('\U{1C}' <= c <= '\U{1F}')
    || c == ' '
    || c == '\U{A0}'
    || c == '\U{1680}'
    || ('\U{2000}' <= c <= '\U{200A}')
    || c == '\U{2028}'
    || c == '\U{2029}'
    || c == '\U{202F}'
    || c == '\U{205F}'
    || c == '\U{3000}'
  }

  /** `CharSequence.isBlank()`: empty or made only of whitespace. */
  predicate IsBlank(s: string) {
    forall i :: 0 <= i < |s| ==> IsWhitespace(s[i])
  }

  /** `ifBlank { d }`: the string itself unless it is blank. */
  function IfBlank(s: string, d: string): (r: string)
    ensures !IsBlank(s) ==> r == s
    ensures IsBlank(s) ==> r == d
  {
    if IsBlank(s) then d else s
  }

  /** A whitespace character followed by a blank prefix of the rest is a blank prefix. */
  lemma BlankPrefixStep(s: string, n: nat)
    requires 0 < n <= |s| && IsWhitespace(s[0]) && IsBlank(s[1..][..n - 1])
    ensures IsBlank(s[..n])
  {
    forall k | 0 <= k < n ensures IsWhitespace(s[..n][k]) {
      if k > 0 { assert s[..n][k] == s[1..][..n - 1][k - 1]; }
    }
  }

  /** Drops the leading whitespace; the result is a suffix of `s`. */
  function TrimStart(s: string): (r: string)
    ensures |r| <= |s| && r == s[|s| - |r|..]
    ensures IsBlank(s[..|s| - |r|])
    ensures r != [] ==> !IsWhitespace(r[0])
  {
    if |s| > 0 && IsWhitespace(s[0]) then
      var r := TrimStart(s[1..]);
      var n := |s| - |r|;
      assert r == s[n..] by { assert s[1..][|s| - 1 - |r|..] == s[n..]; }
      BlankPrefixStep(s, n);
      r
    else
      s
  }

  /** Drops the trailing whitespace; the result is a prefix of `s`. */
  function TrimEnd(s: string): (r: string)
    ensures |r| <= |s| && r == s[..|r|]
    ensures IsBlank(s[|r|..])
    ensures r != [] ==> !IsWhitespace(r[|r| - 1])
  {
    if |s| > 0 && IsWhitespace(s[|s| - 1]) then
      var r := TrimEnd(s[..|s| - 1]);
      assert r == s[..|r|] by { assert s[..|s| - 1][..|r|] == s[..|r|]; }
      assert IsBlank(s[|r|..]) by {
        forall k | 0 <= k < |s| - |r| ensures IsWhitespace(s[|r|..][k]) {
          if k < |s| - 1 - |r| { assert s[|r|..][k] == s[..|s| - 1][|r|..][k]; }
        }
      }
      r
    else
      s
  }

  /** `String.trim()`: removes whitespace at both ends. */
  function Trim(s: string): string {
    TrimEnd(TrimStart(s))
  }

  /** Where the trimmed string sits in `s`: between a blank prefix and a blank suffix. */
  lemma TrimAt(s: string) returns (i: nat)
    ensures i + |Trim(s)| <= |s| && s[i..i + |Trim(s)|] == Trim(s)
    ensures IsBlank(s[..i]) && IsBlank(s[i + |Trim(s)|..])
  {
    i := |s| - |TrimStart(s)|;
    BlankAround(s, i, TrimStart(s), Trim(s));
  }

  /** A blank prefix of `s`, then a prefix `r` of the rest, then a blank remainder. */
  lemma BlankAround(s: string, i: nat, t: string, r: string)
    requires i <= |s| && t == s[i..] && IsBlank(s[..i])
    requires |r| <= |t| && r == t[..|r|] && IsBlank(t[|r|..])
    ensures i + |r| <= |s| && s[i..i + |r|] == r
    ensures IsBlank(s[..i]) && IsBlank(s[i + |r|..])
  {
    assert s[i..i + |r|] == t[..|r|];
    assert s[i + |r|..] == t[|r|..];
  }

  /** The trimmed string neither starts nor ends with whitespace. */
  lemma TrimEnds(s: string)
    ensures |Trim(s)| <= |s|
    ensures Trim(s) != [] ==> !IsWhitespace(Trim(s)[0]) && !IsWhitespace(Trim(s)[|Trim(s)| - 1])
  {
    var t := TrimStart(s);
    var r := TrimEnd(t);
    if r != [] {
      assert r[0] == t[0];
    }
  }

  /** Two blank strings make a blank string. */
  lemma BlankConcat(a: string, b: string)
    requires IsBlank(a) && IsBlank(b)
    ensures IsBlank(a + b)
  {
    forall k | 0 <= k < |a + b| ensures IsWhitespace((a + b)[k]) {
      if k >= |a| { assert (a + b)[k] == b[k - |a|]; }
    }
  }

  /** `trim()` is empty exactly when the string is blank. */
  lemma TrimEmptyIffBlank(s: string)
    ensures Trim(s) == [] <==> IsBlank(s)
  {
    var t := TrimStart(s);
    var r := TrimEnd(t);
    var i := |s| - |t|;
    assert s[i..] == t;
    if r == [] {
      assert IsBlank(t) by { assert t[|r|..] == t; }
      BlankConcat(s[..i], t);
      assert s == s[..i] + t;
    } else {
      assert t != [] && !IsWhitespace(t[0]);
      assert t[0] == s[i];
    }
  }

  /**
   * What `trim` guarantees: the result is `s` with a blank prefix and a blank
   * suffix removed, it neither starts nor ends with whitespace, and it is
   * empty exactly when `s` is blank.
   */
  lemma TrimSpec(s: string)
    ensures |Trim(s)| <= |s|
    ensures Trim(s) != [] ==> !IsWhitespace(Trim(s)[0]) && !IsWhitespace(Trim(s)[|Trim(s)| - 1])
    ensures Trim(s) == [] <==> IsBlank(s)
    ensures exists i :: 0 <= i <= |s| - |Trim(s)| && s[i..i + |Trim(s)|] == Trim(s)
                          && IsBlank(s[..i]) && IsBlank(s[i + |Trim(s)|..])
  {
    TrimEnds(s);
    TrimEmptyIffBlank(s);
    var i := TrimAt(s);
  }

  // ---------------------------------------------------------------------------
  // Joining
  // ---------------------------------------------------------------------------

  /** `joinToString(sep)`: the elements in order with `sep` between neighbours. */
  function Join(xs: seq<string>, sep: string): (r: string)
    ensures |xs| == 1 ==> r == xs[0]
    ensures |xs| == 0 ==> r == ""
  {
    if |xs| == 0 then ""
    else if |xs| == 1 then xs[0]
    else xs[0] + sep + Join(xs[1..], sep)
  }

  // ---------------------------------------------------------------------------
  // Lexicographic order of `String.compareTo`
  // ---------------------------------------------------------------------------

  /** `a.compareTo(b) <= 0`: first differing character decides, a proper prefix comes first. */
  predicate LexLeq(a: string, b: string) {
    |a| == 0 || (|b| > 0 && (a[0] < b[0] || (a[0] == b[0] && LexLeq(a[1..], b[1..]))))
  }

  lemma {:induction false} LexLeqRefl(a: string)
    ensures LexLeq(a, a)
  {
    if |a| > 0 { LexLeqRefl(a[1..]); }
  }

  lemma {:induction false} LexLeqTotal(a: string, b: string)
    ensures LexLeq(a, b) || LexLeq(b, a)
  {
    if |a| > 0 && |b| > 0 && a[0] == b[0] { LexLeqTotal(a[1..], b[1..]); }
  }

  lemma {:induction false} LexLeqAntisym(a: string, b: string)
    requires LexLeq(a, b) && LexLeq(b, a)
    ensures a == b
  {
    if |a| > 0 && |b| > 0 {
      LexLeqAntisym(a[1..], b[1..]);
      assert a == [a[0]] + a[1..] && b == [b[0]] + b[1..];
    }
  }

  lemma {:induction false} LexLeqTrans(a: string, b: string, c: string)
    requires LexLeq(a, b) && LexLeq(b, c)
    ensures LexLeq(a, c)
  {
    if |a| > 0 && |b| > 0 && |c| > 0 && a[0] == b[0] && b[0] == c[0] {
      LexLeqTrans(a[1..], b[1..], c[1..]);
    }
  }

  /** Strictly ascending in the `compareTo` order, hence free of duplicates. */
  predicate StrictlySorted(r: seq<string>) {
    forall i, j :: 0 <= i < j < |r| ==> LexLeq(r[i], r[j]) && r[i] != r[j]
  }

  predicate IsLeast(m: string, s: set<string>) {
    m in s && forall x :: x in s ==> LexLeq(m, x)
  }

  lemma {:induction false} LeastExists(s: set<string>)
    requires s != {}
    ensures exists m :: IsLeast(m, s)
    decreases |s|
  {
    var x :| x in s;
    if s == {x} {
      LexLeqRefl(x);
      assert IsLeast(x, s);
    } else {
      LeastExists(s - {x});
      var m :| IsLeast(m, s - {x});
      LexLeqTotal(m, x);
      if LexLeq(m, x) {
        assert IsLeast(m, s);
      } else {
        forall y | y in s ensures LexLeq(x, y) {
          if y == x { LexLeqRefl(x); } else { LexLeqTrans(x, m, y); }
        }
        assert IsLeast(x, s);
      }
    }
  }

  /**
   * `set.sorted()`: the members of a set in ascending order. The least member
   * is unique, so the result depends on the set alone.
   */
  function SortedMembers(s: set<string>): (r: seq<string>)
    ensures |r| == |s|
    ensures forall x :: x in r <==> x in s
    ensures StrictlySorted(r)
    decreases |s|
  {
    if s == {} then []
    else
      LeastExists(s);
      LeastUnique(s);
      var m :| IsLeast(m, s);
      var rest := SortedMembers(s - {m});
      LeastCons(m, s, rest);
      [m] + rest
  }

  /** A set has at most one least member. */
  lemma LeastUnique(s: set<string>)
    ensures forall a, b :: IsLeast(a, s) && IsLeast(b, s) ==> a == b
  {
    forall a, b | IsLeast(a, s) && IsLeast(b, s) ensures a == b {
      LexLeqAntisym(a, b);
    }
  }

  /** The least member in front of the rest, sorted, is sorted. */
  lemma LeastCons(m: string, s: set<string>, rest: seq<string>)
    requires IsLeast(m, s) && StrictlySorted(rest)
    requires forall x :: x in rest <==> x in s - {m}
    ensures StrictlySorted([m] + rest)
  {
    var r := [m] + rest;
    forall i, j | 0 <= i < j < |r| ensures LexLeq(r[i], r[j]) && r[i] != r[j] {
      assert r[j] == rest[j - 1] && rest[j - 1] in rest;
      if i > 0 { assert r[i] == rest[i - 1]; }
    }
  }

  /**
   * A strictly ascending sequence is determined by its members: any two with
   * the same members are equal. So `SortedMembers(s)` is the one such
   * sequence for `s`, whatever order the ids were inserted in.
   */
  lemma {:induction false} StrictlySortedUnique(a: seq<string>, b: seq<string>)
    requires StrictlySorted(a) && StrictlySorted(b)
    requires forall x :: x in a <==> x in b
    ensures a == b
    decreases |a|
  {
    assert |a| > 0 <==> |b| > 0 by {
      if |a| > 0 { assert a[0] in a; }
      if |b| > 0 { assert b[0] in b; }
    }
    if |a| > 0 {
      assert b[0] in a && a[0] in b;
      var i :| 0 <= i < |a| && a[i] == b[0];
      var j :| 0 <= j < |b| && b[j] == a[0];
      assert LexLeq(a[0], b[0]) by { if i > 0 { } else { LexLeqRefl(a[0]); } }
      assert LexLeq(b[0], a[0]) by { if j > 0 { } else { LexLeqRefl(b[0]); } }
      LexLeqAntisym(a[0], b[0]);
      forall x ensures x in a[1..] <==> x in b[1..] {
        if x in a[1..] {
          var k :| 1 <= k < |a| && a[k] == x;
          assert x != a[0];
          assert x in a;
          assert x in b;
          var l :| 0 <= l < |b| && b[l] == x;
          assert l != 0;
          assert x == b[1..][l - 1];
        }
        if x in b[1..] {
          var k :| 1 <= k < |b| && b[k] == x;
          assert x != b[0];
          assert x in b;
          assert x in a;
          var l :| 0 <= l < |a| && a[l] == x;
          assert l != 0;
          assert x == a[1..][l - 1];
        }
      }
      StrictlySortedUnique(a[1..], b[1..]);
      assert a == [a[0]] + a[1..] && b == [b[0]] + b[1..];
    }
  }

  // ---------------------------------------------------------------------------
  // Decimal numbers
  // ---------------------------------------------------------------------------

  predicate IsDigit(c: char) { '0' <= c <= '9' }

  predicate AllDigits(s: string) {
    forall i :: 0 <= i < |s| ==> IsDigit(s[i])
  }

  function DigitChar(d: nat): (c: char)
    requires d < 10
    ensures IsDigit(c) && DigitValue(c) == d
  {
    ('0' as int + d) as char
  }

  function DigitValue(c: char): nat
    requires IsDigit(c)
  {
    (c as int - '0' as int) as nat
  }

  /** `n.toString()` for a non-negative number: decimal digits, no leading zero. */
  function NatToString(n: nat): (r: string)
    ensures |r| >= 1
    ensures (n < 10) == (|r| == 1)
  {
    if n < 10 then [DigitChar(n)] else NatToString(n / 10) + [DigitChar(n % 10)]
  }

  /** The value of a string of decimal digits. */
  function ParseNat(s: string): nat
    requires AllDigits(s)
  {
    if |s| == 0 then 0 else ParseNat(s[..|s| - 1]) * 10 + DigitValue(s[|s| - 1])
  }

  /** Every character of a number written in decimal is a digit. */
  lemma {:induction false} NatToStringDigits(n: nat)
    ensures AllDigits(NatToString(n))
  {
    if n >= 10 {
      NatToStringDigits(n / 10);
    }
  }

  /** Reading back a number written in decimal gives the number. */
  lemma {:induction false} ParseNatToString(n: nat)
    ensures AllDigits(NatToString(n)) && ParseNat(NatToString(n)) == n
  {
    NatToStringDigits(n);
    if n >= 10 {
      var s := NatToString(n);
      assert s[..|s| - 1] == NatToString(n / 10);
      ParseNatToString(n / 10);
    }
  }

  /** A leading zero does not change the value. */
  lemma {:induction false} ParseNatLeadingZero(s: string)
    requires AllDigits(s)
    ensures AllDigits("0" + s) && ParseNat("0" + s) == ParseNat(s)
  {
    if |s| > 0 {
      assert ("0" + s)[..|"0" + s| - 1] == "0" + s[..|s| - 1];
      ParseNatLeadingZero(s[..|s| - 1]);
    }
  }

  /** `String.format("%02d", n)`: at least two digits, left-padded with '0'. */
  function Pad2(n: nat): (r: string)
    ensures |r| >= 2
    ensures n < 100 ==> |r| == 2
  {
    if n < 10 then "0" + NatToString(n) else NatToString(n)
  }

  /** The padded form reads back as the number. */
  lemma Pad2RoundTrip(n: nat)
    ensures AllDigits(Pad2(n)) && ParseNat(Pad2(n)) == n
  {
    ParseNatToString(n);
    if n < 10 {
      ParseNatLeadingZero(NatToString(n));
    }
  }

  const LONG_MIN: int := -0x8000_0000_0000_0000
  const LONG_MAX: int := 0x7FFF_FFFF_FFFF_FFFF

  /**
   * `String.toLongOrNull()`: an optional '+' or '-' followed by at least one
   * decimal digit, whose value fits a 64-bit signed integer; otherwise null.
   */
  function ParseLong(s: string): (r: Option<int>)
    ensures r.Some? ==> LONG_MIN <= r.value <= LONG_MAX
    ensures |s| == 0 ==> r.None?
    ensures r.Some? && s[0] != '-' && s[0] != '+' ==> AllDigits(s) && r.value == ParseNat(s)
  {
    if |s| == 0 then None
    else if s[0] == '-' || s[0] == '+' then
      if |s| == 1 || !AllDigits(s[1..]) then None
      else
        var n: int := ParseNat(s[1..]);
        var v := if s[0] == '-' then -n else n;
        if LONG_MIN <= v <= LONG_MAX then Some(v) else None
    else if AllDigits(s) && ParseNat(s) <= LONG_MAX then Some(ParseNat(s))
    else None
  }

  /** Every non-negative Long written in decimal parses back to itself. */
  lemma ParseLongToString(n: nat)
    requires n <= LONG_MAX
    ensures ParseLong(NatToString(n)) == Some(n)
  {
    ParseNatToString(n);
    var s := NatToString(n);
    assert IsDigit(s[0]);
  }
}
