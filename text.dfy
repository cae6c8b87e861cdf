/** String helpers standing in for the PHP string built-ins the adapters use:
    strtolower, trim, rtrim, str_starts_with, implode, explode and the decimal
    integer <-> string conversions behind PHP casts and comparisons. */
module Text {

  /** ASCII lower-casing of one character (strtolower is ASCII-only). */
  function LowerChar(c: char): char {
    if 'A' <= c <= 'Z' then (c as int + 32) as char else c
  }

  function Lower(s: string): (r: string)
    ensures |r| == |s|
    ensures forall i :: 0 <= i < |s| ==> r[i] == LowerChar(s[i])
  {
    seq(|s|, i requires 0 <= i < |s| => LowerChar(s[i]))
  }

  /** Lower-casing moves no character onto or off ':'. */
  lemma LowerKeepsColon(s: string)
    ensures ':' in Lower(s) <==> ':' in s
  {
    var l := Lower(s);
    if ':' in l {
      var i :| 0 <= i < |l| && l[i] == ':';
      assert s[i] == ':';
    }
    if ':' in s {
      var i :| 0 <= i < |s| && s[i] == ':';
      assert l[i] == ':';
    }
  }

  /** The characters PHP's trim() strips by default: " \t\n\r\0\x0B". */
  predicate IsTrimmable(c: char) {
    c == ' ' || c == '\t' || c == '\n' || c == '\r' || c == 0 as char || c == 11 as char
  }

  function TrimLeft(s: string): (r: string)
    ensures |r| <= |s| && r == s[|s| - |r|..]
    ensures forall i :: 0 <= i < |s| - |r| ==> IsTrimmable(s[i])
    ensures r == [] || !IsTrimmable(r[0])
  {
    if s != [] && IsTrimmable(s[0]) then TrimLeft(s[1..]) else s
  }

  function TrimRight(s: string): (r: string)
    ensures |r| <= |s| && r == s[..|r|]
    ensures forall i :: |r| <= i < |s| ==> IsTrimmable(s[i])
    ensures r == [] || !IsTrimmable(r[|r| - 1])
  {
    if s != [] && IsTrimmable(s[|s| - 1]) then TrimRight(s[..|s| - 1]) else s
  }

  /** trim($s): both ends stripped, the middle kept verbatim. */
  function Trim(s: string): (r: string)
    ensures r == [] || (!IsTrimmable(r[0]) && !IsTrimmable(r[|r| - 1]))
  {
    TrimRight(TrimLeft(s))
  }

  /** rtrim($s, $c) for a single character c. */
  function RTrimChar(s: string, c: char): (r: string)
    ensures |r| <= |s| && r == s[..|r|]
    ensures forall i :: |r| <= i < |s| ==> s[i] == c
    ensures r == [] || r[|r| - 1] != c
  {
    if s != [] && s[|s| - 1] == c then RTrimChar(s[..|s| - 1], c) else s
  }

  predicate StartsWith(s: string, prefix: string) {
    |prefix| <= |s| && s[..|prefix|] == prefix
  }

  /** The position of the first c in s. */
  function FirstIndex(s: string, c: char): (i: nat)
    requires c in s
    ensures i < |s| && s[i] == c && c !in s[..i]
  {
    if s[0] == c then 0 else 1 + FirstIndex(s[1..], c)
  }

  /** The first c of `l + [c] + r` is the one after l, when l has none. */
  lemma {:induction false} FirstIndexAt(l: string, r: string, c: char)
    requires c !in l
    ensures c in l + [c] + r && FirstIndex(l + [c] + r, c) == |l|
  {
    var s := l + [c] + r;
    assert s[|l|] == c;
    if l != [] {
      assert s[0] == l[0] && s[1..] == l[1..] + [c] + r;
      FirstIndexAt(l[1..], r, c);
    }
  }

  /** explode($c, $s, 2): the text before and after the first c, if there is one. */
  function SplitFirst(s: string, c: char): (r: Option2)
    ensures r.None2? <==> c !in s
    ensures r.Some2? ==> r.left + [c] + r.right == s && c !in r.left
  {
    if c !in s then None2
    else
      var i := FirstIndex(s, c);
      assert s == s[..i] + [c] + s[i + 1..];
      Some2(s[..i], s[i + 1..])
  }

  datatype Option2 = None2 | Some2(left: string, right: string)

  /** explode($c, $s) with no limit. */
  function SplitOn(s: string, c: char): (parts: seq<string>)
    ensures |parts| >= 1
    decreases |s|
  {
    if c !in s then [s]
    else
      var i := FirstIndex(s, c);
      [s[..i]] + SplitOn(s[i + 1..], c)
  }

  lemma AppendAssoc<T>(x: seq<T>, y: seq<T>, z: seq<T>)
    ensures x + (y + z) == (x + y) + z
  {
  }

  /** Splitting `l + [c] + r` where l has no c: l is the first piece. */
  lemma SplitOnAt(l: string, r: string, c: char)
    requires c !in l
    ensures SplitOn(l + [c] + r, c) == [l] + SplitOn(r, c)
  {
    var s := l + [c] + r;
    FirstIndexAt(l, r, c);
    assert s[..|l|] == l && s[|l| + 1..] == r;
  }

  /** Splitting at a separator splits the two sides independently. */
  lemma {:induction false} SplitOnConcat(a: string, b: string, c: char)
    ensures SplitOn(a + [c] + b, c) == SplitOn(a, c) + SplitOn(b, c)
    decreases |a|
  {
    if c !in a {
      SplitOnAt(a, b, c);
    } else {
      var i := FirstIndex(a, c);
      var head, rest := a[..i], a[i + 1..];
      var tail := rest + [c] + b;
      assert a == head + [c] + rest;
      assert a + [c] + b == head + [c] + tail;
      SplitOnAt(head, tail, c);
      SplitOnAt(head, rest, c);
      SplitOnConcat(rest, b, c);
      AppendAssoc([head], SplitOn(rest, c), SplitOn(b, c));
    }
  }

  /** implode($sep, $xs). */
  function Join(xs: seq<string>, sep: string): string {
    if xs == [] then ""
    else if |xs| == 1 then xs[0]
    else xs[0] + sep + Join(xs[1..], sep)
  }

  /** Splitting on the separator undoes joining, so long as no piece
      contains the separator: the pieces come back, in order. */
  lemma {:induction false} SplitJoin(xs: seq<string>, c: char)
    requires |xs| >= 1
    requires forall i :: 0 <= i < |xs| ==> c !in xs[i]
    ensures SplitOn(Join(xs, [c]), c) == xs
  {
    if |xs| == 1 {
      assert Join(xs, [c]) == xs[0];
    } else {
      var rest := Join(xs[1..], [c]);
      var s := xs[0] + [c] + rest;
      assert Join(xs, [c]) == s;
      assert c in s by { assert s[|xs[0]|] == c; }
      var i := FirstIndex(s, c);
      assert i == |xs[0]| by {
        assert s[..|xs[0]|] == xs[0];
      }
      assert s[..i] == xs[0];
      assert s[i + 1..] == rest;
      SplitJoin(xs[1..], c);
      assert SplitOn(s, c) == [xs[0]] + SplitOn(rest, c);
    }
  }

  // ---- decimal integers -------------------------------------------------

  predicate IsDigit(c: char) { '0' <= c <= '9' }

  function DigitChar(d: nat): (c: char)
    requires d < 10
    ensures IsDigit(c) && c as int - '0' as int == d
  {
    ('0' as int + d) as char
  }

  function DigitValue(c: char): (d: nat)
    requires IsDigit(c)
    ensures d < 10
  {
    c as int - '0' as int
  }

  predicate IsDigits(s: string) {
    |s| > 0 && forall i :: 0 <= i < |s| ==> IsDigit(s[i])
  }

  /** The integer-shaped numeric strings: optional minus sign, then digits.
      (PHP also accepts whitespace, '+', fractions and exponents.) */
  predicate IsDecimal(s: string) {
    IsDigits(s) || (|s| > 1 && s[0] == '-' && IsDigits(s[1..]))
  }

  function NatToString(n: nat): (s: string)
    ensures IsDigits(s)
    decreases n
  {
    if n < 10 then [DigitChar(n)] else NatToString(n / 10) + [DigitChar(n % 10)]
  }

  /** The (string) cast of an int: base 10, leading '-' when negative. */
  function IntToString(i: int): (s: string)
    ensures IsDecimal(s)
  {
    if i < 0 then "-" + NatToString(-i) else NatToString(i)
  }

  function DigitsValue(s: string): nat
    requires IsDigits(s)
    decreases |s|
  {
    if |s| == 1 then DigitValue(s[0])
    else DigitsValue(s[..|s| - 1]) * 10 + DigitValue(s[|s| - 1])
  }

  function ParseDecimal(s: string): int
    requires IsDecimal(s)
  {
    if IsDigits(s) then DigitsValue(s) else -(DigitsValue(s[1..]) as int)
  }

  lemma {:induction false} DigitsOfNat(n: nat)
    ensures DigitsValue(NatToString(n)) == n
    decreases n
  {
    if n >= 10 {
      DigitsOfNat(n / 10);
      var s := NatToString(n);
      assert s[..|s| - 1] == NatToString(n / 10);
    }
  }

  /** Reading back the decimal text of an integer gives that integer. */
  lemma IntToStringRoundTrip(i: int)
    ensures ParseDecimal(IntToString(i)) == i
  {
    if i < 0 {
      var s := IntToString(i);
      DigitsOfNat(-i);
      assert s[1..] == NatToString(-i);
      assert !IsDigits(s) by { assert !IsDigit(s[0]); }
    } else {
      DigitsOfNat(i);
    }
  }

  /** Byte-wise strcmp order ("a" < "b"); code-point order equals UTF-8 byte order. */
  predicate StrLess(a: string, b: string)
    decreases |a|
  {
    if a == [] then b != []
    else if b == [] then false
    else if a[0] != b[0] then a[0] < b[0]
    else StrLess(a[1..], b[1..])
  }
}
