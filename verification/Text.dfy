/** Text operations the program takes from its library: trimming and decimal numbers. */
module Text {
  import opened Basics

  type CharTest = char -> bool

  function TrimLeft(s: string, drop: CharTest): string {
    if s != [] && drop(s[0]) then TrimLeft(s[1..], drop) else s
  }

  function TrimRight(s: string, drop: CharTest): string {
    if s != [] && drop(s[|s| - 1]) then TrimRight(s[..|s| - 1], drop) else s
  }

  function Trim(s: string, drop: CharTest): string {
    TrimRight(TrimLeft(s, drop), drop)
  }

  ghost predicate AllDropped(s: string, drop: CharTest) {
    forall i :: 0 <= i < |s| ==> drop(s[i])
  }

  /** No character to drop at either end. */
  predicate Trimmed(s: string, drop: CharTest) {
    s != [] ==> !drop(s[0]) && !drop(s[|s| - 1])
  }

  /** The left trim cuts off exactly the leading characters to drop. */
  lemma {:induction false} LeftTrim(s: string, drop: CharTest)
    ensures
      var r := TrimLeft(s, drop);
      |r| <= |s| && r == s[|s| - |r|..] && AllDropped(s[..|s| - |r|], drop) && (r != [] ==> !drop(r[0]))
  {
    if s != [] && drop(s[0]) {
      LeftTrim(s[1..], drop);
      var cut := |s| - |TrimLeft(s, drop)|;
      assert s[..cut] == [s[0]] + s[1..][..cut - 1];
    }
  }

  lemma {:induction false} RightTrim(s: string, drop: CharTest)
    ensures
      var r := TrimRight(s, drop);
      |r| <= |s| && r == s[..|r|] && AllDropped(s[|r|..], drop) && (r != [] ==> !drop(r[|r| - 1]))
  {
    if s != [] && drop(s[|s| - 1]) {
      var front := s[..|s| - 1];
      RightTrim(front, drop);
      var k := |TrimRight(s, drop)|;
      assert s[k..] == front[k..] + [s[|s| - 1]];
    }
  }

  /** Trimming leaves nothing to trim, changes nothing that is trimmed, and empties what is all to drop. */
  lemma TrimIsTrimmed(s: string, drop: CharTest)
    ensures Trimmed(Trim(s, drop), drop)
    ensures Trimmed(s, drop) ==> Trim(s, drop) == s
    ensures Trim(s, drop) == [] <==> AllDropped(s, drop)
  {
    var left := TrimLeft(s, drop);
    var r := Trim(s, drop);
    LeftTrim(s, drop);
    RightTrim(left, drop);
    var cut := |s| - |left|;
    assert s == s[..cut] + left && left == r + left[|r|..];
    assert r != [] ==> r[0] == left[0] && r[0] == s[cut];
  }

  /** The white space of Unicode. */
  const IS_SPACE: CharTest := (c: char) =>
    c == ' ' || '\t' <= c <= '\r' || c == '\U{85}' || c == '\U{A0}' || c == '\U{1680}' || '\U{2000}' <= c <= '\U{200A}'
    || c == '\U{2028}' || c == '\U{2029}' || c == '\U{202F}' || c == '\U{205F}' || c == '\U{3000}'

  const IS_NEWLINE: CharTest := (c: char) => c == '\n'

  function TrimSpace(s: string): string {
    Trim(s, IS_SPACE)
  }

  predicate Blank(s: string) {
    TrimSpace(s) == ""
  }

  /** The 25 characters of Unicode that are white space. */
  predicate IsWhite(c: char) {
    c in {'\t', '\n', '\U{0B}', '\U{0C}', '\r', ' ', '\U{85}', '\U{A0}', '\U{1680}', '\U{2000}', '\U{2001}',
          '\U{2002}', '\U{2003}', '\U{2004}', '\U{2005}', '\U{2006}', '\U{2007}', '\U{2008}', '\U{2009}',
          '\U{200A}', '\U{2028}', '\U{2029}', '\U{202F}', '\U{205F}', '\U{3000}'}
  }

  lemma SpaceIsWhite(c: char)
    ensures IS_SPACE(c) <==> IsWhite(c)
  {
  }

  /** A text is blank exactly when it is all white space. */
  lemma BlankMeans(s: string)
    ensures Blank(s) <==> AllDropped(s, IS_SPACE)
    ensures Blank(s) <==> forall i :: 0 <= i < |s| ==> IsWhite(s[i])
  {
    TrimIsTrimmed(s, IS_SPACE);
    forall i | 0 <= i < |s| ensures IS_SPACE(s[i]) <==> IsWhite(s[i]) {
      SpaceIsWhite(s[i]);
    }
  }

  // ----- Decimal numbers -----

  predicate IsDigit(c: char) {
    '0' <= c <= '9'
  }

  predicate Digits(s: string) {
    s != "" && forall i :: 0 <= i < |s| ==> IsDigit(s[i])
  }

  function Digit(d: nat): char
    requires d < 10
  {
    '0' + d as char
  }

  function Decimal(n: nat): (s: string)
    ensures Digits(s)
  {
    if n < 10 then [Digit(n)] else Decimal(n / 10) + [Digit(n % 10)]
  }

  function Value(s: string): nat
    requires forall i :: 0 <= i < |s| ==> IsDigit(s[i])
  {
    if s == "" then 0 else
      assert IsDigit(s[|s| - 1]);
      10 * Value(s[..|s| - 1]) + (s[|s| - 1] - '0') as nat
  }

  lemma {:induction false} DecimalReads(n: nat)
    ensures Value(Decimal(n)) == n
  {
    if n >= 10 {
      DecimalReads(n / 10);
      assert Decimal(n)[..|Decimal(n)| - 1] == Decimal(n / 10);
    } else {
      assert Decimal(n)[..0] == "";
    }
  }

  lemma DecimalInjective(a: nat, b: nat)
    requires Decimal(a) == Decimal(b)
    ensures a == b
  {
    DecimalReads(a);
    DecimalReads(b);
  }

  function SignedDecimal(n: int): string {
    if n < 0 then "-" + Decimal(-n) else Decimal(n)
  }

  lemma SignedDecimalInjective(a: int, b: int)
    requires SignedDecimal(a) == SignedDecimal(b)
    ensures a == b
  {
    assert Digits(Decimal(if a < 0 then -a else a)) && Digits(Decimal(if b < 0 then -b else b));
    assert a < 0 <==> SignedDecimal(a)[0] == '-';
    if a < 0 {
      assert SignedDecimal(a)[1..] == Decimal(-a) && SignedDecimal(b)[1..] == Decimal(-b);
      DecimalInjective(-a, -b);
    } else {
      DecimalInjective(a, b);
    }
  }
}
