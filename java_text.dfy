/**
  Java's 32-bit `int` and the decimal text `String.valueOf(int)` (and `int + ""`)
  produces for it, together with parsers that invert that text. The names of
  every vertex and binding in the compiled DAG are such decimal strings.
*/
module JavaText {

  const MinInt: int := -0x8000_0000
  const MaxInt: int := 0x7fff_ffff

  /** The values of a Java `int`. */
  type Int32 = x: int | MinInt <= x <= MaxInt

  /** Java's `int` arithmetic result: the mathematical value reduced modulo 2^32
      into the signed range (two's-complement wrap-around). */
  function Wrap32(x: int): (r: Int32)
    ensures (r - x) % 0x1_0000_0000 == 0
    ensures MinInt <= x <= MaxInt ==> r == x
  {
    (x - MinInt) % 0x1_0000_0000 + MinInt
  }

  /** Wrapping keeps parity: the modulus is even. */
  lemma Wrap32KeepsParity(x: int)
    ensures Wrap32(x) % 2 == x % 2
  {
    var d := Wrap32(x) - x;
    var q := d / 0x1_0000_0000;
    assert d == 0x1_0000_0000 * q;
    var t := 0x8000_0000 * q;
    assert d == 2 * t;
    assert (x + 2 * t) % 2 == x % 2;
  }

  predicate IsDigit(c: char) {
    '0' <= c <= '9'
  }

  function DigitChar(d: nat): (c: char)
    requires d < 10
    ensures IsDigit(c)
  {
    (48 + d) as char
  }

  function DigitValue(c: char): int {
    c as int - 48
  }

  /** Decimal text of a non-negative number, most significant digit first. */
  function NatToString(n: nat): (s: string)
    ensures |s| >= 1
    ensures forall i :: 0 <= i < |s| ==> IsDigit(s[i])
    decreases n
  {
    if n < 10 then [DigitChar(n)] else NatToString(n / 10) + [DigitChar(n % 10)]
  }

  /** Decimal text of a Java `int`, as `String.valueOf(int)` renders it. */
  function IntToString(x: int): (s: string)
    ensures |s| >= 1
    ensures s[0] == '-' <==> x < 0
    ensures forall i :: 0 < i < |s| ==> IsDigit(s[i])
  {
    if x < 0 then "-" + NatToString(-x) else NatToString(x)
  }

  /** Reads a string of decimal digits back as a number. */
  function ParseNat(s: string): int {
    if |s| == 0 then 0 else ParseNat(s[..|s| - 1]) * 10 + DigitValue(s[|s| - 1])
  }

  /** Reads an optionally signed decimal string back as a number. */
  function ParseInt(s: string): int {
    if |s| > 0 && s[0] == '-' then -ParseNat(s[1..]) else ParseNat(s)
  }

  lemma {:induction false} ParseNatToString(n: nat)
    ensures ParseNat(NatToString(n)) == n
    decreases n
  {
    if n >= 10 {
      var s := NatToString(n);
      assert s[..|s| - 1] == NatToString(n / 10);
      ParseNatToString(n / 10);
    }
  }

  lemma ParseIntToString(x: int)
    ensures ParseInt(IntToString(x)) == x
  {
    if x < 0 {
      var s := IntToString(x);
      assert s[1..] == NatToString(-x);
      ParseNatToString(-x);
    } else {
      ParseNatToString(x);
    }
  }

  /** Different numbers never share a decimal name. */
  lemma NatToStringInjective(m: nat, n: nat)
    ensures NatToString(m) == NatToString(n) <==> m == n
  {
    if NatToString(m) == NatToString(n) {
      ParseNatToString(m);
      ParseNatToString(n);
    }
  }

  /** The text of an `int` equals the text of a natural number exactly when
      the two numbers are equal; in particular a negative `int` never spells
      a natural number's name. */
  lemma IntToStringMatchesNat(x: int, n: nat)
    ensures IntToString(x) == NatToString(n) <==> x == n
  {
    if IntToString(x) == NatToString(n) {
      ParseIntToString(x);
      ParseNatToString(n);
      assert ParseInt(NatToString(n)) == ParseNat(NatToString(n));
    }
  }

  /** The characters of `s` before the first `c` (all of `s` if there is none). */
  function UpTo(s: string, c: char): (r: string)
    ensures |r| <= |s| && r == s[..|r|]
    ensures c !in r
    ensures |r| < |s| ==> s[|r|] == c
  {
    if |s| == 0 || s[0] == c then [] else [s[0]] + UpTo(s[1..], c)
  }

  lemma {:induction false} UpToStopsAtSeparator(a: string, b: string, c: char)
    requires c !in a
    requires |b| > 0 && b[0] == c
    ensures UpTo(a + b, c) == a
  {
    if |a| > 0 {
      assert (a + b)[1..] == a[1..] + b;
      UpToStopsAtSeparator(a[1..], b, c);
    }
  }
}
