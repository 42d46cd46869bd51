/** Text as the contract produces it: Rust's `Display` of an unsigned integer
    (plain decimal, no sign, no leading zeros) and `String::into_bytes` (UTF-8). */
module Text {
  import opened Bytes

  predicate IsDigit(c: char) {
    '0' <= c <= '9'
  }

  predicate AllDigits(s: string) {
    forall i :: 0 <= i < |s| ==> IsDigit(s[i])
  }

  function DigitChar(d: nat): (c: char)
    requires d < 10
    ensures IsDigit(c)
  {
    ('0' as int + d) as char
  }

  function DigitValue(c: char): (d: nat)
    requires IsDigit(c)
    ensures d < 10 && DigitChar(d) == c
  {
    c as int - '0' as int
  }

  /** Canonical decimal text: at least one digit, and no leading zero unless it is "0". */
  predicate IsCanonicalDecimal(s: string) {
    |s| >= 1 && AllDigits(s) && (s[0] == '0' ==> |s| == 1)
  }

  /** `format!("{}", n)`: the decimal digits of `n`, most significant first. */
  function Decimal(n: nat): (s: string)
    ensures IsCanonicalDecimal(s)
    ensures n < 10 <==> |s| == 1
  {
    if n < 10 then [DigitChar(n)] else Decimal(n / 10) + [DigitChar(n % 10)]
  }

  /** The number a string of digits denotes, read most significant digit first.
      This is the reference reading of decimal text the formatter is checked against. */
  function DigitsValue(s: string): nat
    requires AllDigits(s)
  {
    if s == [] then 0 else 10 * DigitsValue(s[..|s| - 1]) + DigitValue(s[|s| - 1])
  }

  /** Reading back the decimal text of `n` gives `n`. */
  lemma {:induction false} DecimalValue(n: nat)
    ensures DigitsValue(Decimal(n)) == n
  {
    if n >= 10 {
      DecimalValue(n / 10);
      var s := Decimal(n);
      assert s[..|s| - 1] == Decimal(n / 10);
    }
  }

  /** A canonical digit string of more than one digit denotes at least 10. */
  lemma {:induction false} LeadingDigitValue(s: string)
    requires |s| >= 1 && AllDigits(s) && s[0] != '0'
    ensures DigitsValue(s) >= 1
    ensures |s| > 1 ==> DigitsValue(s) >= 10
  {
    if |s| > 1 {
      var t := s[..|s| - 1];
      assert t[0] == s[0];
      LeadingDigitValue(t);
    } else {
      assert s[..0] == [];
    }
  }

  /** Every canonical decimal text is the formatting of the number it denotes. */
  lemma {:induction false} DecimalOfDigits(s: string)
    requires IsCanonicalDecimal(s)
    ensures Decimal(DigitsValue(s)) == s
  {
    if |s| == 1 {
      assert s[..0] == [];
    } else {
      var t := s[..|s| - 1];
      assert t[0] == s[0];
      assert IsCanonicalDecimal(t);
      LeadingDigitValue(t);
      DecimalOfDigits(t);
      var n := DigitsValue(s);
      assert n / 10 == DigitsValue(t) && n % 10 == DigitValue(s[|s| - 1]);
      assert s == t + [s[|s| - 1]];
    }
  }

  /** Distinct numbers have distinct decimal texts. */
  lemma DecimalInjective(m: nat, n: nat)
    ensures Decimal(m) == Decimal(n) ==> m == n
  {
    DecimalValue(m);
    DecimalValue(n);
  }

  /** The position of the first ':' in `s`, or `|s|` when there is none. */
  function ColonIndex(s: string): (k: nat)
    ensures k <= |s|
  {
    if s == [] || s[0] == ':' then 0 else 1 + ColonIndex(s[1..])
  }

  /** In digits followed by ':', the first ':' is the one right after the digits. */
  lemma {:induction false} ColonIndexAfterDigits(x: string, rest: string)
    requires AllDigits(x)
    ensures ColonIndex(x + ":" + rest) == |x|
  {
    if x != [] {
      assert (x + ":" + rest)[1..] == x[1..] + ":" + rest;
      ColonIndexAfterDigits(x[1..], rest);
    }
  }

  /** Digits, then ':', then anything: the colon splits the text back into its two parts. */
  lemma SplitAtColon(x: string, p: string, y: string, q: string)
    requires AllDigits(x) && AllDigits(y)
    requires x + ":" + p == y + ":" + q
    ensures x == y && p == q
  {
    var s := x + ":" + p;
    ColonIndexAfterDigits(x, p);
    ColonIndexAfterDigits(y, q);
    assert x == s[..|x|] == y;
    assert p == s[|x| + 1..] == q;
  }

  /** `a ++ ":" ++ b` determines both numbers, because digits are never ':'. */
  lemma ColonPairInjective(a: nat, b: nat, c: nat, d: nat)
    requires Decimal(a) + ":" + Decimal(b) == Decimal(c) + ":" + Decimal(d)
    ensures a == c && b == d
  {
    SplitAtColon(Decimal(a), Decimal(b), Decimal(c), Decimal(d));
    DecimalInjective(a, c);
    DecimalInjective(b, d);
  }

  predicate IsAscii(s: string) {
    forall i :: 0 <= i < |s| ==> s[i] as int < 0x80
  }

  /** The value a continuation byte (`10xxxxxx`) carries: its low six bits. */
  function Payload(b: byte): nat
  {
    b % 0x40
  }

  /** The UTF-8 encoding of one Unicode scalar value: one to four bytes. The lead
      byte announces the length; each later byte is a continuation byte carrying
      six bits, and the bits rebuild the code, most significant first. */
  function Utf8Char(c: char): (b: seq<byte>)
    ensures 1 <= |b| <= 4
    ensures (c as int < 0x80) <==> |b| == 1
    ensures c as int < 0x80 ==> b[0] == c as int
    ensures |b| == 2 <==> 0x80 <= c as int < 0x800
    ensures |b| == 3 <==> 0x800 <= c as int < 0x1_0000
    ensures |b| == 2 ==> 0xC0 <= b[0] < 0xE0
    ensures |b| == 3 ==> 0xE0 <= b[0] < 0xF0
    ensures |b| == 4 ==> 0xF0 <= b[0] < 0xF8
    ensures forall i :: 1 <= i < |b| ==> 0x80 <= b[i] < 0xC0
    ensures |b| == 2 ==> c as int == (b[0] - 0xC0) * 0x40 + Payload(b[1])
    ensures |b| == 3 ==> c as int == ((b[0] - 0xE0) * 0x40 + Payload(b[1])) * 0x40 + Payload(b[2])
    ensures |b| == 4 ==>
      c as int == (((b[0] - 0xF0) * 0x40 + Payload(b[1])) * 0x40 + Payload(b[2])) * 0x40 + Payload(b[3])
  {
    var n := c as int;
    // n in base 64: n == ((q3 * 64 + r3) * 64 + r2) * 64 + r1
    var q1, r1 := n / 0x40, n % 0x40;
    var q2, r2 := q1 / 0x40, q1 % 0x40;
    var q3, r3 := q2 / 0x40, q2 % 0x40;
    assert n == q1 * 0x40 + r1 && q1 == q2 * 0x40 + r2 && q2 == q3 * 0x40 + r3;
    assert Payload(0x80 + r1) == r1 && Payload(0x80 + r2) == r2 && Payload(0x80 + r3) == r3;
    if n < 0x80 then [n]
    else if n < 0x800 then
      assert q1 < 0x20;
      [0xC0 + q1, 0x80 + r1]
    else if n < 0x1_0000 then
      assert q1 < 0x400 && q2 < 0x10;
      [0xE0 + q2, 0x80 + r2, 0x80 + r1]
    else
      assert q1 < 0x4_4000 && q2 < 0x1100 && q3 < 0x44;
      [0xF0 + q3, 0x80 + r3, 0x80 + r2, 0x80 + r1]
  }

  /** `String::into_bytes`: the UTF-8 encoding of a string. */
  function Utf8(s: string): (b: seq<byte>)
    ensures |b| >= |s|
  {
    if s == [] then [] else Utf8Char(s[0]) + Utf8(s[1..])
  }

  /** Encoding a concatenation is concatenating the encodings. */
  lemma {:induction false} Utf8Append(s: string, t: string)
    ensures Utf8(s + t) == Utf8(s) + Utf8(t)
  {
    if s != [] {
      assert (s + t)[1..] == s[1..] + t;
      Utf8Append(s[1..], t);
    } else {
      assert s + t == t;
    }
  }

  /** ASCII text encodes byte for byte: one byte per character, equal to its code. */
  lemma {:induction false} Utf8OfAscii(s: string)
    requires IsAscii(s)
    ensures |Utf8(s)| == |s|
    ensures forall i :: 0 <= i < |s| ==> Utf8(s)[i] == s[i] as int
  {
    if s != [] {
      Utf8OfAscii(s[1..]);
    }
  }

  /** Decimal text is ASCII. */
  lemma DecimalIsAscii(n: nat)
    ensures IsAscii(Decimal(n))
  {
  }
}
