/** Decimal text of numbers, as JavaScript's `String(n)` and
    `n.toLocaleString("en-US")` write integers. */
module Numerals {

  predicate IsDigit(c: char) { '0' <= c <= '9' }

  predicate AllDigits(s: string) {
    forall i :: 0 <= i < |s| ==> IsDigit(s[i])
  }

  function Digit(d: nat): (c: char)
    requires d < 10
    ensures IsDigit(c) && c as int - '0' as int == d
  {
    ('0' as int + d) as char
  }

  /** `String(n)` for a non-negative integer: its decimal digits, without leading zeros. */
  function Decimal(n: nat): (s: string)
    ensures |s| >= 1 && AllDigits(s)
    ensures |s| > 1 ==> s[0] != '0'
  {
    if n < 10 then [Digit(n)] else Decimal(n / 10) + [Digit(n % 10)]
  }

  /** The number a string of decimal digits denotes (the partner of `Decimal`). */
  function ParseDecimal(s: string): nat
    requires AllDigits(s)
  {
    if s == [] then 0 else ParseDecimal(s[..|s| - 1]) * 10 + (s[|s| - 1] as int - '0' as int)
  }

  /** Reading back the text `Decimal` writes gives the number again. */
  lemma {:induction false} DecimalRoundTrip(n: nat)
    ensures ParseDecimal(Decimal(n)) == n
  {
    if n >= 10 {
      var s := Decimal(n);
      assert s[..|s| - 1] == Decimal(n / 10);
      DecimalRoundTrip(n / 10);
    }
  }

  /** `String(i)` for any integer. */
  function IntText(i: int): (s: string)
    ensures |s| >= 1
    ensures i >= 0 ==> AllDigits(s) && ParseDecimal(s) == i
    ensures i < 0 ==> s[0] == '-' && AllDigits(s[1..]) && ParseDecimal(s[1..]) == -i
  {
    DecimalRoundTrip(if i < 0 then -i else i);
    if i < 0 then "-" + Decimal(-i) else Decimal(i)
  }

  /** Three digits, zero-padded: one comma-separated group of `toLocaleString`. */
  function Pad3(r: nat): (s: string)
    requires r < 1000
    ensures |s| == 3 && AllDigits(s)
  {
    [Digit(r / 100), Digit(r / 10 % 10), Digit(r % 10)]
  }

  /** A non-negative integer in en-US grouping: digits in groups of three from the right,
      separated by commas ("1,250,000"). */
  function Grouped(n: nat): (s: string)
    ensures |s| >= 1
    ensures forall i :: 0 <= i < |s| ==> IsDigit(s[i]) || s[i] == ','
  {
    if n < 1000 then Decimal(n) else Grouped(n / 1000) + "," + Pad3(n % 1000)
  }

  /** `i.toLocaleString("en-US")` for an integer `i`. */
  function LocaleNumber(i: int): (s: string)
    ensures |s| >= 1
    ensures forall k :: 0 <= k < |s| ==> IsDigit(s[k]) || s[k] == ',' || s[k] == '-'
  {
    if i < 0 then "-" + Grouped(-i) else Grouped(i)
  }

  /** The characters of a string other than the grouping commas, in order. */
  function StripCommas(s: string): (r: string)
    ensures |r| <= |s|
    ensures (forall i :: 0 <= i < |s| ==> IsDigit(s[i]) || s[i] == ',') ==> AllDigits(r)
  {
    if s == [] then []
    else StripCommas(s[..|s| - 1]) + (if s[|s| - 1] == ',' then [] else [s[|s| - 1]])
  }

  lemma {:induction false} StripCommasDigits(a: string, p: string)
    requires AllDigits(p)
    ensures StripCommas(a + p) == StripCommas(a) + p
    decreases |p|
  {
    if p != [] {
      var q := p[..|p| - 1];
      assert (a + p)[..|a + p| - 1] == a + q;
      var c := p[|p| - 1];
      assert IsDigit(c);
      assert a + p == (a + q) + [c];
      calc {
        StripCommas(a + p);
        StripCommas(a + q) + [c];
        { StripCommasDigits(a, q); }
        StripCommas(a) + q + [c];
        { assert q + [c] == p; }
        StripCommas(a) + p;
      }
    } else {
      assert a + p == a;
    }
  }

  lemma ParsePad3(x: string, r: nat)
    requires AllDigits(x) && r < 1000
    ensures AllDigits(x + Pad3(r)) && ParseDecimal(x + Pad3(r)) == ParseDecimal(x) * 1000 + r
  {
    var p := Pad3(r);
    var s := x + p;
    var d0, d1, d2 := r / 100, r / 10 % 10, r % 10;
    assert s[..|s| - 1] == x + p[..2];
    assert (x + p[..2])[..|x| + 1] == x + p[..1];
    assert (x + p[..1])[..|x|] == x;
    var v := ParseDecimal(x);
    assert ParseDecimal(x + p[..1]) == v * 10 + d0;
    assert ParseDecimal(x + p[..2]) == (v * 10 + d0) * 10 + d1;
    assert ParseDecimal(s) == ((v * 10 + d0) * 10 + d1) * 10 + d2;
    assert r == d0 * 100 + d1 * 10 + d2;
  }

  /** Dropping the commas from what `Grouped` writes and reading the digits gives the
      number back: the grouping loses nothing. */
  lemma {:induction false} GroupedRoundTrip(n: nat)
    ensures AllDigits(StripCommas(Grouped(n)))
    ensures ParseDecimal(StripCommas(Grouped(n))) == n
  {
    if n < 1000 {
      var d := Decimal(n);
      StripCommasDigits([], d);
      assert [] + d == d;
      assert StripCommas(Grouped(n)) == d;
      DecimalRoundTrip(n);
    } else {
      var g := Grouped(n / 1000);
      var p := Pad3(n % 1000);
      GroupedRoundTrip(n / 1000);
      var x := StripCommas(g);
      assert StripCommas(Grouped(n)) == x + p by {
        assert Grouped(n) == (g + ",") + p;
        assert (g + ",")[..|g + ","| - 1] == g;
        assert StripCommas(g + ",") == x;
        StripCommasDigits(g + ",", p);
      }
      ParsePad3(x, n % 1000);
      assert ParseDecimal(x + p) == n / 1000 * 1000 + n % 1000;
    }
  }
}
