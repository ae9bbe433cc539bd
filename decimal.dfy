/** Decimal text of 64-bit integers as Rust prints and parses it: `{}` and `{:05}` formatting
    and `str::parse::<i64>()`. */
module Decimal {
  import opened Wrappers

  const I64Min: int := -0x8000_0000_0000_0000
  const I64Max: int := 0x7FFF_FFFF_FFFF_FFFF

  predicate IsDigit(c: char) {
    '0' <= c <= '9'
  }

  predicate AllDigits(s: string) {
    forall i :: 0 <= i < |s| ==> IsDigit(s[i])
  }

  function DigitChar(d: nat): (c: char)
    requires d < 10
    ensures IsDigit(c)
  {
    ('0' as int + d) as char
  }

  function DigitValue(c: char): (d: nat)
    requires IsDigit(c)
    ensures d < 10
  {
    c as int - '0' as int
  }

  /** The decimal digits of `n`, most significant first, without leading zeros. */
  function Digits(n: nat): (s: string)
    ensures |s| >= 1 && AllDigits(s)
    ensures n >= 10 <==> |s| > 1
    decreases n
  {
    if n < 10 then [DigitChar(n)] else Digits(n / 10) + [DigitChar(n % 10)]
  }

  /** The number a string of digits denotes (leading zeros allowed). */
  function DigitsValue(s: string): nat
    requires AllDigits(s)
  {
    if s == [] then 0 else DigitsValue(s[..|s| - 1]) * 10 + DigitValue(s[|s| - 1])
  }

  /** A run of `k` zero characters. */
  function Zeros(k: nat): (z: string)
    ensures |z| == k && AllDigits(z)
  {
    if k == 0 then "" else Zeros(k - 1) + "0"
  }

  /** Left-pad a digit string with zeros up to `width` characters. */
  function ZeroPad(s: string, width: nat): (p: string)
    requires AllDigits(s)
    ensures AllDigits(p)
    ensures |p| == if |s| >= width then |s| else width
  {
    if |s| >= width then s else Zeros(width - |s|) + s
  }

  /** Rust's `{}` on an integer. */
  function FormatInt(n: int): string {
    if n < 0 then "-" + Digits(-n) else Digits(n)
  }

  /** Rust's `{:05}` on an integer: zero padding after the sign up to width 5. */
  function Pad5(n: int): (s: string)
    ensures |s| >= 5
  {
    if n < 0 then "-" + ZeroPad(Digits(-n), 4) else ZeroPad(Digits(n), 5)
  }

  /** Rust's `str::parse::<i64>()`: an optional sign, then one or more digits and nothing
      else, and the number must fit in 64 bits. */
  function ParseI64(s: string): Option<int> {
    if |s| > 0 && (s[0] == '-' || s[0] == '+') then
      var body := s[1..];
      if |body| > 0 && AllDigits(body) then
        var magnitude: int := DigitsValue(body);
        var n: int := if s[0] == '-' then -magnitude else magnitude;
        if I64Min <= n <= I64Max then Some(n) else None
      else None
    else if |s| > 0 && AllDigits(s) && DigitsValue(s) <= I64Max then Some(DigitsValue(s))
    else None
  }

  lemma {:induction false} DigitsValueOfDigits(n: nat)
    ensures DigitsValue(Digits(n)) == n
    decreases n
  {
    var s := Digits(n);
    if n >= 10 {
      DigitsValueOfDigits(n / 10);
      assert s[..|s| - 1] == Digits(n / 10);
    }
  }

  lemma {:induction false} ZerosValue(k: nat)
    ensures DigitsValue(Zeros(k)) == 0
  {
    if k > 0 {
      ZerosValue(k - 1);
      assert Zeros(k)[..k - 1] == Zeros(k - 1);
    }
  }

  /** Leading zeros do not change the number a digit string denotes. */
  lemma {:induction false} LeadingZerosValue(k: nat, s: string)
    requires AllDigits(s)
    ensures AllDigits(Zeros(k) + s) && DigitsValue(Zeros(k) + s) == DigitsValue(s)
  {
    var t := Zeros(k) + s;
    assert AllDigits(t) by {
      forall i | 0 <= i < |t| ensures IsDigit(t[i]) {
        if i < k { assert t[i] == Zeros(k)[i]; } else { assert t[i] == s[i - k]; }
      }
    }
    if s == [] {
      assert t == Zeros(k);
      ZerosValue(k);
    } else {
      LeadingZerosValue(k, s[..|s| - 1]);
      assert t[..|t| - 1] == Zeros(k) + s[..|s| - 1];
      assert t[|t| - 1] == s[|s| - 1];
    }
  }

  /** A plain digit string within range parses to the number it denotes. */
  lemma {:induction false} ParseDigits(s: string)
    requires |s| > 0 && AllDigits(s) && DigitsValue(s) <= I64Max
    ensures ParseI64(s) == Some(DigitsValue(s))
  {
    assert IsDigit(s[0]);
  }

  /** A minus sign followed by a digit string within range parses to the negated number. */
  lemma {:induction false} ParseNegative(body: string)
    requires |body| > 0 && AllDigits(body) && I64Min <= -(DigitsValue(body) as int)
    ensures ParseI64("-" + body) == Some(-(DigitsValue(body) as int))
  {
    var s := "-" + body;
    assert s[0] == '-' && s[1..] == body;
  }

  /** Printing an in-range integer with `{}` and parsing it back yields the integer. */
  lemma {:induction false} FormatParseRoundTrip(n: int)
    requires I64Min <= n <= I64Max
    ensures ParseI64(FormatInt(n)) == Some(n)
  {
    if n < 0 {
      DigitsValueOfDigits(-n);
      ParseNegative(Digits(-n));
    } else {
      DigitsValueOfDigits(n);
      ParseDigits(Digits(n));
    }
  }

  /** Printing an in-range integer with `{:05}` keeps its value: the padded text parses back
      to the integer, and it is exactly five characters when the number has at most five. */
  lemma {:induction false} Pad5RoundTrip(n: int)
    requires I64Min <= n <= I64Max
    ensures ParseI64(Pad5(n)) == Some(n)
    ensures 0 <= n < 100000 ==> |Pad5(n)| == 5
  {
    if n < 0 {
      var d := Digits(-n);
      DigitsValueOfDigits(-n);
      PaddedValue(d, 4);
      ParseNegative(ZeroPad(d, 4));
    } else {
      var d := Digits(n);
      DigitsValueOfDigits(n);
      PaddedValue(d, 5);
      ParseDigits(ZeroPad(d, 5));
      if n < 100000 {
        assert Pow10(5) == 100000;
        DigitsBelow(n, 5);
      }
    }
  }

  /** Zero padding does not change the number a digit string denotes. */
  lemma {:induction false} PaddedValue(d: string, width: nat)
    requires AllDigits(d)
    ensures DigitsValue(ZeroPad(d, width)) == DigitsValue(d)
  {
    if |d| < width {
      assert ZeroPad(d, width) == Zeros(width - |d|) + d;
      LeadingZerosValue(width - |d|, d);
    } else {
      assert ZeroPad(d, width) == d;
    }
  }

  /** A number below 10^k has at most k digits. */
  lemma {:induction false} DigitsBelow(n: nat, k: nat)
    requires n < Pow10(k)
    ensures |Digits(n)| <= if k == 0 then 1 else k
  {
    if n >= 10 {
      assert Pow10(0) == 1 && Pow10(1) == 10;
      assert k >= 2;
      assert n / 10 < Pow10(k - 1);
      DigitsBelow(n / 10, k - 1);
    }
  }

  function Pow10(k: nat): (p: nat)
    ensures p >= 1
  {
    if k == 0 then 1 else 10 * Pow10(k - 1)
  }
}
