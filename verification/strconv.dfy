/** `strconv.Atoi` as the server configuration's timeouts go through it, and
    the `time.Duration(n) * time.Second` conversion that follows (main.go).
    A 64-bit platform is assumed: Go's `int` and `time.Duration` are 64 bits. */
module Strconv {
  import opened Results

  const MinInt64: int := -0x8000_0000_0000_0000
  const MaxInt64: int := 0x7FFF_FFFF_FFFF_FFFF

  /** Nanoseconds in a second: `time.Second`. */
  const Second: int := 1_000_000_000

  predicate IsDigit(c: char)
  {
    '0' <= c <= '9'
  }

  predicate AllDigits(s: string)
  {
    forall i :: 0 <= i < |s| ==> IsDigit(s[i])
  }

  /** The value of a run of decimal digits, most significant first. */
  function DigitsValue(ds: string): (v: nat)
    requires AllDigits(ds)
    decreases |ds|
  {
    if |ds| == 0 then 0
    else DigitsValue(ds[..|ds| - 1]) * 10 + (ds[|ds| - 1] as int - '0' as int)
  }

  /** `strconv.Atoi(s)`: an optional `+` or `-`, then one or more decimal
      digits (leading zeros allowed, nothing else: no blanks, no underscores),
      whose value fits in 64 bits. `None` is the error return. */
  function Atoi(s: string): (r: Option<int>)
    ensures r.Some? ==> MinInt64 <= r.value <= MaxInt64
    ensures r.Some? <==>
      && |s| >= 1
      && var ds := if s[0] == '+' || s[0] == '-' then s[1..] else s;
         && |ds| >= 1
         && AllDigits(ds)
         && MinInt64 <= (if s[0] == '-' then -(DigitsValue(ds) as int) else DigitsValue(ds)) <= MaxInt64
    ensures r.Some? ==>
      var ds := if s[0] == '+' || s[0] == '-' then s[1..] else s;
      r.value == if s[0] == '-' then -(DigitsValue(ds) as int) else DigitsValue(ds)
  {
    if |s| == 0 then None
    else
      var negative := s[0] == '-';
      var digits := if s[0] == '-' || s[0] == '+' then s[1..] else s;
      if |digits| == 0 || !AllDigits(digits) then None
      else
        var v: int := if negative then -(DigitsValue(digits) as int) else DigitsValue(digits);
        if MinInt64 <= v <= MaxInt64 then Some(v) else None
  }

  function DigitChar(d: nat): (c: char)
    requires d < 10
  {
    ('0' as int + d) as char
  }

  /** The shortest decimal spelling of a natural number. */
  function NatDigits(n: nat): (ds: string)
    ensures |ds| >= 1
    ensures AllDigits(ds)
    decreases n
  {
    if n < 10 then [DigitChar(n)] else NatDigits(n / 10) + [DigitChar(n % 10)]
  }

  /** `strconv.Itoa(n)`: the decimal spelling, with `-` for negatives. */
  function Itoa(n: int): (s: string)
  {
    if n < 0 then "-" + NatDigits(-n) else NatDigits(n)
  }

  lemma {:induction false} DigitsValueOfNatDigits(n: nat)
    ensures DigitsValue(NatDigits(n)) == n
    decreases n
  {
    if n >= 10 {
      DigitsValueOfNatDigits(n / 10);
      var ds := NatDigits(n);
      assert ds[..|ds| - 1] == NatDigits(n / 10);
    }
  }

  /** Every 64-bit integer survives printing and parsing back. */
  lemma AtoiItoa(n: int)
    requires MinInt64 <= n <= MaxInt64
    ensures Atoi(Itoa(n)) == Some(n)
  {
    var s := Itoa(n);
    if n < 0 {
      var ds := NatDigits(-n);
      DigitsValueOfNatDigits(-n);
      assert s[0] == '-';
      assert s[1..] == ds;
      assert -(DigitsValue(ds) as int) == n;
    } else {
      DigitsValueOfNatDigits(n);
      assert s[0] != '-' && s[0] != '+';
    }
  }

  /** Parsing a leading `+` or leading zeros away gives the same number. */
  lemma AtoiIgnoresPlusAndZeros(ds: string)
    requires |ds| >= 1 && AllDigits(ds)
    ensures Atoi("+" + ds) == Atoi(ds)
    ensures Atoi("0" + ds) == Atoi(ds)
  {
    assert ("+" + ds)[1..] == ds;
    ZeroPrefix(ds);
  }

  lemma {:induction false} ZeroPrefix(ds: string)
    requires AllDigits(ds)
    ensures AllDigits("0" + ds)
    ensures DigitsValue("0" + ds) == DigitsValue(ds)
    decreases |ds|
  {
    if |ds| > 0 {
      var zs := "0" + ds;
      assert zs[..|zs| - 1] == "0" + ds[..|ds| - 1];
      ZeroPrefix(ds[..|ds| - 1]);
    }
  }

  function Pow10(k: nat): (p: nat)
    ensures p >= 1
  {
    if k == 0 then 1 else 10 * Pow10(k - 1)
  }

  lemma {:induction false} DigitsValueLowerBound(ds: string)
    requires |ds| >= 1 && AllDigits(ds) && ds[0] != '0'
    ensures DigitsValue(ds) >= Pow10(|ds| - 1)
    decreases |ds|
  {
    if |ds| > 1 {
      var init := ds[..|ds| - 1];
      assert init[0] == ds[0];
      DigitsValueLowerBound(init);
    }
  }

  /** Twenty or more significant digits are out of range, whatever the sign:
      `Atoi` reports the error instead of truncating. */
  lemma TooManyDigits(ds: string)
    requires |ds| >= 20 && AllDigits(ds) && ds[0] != '0'
    ensures Atoi(ds) == None
    ensures Atoi("-" + ds) == None
    ensures Atoi("+" + ds) == None
  {
    DigitsValueLowerBound(ds);
    var k := |ds| - 1;
    Pow10Nineteen();
    PowMonotone(19, k);
    assert ("-" + ds)[1..] == ds;
    assert ("+" + ds)[1..] == ds;
  }

  lemma {:induction false} Pow10Add(a: nat, b: nat)
    ensures Pow10(a + b) == Pow10(a) * Pow10(b)
    decreases b
  {
    if b > 0 {
      Pow10Add(a, b - 1);
    }
  }

  lemma Pow10Nineteen()
    ensures Pow10(19) == 10_000_000_000_000_000_000
  {
    assert Pow10(3) == 1000;
    Pow10Add(2, 2);
    Pow10Add(4, 4);
    Pow10Add(8, 8);
    Pow10Add(16, 3);
  }

  lemma {:induction false} PowMonotone(j: nat, k: nat)
    requires j <= k
    ensures Pow10(j) <= Pow10(k)
    decreases k - j
  {
    if j < k {
      PowMonotone(j + 1, k);
    }
  }

  /** Two's-complement wrap-around of a 64-bit signed result. */
  function Wrap64(x: int): (r: int)
    ensures MinInt64 <= r <= MaxInt64
    ensures (r - x) % 0x1_0000_0000_0000_0000 == 0
    ensures MinInt64 <= x <= MaxInt64 ==> r == x
  {
    (x - MinInt64) % 0x1_0000_0000_0000_0000 + MinInt64
  }

  /** `time.Duration(n) * time.Second`, in nanoseconds, with Go's silent int64
      overflow. */
  function Seconds(n: int): (d: int)
    ensures MinInt64 <= d <= MaxInt64
    ensures MinInt64 <= n * Second <= MaxInt64 ==> d == n * Second
  {
    Wrap64(n * Second)
  }

  /** The product wraps modulo 2^64: a timeout from 9223372037 seconds (about
      292 years) up to 18446744073 seconds comes out negative, and larger
      values may wrap back to a positive duration. */
  lemma SecondsWraps()
    ensures Seconds(9_223_372_037) < 0
    ensures Seconds(18_446_744_073) < 0
    ensures Seconds(18_446_744_074) == 290_448_384
  {
  }

  /** The timeouts of the shipped configuration style: "30" parses to thirty
      seconds, "abc" does not parse. */
  lemma TimeoutExamples()
    ensures Atoi("30") == Some(30)
    ensures Seconds(30) == 30 * Second
    ensures Atoi("-5") == Some(-5)
    ensures Atoi("abc") == None
    ensures Atoi(" 30") == None
    ensures Atoi("-") == None
    ensures Atoi("1a") == None
  {
    assert "30"[..1] == "3";
    assert "3"[..0] == "";
    assert "5"[..0] == "";
    assert "-5"[1..] == "5";
    assert !IsDigit("abc"[0]);
    assert !IsDigit(" 30"[0]);
    assert !IsDigit("1a"[1]);
  }
}
