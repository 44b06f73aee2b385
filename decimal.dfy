/** Decimal text for integers: the `%d` verb of Go's fmt package, and
    strconv.Atoi, which reads the numeric menu choice back. */
module Decimal {
  import opened Common

  const MinInt64: int := -0x8000_0000_0000_0000
  const MaxInt64: int := 0x7fff_ffff_ffff_ffff

  predicate IsDigit(c: char) {
    '0' <= c <= '9'
  }

  function DigitChar(d: nat): char
    requires d < 10
  {
    "0123456789"[d]
  }

  function DigitValue(c: char): nat
    requires IsDigit(c)
  {
    (c as int - '0' as int) as nat
  }

  predicate AllDigits(s: string) {
    forall i :: 0 <= i < |s| ==> IsDigit(s[i])
  }

  /** The shortest decimal spelling of n, most significant digit first. */
  function NatToDecimal(n: nat): (r: string)
    ensures |r| > 0 && AllDigits(r)
    ensures n >= 10 ==> r[0] != '0'
    decreases n
  {
    if n < 10 then [DigitChar(n)] else NatToDecimal(n / 10) + [DigitChar(n % 10)]
  }

  /** `%d` of a Go int: a leading minus sign for negative values. */
  function IntToDecimal(i: int): (r: string)
    ensures |r| > 0
    ensures i >= 0 ==> AllDigits(r)
    ensures i < 0 ==> r[0] == '-' && AllDigits(r[1..]) && r[1..] == NatToDecimal(-i)
  {
    if i < 0 then "-" + NatToDecimal(-i) else NatToDecimal(i)
  }

  /** The value of a string of digits, most significant first. */
  function ParseDecimal(s: string): nat
    requires AllDigits(s)
  {
    if s == [] then 0 else ParseDecimal(s[..|s| - 1]) * 10 + DigitValue(s[|s| - 1])
  }

  /** Whether a text opens with a sign character. */
  predicate HasSign(s: string) {
    |s| > 0 && (s[0] == '-' || s[0] == '+')
  }

  /** The text after its optional sign. */
  function Unsigned(s: string): (r: string)
    ensures HasSign(s) ==> r == s[1..]
    ensures !HasSign(s) ==> r == s
  {
    if HasSign(s) then s[1..] else s
  }

  /** strconv.Atoi: an optional sign followed by at least one decimal digit,
      whose value fits in 64 bits; anything else is an error (None). */
  function Atoi(s: string): (r: Option<int>)
    ensures s == "" ==> r == None
    ensures r.Some? <==>
      && |Unsigned(s)| > 0 && AllDigits(Unsigned(s))
      && (if s[0] == '-' then ParseDecimal(Unsigned(s)) <= -MinInt64 else ParseDecimal(Unsigned(s)) <= MaxInt64)
    ensures r.Some? ==> r.value == if s[0] == '-' then -(ParseDecimal(Unsigned(s)) as int) else ParseDecimal(Unsigned(s))
    ensures r.Some? ==> MinInt64 <= r.value <= MaxInt64
  {
    var digits := Unsigned(s);
    if |digits| == 0 || !AllDigits(digits) then None
    else
      var magnitude: int := ParseDecimal(digits);
      var v: int := if s[0] == '-' then -magnitude else magnitude;
      if v < MinInt64 || v > MaxInt64 then None else Some(v)
  }

  /** Reading back what `%d` writes gives the number that was written. */
  lemma {:induction false} ParseNatToDecimal(n: nat)
    ensures ParseDecimal(NatToDecimal(n)) == n
    decreases n
  {
    var s := NatToDecimal(n);
    if n >= 10 {
      ParseNatToDecimal(n / 10);
      assert s[..|s| - 1] == NatToDecimal(n / 10);
    }
  }

  /** Atoi accepts every `%d` spelling of a 64-bit value and returns it. */
  lemma AtoiOfIntToDecimal(i: int)
    requires MinInt64 <= i <= MaxInt64
    ensures Atoi(IntToDecimal(i)) == Some(i)
  {
    if i < 0 {
      AtoiOfNegative(i);
    } else {
      AtoiOfNonNegative(i);
    }
  }

  lemma AtoiOfNegative(i: int)
    requires MinInt64 <= i < 0
    ensures Atoi(IntToDecimal(i)) == Some(i)
  {
    var n: nat := -i;
    var s, d := IntToDecimal(i), NatToDecimal(n);
    ParseNatToDecimal(n);
    assert s[0] == '-' && s[1..] == d;
    assert HasSign(s) && Unsigned(s) == d;
  }

  lemma AtoiOfNonNegative(i: nat)
    requires i <= MaxInt64
    ensures Atoi(IntToDecimal(i)) == Some(i)
  {
    var s := IntToDecimal(i);
    ParseNatToDecimal(i);
    assert s == NatToDecimal(i);
    assert AllDigits(s) && ParseDecimal(s) == i;
  }

  lemma NatToDecimalInjective(m: nat, n: nat)
    requires NatToDecimal(m) == NatToDecimal(n)
    ensures m == n
  {
    ParseNatToDecimal(m);
    ParseNatToDecimal(n);
  }

  /** Different integers are never spelled alike, so distinct question IDs
      give distinct transcript headings. */
  lemma IntToDecimalInjective(i: int, j: int)
    requires IntToDecimal(i) == IntToDecimal(j)
    ensures i == j
  {
    if i < 0 && j < 0 {
      NatToDecimalInjective(-i, -j);
    } else if i >= 0 && j >= 0 {
      NatToDecimalInjective(i, j);
    }
  }

  lemma DigitRoundTrip(c: char)
    requires IsDigit(c)
    ensures DigitValue(c) < 10 && DigitChar(DigitValue(c)) == c
  {
  }

  lemma DivModTen(a: nat, b: nat)
    requires b < 10
    ensures (a * 10 + b) / 10 == a && (a * 10 + b) % 10 == b
  {
  }

  /** d is some leading zeros followed by the shortest spelling of its value. */
  ghost predicate ZeroPadded(d: string)
    requires AllDigits(d)
  {
    && |NatToDecimal(ParseDecimal(d))| <= |d|
    && d == Repeat('0', |d| - |NatToDecimal(ParseDecimal(d))|) + NatToDecimal(ParseDecimal(d))
  }

  /** A digit after a run of zeros: zeros, then that digit's spelling. */
  lemma ZerosThenDigit(d: string)
    requires |d| > 1 && AllDigits(d) && AllDigits(d[..|d| - 1])
    requires ParseDecimal(d[..|d| - 1]) == 0 && ZeroPadded(d[..|d| - 1])
    ensures ZeroPadded(d)
  {
    var init, c := d[..|d| - 1], d[|d| - 1];
    DigitRoundTrip(c);
    assert ParseDecimal(d) == DigitValue(c);
    assert NatToDecimal(DigitValue(c)) == [c];
    assert NatToDecimal(0) == ['0'];
    assert init == Repeat('0', |init| - 1) + ['0'];
    assert init == Repeat('0', |init|);
    assert d == init + [c];
  }

  /** A digit after a non-zero value extends the value's spelling. */
  lemma NonZeroThenDigit(d: string)
    requires |d| > 1 && AllDigits(d) && AllDigits(d[..|d| - 1])
    requires ParseDecimal(d[..|d| - 1]) > 0 && ZeroPadded(d[..|d| - 1])
    ensures ZeroPadded(d)
  {
    var init, c := d[..|d| - 1], d[|d| - 1];
    DigitRoundTrip(c);
    var a, b := ParseDecimal(init), DigitValue(c);
    assert ParseDecimal(d) == a * 10 + b;
    DivModTen(a, b);
    assert NatToDecimal(a * 10 + b) == NatToDecimal(a) + [c];
    var k := |init| - |NatToDecimal(a)|;
    AppendAssociative(Repeat('0', k), NatToDecimal(a), [c]);
    assert d == init + [c];
  }

  /** Any non-empty digit string is leading zeros followed by the shortest
      spelling of its value. */
  lemma {:induction false} ZerosThenDecimal(d: string)
    requires |d| > 0 && AllDigits(d)
    ensures ZeroPadded(d)
    decreases |d|
  {
    if |d| == 1 {
      DigitRoundTrip(d[0]);
      assert d[..0] == [];
      assert ParseDecimal(d) == DigitValue(d[0]);
      assert d == [d[0]];
    } else {
      var init := d[..|d| - 1];
      assert AllDigits(init) by {
        assert forall k :: 0 <= k < |init| ==> init[k] == d[k];
      }
      ZerosThenDecimal(init);
      if ParseDecimal(init) == 0 {
        ZerosThenDigit(d);
      } else {
        NonZeroThenDigit(d);
      }
    }
  }

  /** The converse of AtoiOfIntToDecimal: a text Atoi accepts is an optional
      sign, leading zeros and the `%d` spelling of the value's magnitude, and
      a minus sign in front of a non-zero value. */
  lemma AtoiSpelling(s: string, v: int)
    requires Atoi(s) == Some(v)
    ensures |NatToDecimal(Abs(v))| <= |Unsigned(s)|
    ensures Unsigned(s) == Repeat('0', |Unsigned(s)| - |NatToDecimal(Abs(v))|) + NatToDecimal(Abs(v))
    ensures v < 0 ==> s[0] == '-'
  {
    var d := Unsigned(s);
    assert Abs(v) == ParseDecimal(d);
    ZerosThenDecimal(d);
  }

  /** "3a", "+" and "-" are rejected; "+3" and "03" read as 3. */
  lemma AtoiExamples()
    ensures Atoi("3a") == None && Atoi("+") == None && Atoi("-") == None
    ensures Atoi("+3") == Some(3) && Atoi("03") == Some(3)
  {
    assert !IsDigit('a') && ("3a")[1] == 'a';
    assert "+3"[1..] == "3";
    assert "03"[..1] == "0";
  }
}
