/** Amounts as decimal text: at most 18 digits after the dot, of which no trailing zero is written. */
module AmountText {
  import opened Options

  const FRACTIONAL_MAX := 1_000_000_000_000_000_000
  const FRACTIONAL_COUNT := 18
  const I64 := 0x8000_0000_0000_0000
  const U64 := 0x1_0000_0000_0000_0000

  // ---- decimal numerals ----

  function Pow10(n: nat): (p: nat)
    ensures p > 0
  {
    if n == 0 then 1 else 10 * Pow10(n - 1)
  }

  predicate IsDigit(c: char) {
    '0' <= c <= '9'
  }

  predicate Digits(s: string) {
    forall i :: 0 <= i < |s| ==> IsDigit(s[i])
  }

  function Digit(n: nat): (c: char)
    requires n < 10
    ensures IsDigit(c) && DigitValue(c) == n && (c == '0' <==> n == 0)
  {
    '0' + n as char
  }

  function DigitValue(c: char): (n: nat)
    requires IsDigit(c)
    ensures n < 10
  {
    c as int - '0' as int
  }

  function Value(s: string): nat
    requires Digits(s)
  {
    if s == [] then 0 else 10 * Value(s[..|s| - 1]) + DigitValue(s[|s| - 1])
  }

  predicate AllZero(s: string) {
    forall i :: 0 <= i < |s| ==> s[i] == '0'
  }

  function Zeros(n: nat): (s: string)
    ensures |s| == n && AllZero(s)
  {
    seq(n, _ => '0')
  }

  /** The numeral of a positive number; nothing for zero. */
  function Numeral(n: nat): string {
    if n == 0 then "" else Numeral(n / 10) + [Digit(n % 10)]
  }

  lemma ValueSnoc(s: string, n: nat)
    requires Digits(s) && n < 10
    ensures Digits(s + [Digit(n)]) && Value(s + [Digit(n)]) == 10 * Value(s) + n
  {
    var t := s + [Digit(n)];
    assert t[..|t| - 1] == s;
  }

  lemma {:induction false} NumeralSpec(n: nat)
    ensures Digits(Numeral(n)) && Value(Numeral(n)) == n
    ensures n > 0 ==> |Numeral(n)| > 0 && Numeral(n)[0] != '0'
  {
    if n > 0 {
      var q, r := n / 10, n % 10;
      NumeralSpec(q);
      ValueSnoc(Numeral(q), r);
    }
  }

  lemma {:induction false} ValueConcat(s: string, t: string)
    requires Digits(s) && Digits(t)
    ensures Digits(s + t) && Value(s + t) == Value(s) * Pow10(|t|) + Value(t)
  {
    if t == [] {
      assert s + t == s;
    } else {
      var u := t[..|t| - 1];
      ValueConcat(s, u);
      assert (s + t)[..|s + t| - 1] == s + u;
      ValueStep(Value(s), Pow10(|u|), Value(u), DigitValue(t[|t| - 1]));
    }
  }

  lemma ValueStep(a: nat, p: nat, b: nat, d: nat)
    ensures 10 * (a * p + b) + d == a * (10 * p) + (10 * b + d)
  {
  }

  lemma {:induction false} ValueZeros(s: string)
    requires AllZero(s)
    ensures Digits(s) && Value(s) == 0
  {
    if s != [] { ValueZeros(s[..|s| - 1]); }
  }

  lemma {:induction false} ValueBound(s: string)
    requires Digits(s)
    ensures Value(s) < Pow10(|s|)
  {
    if s != [] { ValueBound(s[..|s| - 1]); }
  }

  lemma {:induction false} ValuePositive(s: string)
    requires Digits(s) && s != [] && s[0] != '0'
    ensures Value(s) > 0
  {
    if |s| > 1 { ValuePositive(s[..|s| - 1]); }
  }

  lemma Widths()
    ensures Pow10(18) == FRACTIONAL_MAX
  {
    assert Pow10(6) == 1_000_000;
    assert Pow10(12) == 1_000_000_000_000;
  }

  // ---- the two fraction loops ----

  /** Where the trailing zeros of `s` begin. */
  function TrimEnd(s: string): (n: nat)
    ensures n <= |s| && (n > 0 ==> s[n - 1] != '0') && forall i :: n <= i < |s| ==> s[i] == '0'
  {
    if s == [] || s[|s| - 1] != '0' then |s| else TrimEnd(s[..|s| - 1])
  }

  /** `s` behind zeros up to 18 digits. */
  function Wide(s: string): (t: string)
    requires |s| <= FRACTIONAL_COUNT
    ensures |t| == FRACTIONAL_COUNT
  {
    Zeros(FRACTIONAL_COUNT - |s|) + s
  }

  /** The fraction that `s` stands for, without trailing zeros. */
  function Fraction(s: string): string
    requires |s| <= FRACTIONAL_COUNT
  {
    Wide(s)[..TrimEnd(Wide(s))]
  }

  method FormatFractional(str: string) returns (text: string)
    requires |str| <= FRACTIONAL_COUNT
    ensures text == Fraction(str)
  {
    var pads := new char[FRACTIONAL_COUNT](_ => '0');
    var last, seen := 0, false;
    var diff := FRACTIONAL_COUNT - |str|;
    ghost var wide := Wide(str);
    for i := 0 to |str|
      invariant forall j :: 0 <= j < diff + i ==> pads[j] == wide[j]
      invariant forall j :: diff + i <= j < FRACTIONAL_COUNT ==> pads[j] == '0'
      invariant !seen ==> last == 0 && forall j :: FRACTIONAL_COUNT - i <= j < FRACTIONAL_COUNT ==> wide[j] == '0'
      invariant seen ==> 0 < last <= FRACTIONAL_COUNT && wide[last - 1] != '0'
      invariant seen ==> forall j :: last <= j < FRACTIONAL_COUNT ==> wide[j] == '0'
    {
      pads[diff + i] := str[i];
      if !seen {
        if str[|str| - i - 1] != '0' {
          assert wide[FRACTIONAL_COUNT - i - 1] != '0';
          last, seen := diff + |str| - i - 1 + 1, true;
        }
      }
    }
    assert pads[..] == wide;
    LastNonZero(wide, last);
    text := pads[..last];
  }

  lemma LastNonZero(t: string, last: nat)
    requires last <= |t| && (last > 0 ==> t[last - 1] != '0') && forall j :: last <= j < |t| ==> t[j] == '0'
    ensures TrimEnd(t) == last
  {
  }

  /** Where the leading zeros of `s` end; zero when there is nothing else. */
  function SkipZeros(s: string): (n: nat)
    ensures n <= |s| && forall i :: 0 <= i < n ==> s[i] == '0'
  {
    if AllZero(s) then 0 else First(s)
  }

  function First(s: string): (n: nat)
    requires !AllZero(s)
    ensures n < |s| && s[n] != '0' && forall i :: 0 <= i < n ==> s[i] == '0'
  {
    if s[0] != '0' then 0 else 1 + First(s[1..])
  }

  /** `s` filled up with zeros to 18 digits. */
  function Long(s: string): (t: string)
    requires |s| <= FRACTIONAL_COUNT
    ensures |t| == FRACTIONAL_COUNT
  {
    s + Zeros(FRACTIONAL_COUNT - |s|)
  }

  /** `s` filled up with zeros to 18 digits, without the zeros it begins with. */
  function Padded(s: string): string
    requires |s| <= FRACTIONAL_COUNT
  {
    Long(s)[SkipZeros(s)..]
  }

  /** Writing behind the buffer crashes. */
  method PadFractional(str: string) returns (text: string, crashed: bool)
    ensures crashed <==> |str| > FRACTIONAL_COUNT
    ensures !crashed ==> text == Padded(str)
  {
    var pads := new char[FRACTIONAL_COUNT](_ => '0');
    var first, seen := 0, false;
    ghost var long := if |str| <= FRACTIONAL_COUNT then Long(str) else str;
    for i := 0 to |str|
      invariant i <= FRACTIONAL_COUNT
      invariant forall j :: 0 <= j < i ==> pads[j] == long[j]
      invariant forall j :: i <= j < FRACTIONAL_COUNT ==> pads[j] == '0'
      invariant !seen ==> first == 0 && forall j :: 0 <= j < i ==> str[j] == '0'
      invariant seen ==> first < i && str[first] != '0' && forall j :: 0 <= j < first ==> str[j] == '0'
    {
      if i == FRACTIONAL_COUNT {
        return "", true;
      }
      pads[i] := str[i];
      if !seen {
        if str[i] != '0' {
          first, seen := i, true;
        }
      }
    }
    assert pads[..] == long;
    FirstNonZero(str, first, seen);
    text, crashed := pads[first..], false;
  }

  lemma FirstNonZero(s: string, first: nat, seen: bool)
    requires !seen ==> first == 0 && AllZero(s)
    requires seen ==> first < |s| && s[first] != '0' && forall j :: 0 <= j < first ==> s[j] == '0'
    ensures SkipZeros(s) == first
  {
  }

  // ---- text of an amount ----

  /** The numeral of the whole amount in its smallest unit, with a sign. */
  function Whole(a: int): string
    requires a != 0
  {
    if a < 0 then "-" + Numeral(-a) else Numeral(a)
  }

  function Format(a: int): string {
    if a == 0 then "0"
    else
      var s := Whole(a);
      if |s| <= FRACTIONAL_COUNT then "0" + "." + Fraction(s)
      else
        var k := |s| - FRACTIONAL_COUNT;
        var f := s[k..][..TrimEnd(s[k..])];
        if |f| > 0 then s[..k] + "." + f else s[..k]
  }

  // ---- reading it back ----

  datatype Parsed = Ok(amount: int) | InvalidAmountFormat | Crash

  function ParseUint(s: string): Option<nat> {
    if s == [] || !Digits(s) || Value(s) >= U64 then None else Some(Value(s))
  }

  /** A 64-bit unsigned number read as a signed one. */
  function ToSigned(n: nat): int
    requires n < U64
  {
    if n < I64 then n else n - U64
  }

  function CoinAmount(i: nat, f: nat): int
    requires i < U64 && f < U64
  {
    if i == 0 then ToSigned(f)
    else if f == 0 then ToSigned(i) * FRACTIONAL_MAX
    else ToSigned(i) * FRACTIONAL_MAX + ToSigned(f)
  }

  function Dot(s: string): (n: nat)
    ensures n <= |s| && (n < |s| ==> s[n] == '.') && forall i :: 0 <= i < n ==> s[i] != '.'
  {
    if s == [] || s[0] == '.' then 0 else 1 + Dot(s[1..])
  }

  function ReadOne(ints: string): Parsed {
    var i := ParseUint(ints);
    if i.None? then InvalidAmountFormat else Ok(CoinAmount(i.value, 0))
  }

  function ReadTwo(ints: string, frac: string): Parsed {
    var i := ParseUint(ints);
    if i.None? then InvalidAmountFormat
    else if |frac| > FRACTIONAL_COUNT then Crash
    else
      var f := ParseUint(Padded(frac));
      if f.None? then InvalidAmountFormat else Ok(CoinAmount(i.value, f.value))
  }

  function Parse(s: string): Parsed {
    var k := Dot(s);
    if k == |s| then ReadOne(s) else ReadTwo(s[..k], s[k + 1..])
  }

  // ---- the way there and back ----

  predicate NoDot(s: string) {
    forall i :: 0 <= i < |s| ==> s[i] != '.'
  }

  lemma ParseOne(s: string)
    requires NoDot(s)
    ensures Parse(s) == ReadOne(s)
  {
  }

  lemma ParseTwo(s: string, t: string)
    requires NoDot(s)
    ensures Parse(s + "." + t) == ReadTwo(s, t)
  {
    var u := s + "." + t;
    assert u[|s|] == '.' && forall i :: 0 <= i < |s| ==> u[i] == s[i];
    assert Dot(u) == |s|;
    assert u[..|s|] == s && u[|s| + 1..] == t;
  }

  lemma PaddedParts(s: string, n: nat, p: string)
    requires |s| <= FRACTIONAL_COUNT && n == SkipZeros(s) && p == Padded(s)
    ensures Long(s) == s[..n] + p && AllZero(s[..n]) && p != []
    ensures Digits(p) <==> Digits(s)
  {
    var t := Long(s);
    assert t[..n] == s[..n];
    assert forall i :: 0 <= i < |p| ==> p[i] == t[n + i];
    if Digits(p) {
      forall i | 0 <= i < |s| ensures IsDigit(s[i]) {
        if i >= n { assert p[i - n] == s[i]; }
      }
    }
  }

  lemma LongValue(s: string, e: nat)
    requires |s| <= FRACTIONAL_COUNT && Digits(s) && e == FRACTIONAL_COUNT - |s|
    ensures Digits(Long(s)) && Value(Long(s)) == Value(s) * Pow10(e) < FRACTIONAL_MAX
  {
    ValueZeros(Zeros(e));
    ValueConcat(s, Zeros(e));
    ValueBound(Long(s));
    Widths();
  }

  /** Filling up a fraction shifts its value to the place behind the dot. */
  lemma PaddedValue(s: string, p: string, e: nat)
    requires |s| <= FRACTIONAL_COUNT && p == Padded(s) && Digits(s) && e == FRACTIONAL_COUNT - |s|
    ensures p != [] && Digits(p) && Value(p) == Value(s) * Pow10(e) < FRACTIONAL_MAX
  {
    var n := SkipZeros(s);
    PaddedParts(s, n, p);
    ValueZeros(s[..n]);
    ValueConcat(s[..n], p);
    LongValue(s, e);
  }

  /** Trimming a fraction and filling it up again gives its value. */
  lemma TrimmedBack(t: string, f: string, p: string)
    requires |t| == FRACTIONAL_COUNT && Digits(t) && f == t[..TrimEnd(t)] && p == Padded(f)
    ensures p != [] && Digits(p) && Value(p) == Value(t) < FRACTIONAL_MAX && (f == [] ==> Value(t) == 0)
  {
    var e := FRACTIONAL_COUNT - |f|;
    assert t == Long(f);
    PaddedValue(f, p, e);
    LongValue(f, e);
  }

  lemma ReadTrimmed(ints: string, t: string, f: string, i: nat, v: nat)
    requires ints != [] && Digits(ints) && i == Value(ints)
    requires |t| == FRACTIONAL_COUNT && Digits(t) && f == t[..TrimEnd(t)] && v == Value(t)
    ensures v < FRACTIONAL_MAX && (f == [] ==> v == 0)
    ensures ReadTwo(ints, f) == if i < U64 then Ok(CoinAmount(i, v)) else InvalidAmountFormat
  {
    TrimmedBack(t, f, Padded(f));
  }

  lemma WideValue(s: string, t: string)
    requires |s| <= FRACTIONAL_COUNT && Digits(s) && t == Wide(s)
    ensures Digits(t) && Value(t) == Value(s)
  {
    var z := Zeros(FRACTIONAL_COUNT - |s|);
    ValueZeros(z);
    ValueConcat(z, s);
  }

  lemma ZeroText(zero: string)
    requires zero == "0"
    ensures zero != [] && Digits(zero) && NoDot(zero) && Value(zero) == 0
  {
  }

  lemma SmallBack(a: nat, s: string, text: string, zero: string)
    requires a > 0 && s == Numeral(a) && |s| <= FRACTIONAL_COUNT && zero == "0" && text == zero + "." + Fraction(s)
    ensures Parse(text) == Ok(a) && a < FRACTIONAL_MAX
  {
    NumeralSpec(a);
    WideValue(s, Wide(s));
    ZeroText(zero);
    ReadTrimmed(zero, Wide(s), Fraction(s), 0, a);
    ParseTwo(zero, Fraction(s));
  }

  /** The integer part and the fraction of a long numeral. */
  lemma LongParts(s: string, k: nat)
    requires Digits(s) && |s| == k + FRACTIONAL_COUNT && k > 0 && s[0] != '0'
    ensures Digits(s[..k]) && Digits(s[k..]) && Value(s[..k]) > 0
    ensures Value(s) == Value(s[..k]) * FRACTIONAL_MAX + Value(s[k..])
  {
    assert s == s[..k] + s[k..];
    ValueConcat(s[..k], s[k..]);
    ValuePositive(s[..k]);
    Widths();
  }

  lemma LongBack(ints: string, t: string, frac: string, i: nat, f: nat)
    requires ints != [] && Digits(ints) && i == Value(ints)
    requires |t| == FRACTIONAL_COUNT && Digits(t) && f == Value(t) && frac == t[..TrimEnd(t)]
    ensures f < FRACTIONAL_MAX
    ensures Parse(if |frac| > 0 then ints + "." + frac else ints) == if i < U64 then Ok(CoinAmount(i, f))
      else InvalidAmountFormat
  {
    ReadTrimmed(ints, t, frac, i, f);
    ParseOne(ints);
    ParseTwo(ints, frac);
  }

  lemma PositiveBack(a: nat) returns (i: nat, f: nat)
    requires a > 0 && |Whole(a)| > FRACTIONAL_COUNT
    ensures a == i * FRACTIONAL_MAX + f && i > 0 && f < FRACTIONAL_MAX
    ensures Parse(Format(a)) == if i < U64 then Ok(CoinAmount(i, f)) else InvalidAmountFormat
  {
    NumeralSpec(a);
    var s := Whole(a);
    var k := |s| - FRACTIONAL_COUNT;
    LongParts(s, k);
    i, f := Value(s[..k]), Value(s[k..]);
    LongBack(s[..k], s[k..], s[k..][..TrimEnd(s[k..])], i, f);
  }

  lemma CoinBack(a: nat, i: nat, f: nat)
    requires a == i * FRACTIONAL_MAX + f && i > 0 && f < FRACTIONAL_MAX
    ensures (i < I64 <==> a < I64 * FRACTIONAL_MAX) && (i < U64 <==> a < U64 * FRACTIONAL_MAX)
    ensures i < U64 ==> CoinAmount(i, f) == if i < I64 then a else a - U64 * FRACTIONAL_MAX
  {
  }

  lemma NegativeText(s: string)
    requires s != [] && s[0] == '-' && |s| <= FRACTIONAL_COUNT
    ensures |Fraction(s)| <= FRACTIONAL_COUNT && !Digits(Padded(Fraction(s)))
  {
    var t, f := Wide(s), Fraction(s);
    assert t[FRACTIONAL_COUNT - |s|] == '-';
    assert f[FRACTIONAL_COUNT - |s|] == '-';
    PaddedParts(f, SkipZeros(f), Padded(f));
  }

  lemma NegativeSmall(s: string, zero: string)
    requires s != [] && s[0] == '-' && |s| <= FRACTIONAL_COUNT && zero == "0"
    ensures Parse(zero + "." + Fraction(s)) == InvalidAmountFormat
  {
    ZeroText(zero);
    NegativeText(s);
    ParseTwo(zero, Fraction(s));
  }

  lemma NegativeLong(ints: string, frac: string)
    requires ints != [] && ints[0] == '-' && NoDot(ints)
    ensures Parse(ints) == InvalidAmountFormat && Parse(ints + "." + frac) == InvalidAmountFormat
  {
    assert !Digits(ints);
    ParseOne(ints);
    ParseTwo(ints, frac);
  }

  lemma NegativeHead(s: string, k: nat, head: string)
    requires s != [] && s[0] == '-' && NoDot(s) && 0 < k <= |s| && head == s[..k]
    ensures head != [] && head[0] == '-' && NoDot(head)
  {
    assert forall i :: 0 <= i < k ==> head[i] == s[i];
  }

  lemma NegativeWhole(a: int, s: string)
    requires a < 0 && s == Whole(a)
    ensures s != [] && s[0] == '-' && NoDot(s)
  {
    NumeralSpec(-a);
  }

  lemma FormatLong(a: int, s: string, k: nat, head: string, f: string)
    requires a != 0 && s == Whole(a) && |s| > FRACTIONAL_COUNT && k == |s| - FRACTIONAL_COUNT
    requires head == s[..k] && f == s[k..][..TrimEnd(s[k..])]
    ensures Format(a) == head + "." + f || Format(a) == head
  {
  }

  lemma NegativeFails(a: int, s: string)
    requires a < 0 && s == Whole(a)
    ensures Parse(Format(a)) == InvalidAmountFormat
  {
    NegativeWhole(a, s);
    if |s| <= FRACTIONAL_COUNT {
      NegativeSmall(s, "0");
    } else {
      var k := |s| - FRACTIONAL_COUNT;
      var head, f := s[..k], s[k..][..TrimEnd(s[k..])];
      NegativeHead(s, k, head);
      NegativeLong(head, f);
      FormatLong(a, s, k, head, f);
    }
  }

  /** An amount comes back from its text exactly when it is not negative and below 2^63 coins. From there to 2^64
      coins it comes back as a negative amount; all others are refused. */
  lemma RoundTripIff(a: int)
    ensures Parse(Format(a)) == Ok(a) <==> 0 <= a < I64 * FRACTIONAL_MAX
    ensures I64 * FRACTIONAL_MAX <= a < U64 * FRACTIONAL_MAX ==> Parse(Format(a)) == Ok(a - U64 * FRACTIONAL_MAX)
    ensures a < 0 || U64 * FRACTIONAL_MAX <= a ==> Parse(Format(a)) == InvalidAmountFormat
  {
    if a < 0 {
      NegativeFails(a, Whole(a));
    } else if a == 0 {
      ParseOne("0");
      assert Value("0") == 0;
    } else if |Whole(a)| <= FRACTIONAL_COUNT {
      SmallBack(a, Whole(a), Format(a), "0");
    } else {
      var i, f := PositiveBack(a);
      CoinBack(a, i, f);
    }
  }

  /** What a text means: the digits before the dot are coins, those behind it fractions of `e` places less than 18. It
      is read so when there are digits before the dot, below 2^63, and no more than 18 digits behind it. */
  lemma ParseMeans(ints: string, frac: string, e: int, text: string)
    requires NoDot(ints) && e == FRACTIONAL_COUNT - |frac| && text == ints + "." + frac
    ensures Parse(text) == Crash <==> ints != [] && Digits(ints) && Value(ints) < U64 && e < 0
    ensures Parse(text).Ok? <==> ints != [] && Digits(ints) && Value(ints) < U64 && Digits(frac) && e >= 0
    ensures ints != [] && Digits(ints) && Value(ints) < I64 && Digits(frac) && e >= 0 ==>
      Parse(text) == Ok(Value(ints) * FRACTIONAL_MAX + Value(frac) * Pow10(e))
  {
    ParseTwo(ints, frac);
    TwoMean(ints, frac, e);
  }

  lemma TwoMean(ints: string, frac: string, e: int)
    requires e == FRACTIONAL_COUNT - |frac|
    ensures ReadTwo(ints, frac) == Crash <==> ints != [] && Digits(ints) && Value(ints) < U64 && e < 0
    ensures ReadTwo(ints, frac).Ok? <==> ints != [] && Digits(ints) && Value(ints) < U64 && Digits(frac) && e >= 0
    ensures ints != [] && Digits(ints) && Value(ints) < I64 && Digits(frac) && e >= 0 ==>
      ReadTwo(ints, frac) == Ok(Value(ints) * FRACTIONAL_MAX + Value(frac) * Pow10(e))
  {
    if e >= 0 {
      PaddedParts(frac, SkipZeros(frac), Padded(frac));
      if Digits(frac) { PaddedValue(frac, Padded(frac), e); }
    }
  }
}
