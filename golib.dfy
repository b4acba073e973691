/** The parts of Go's `strings` and `strconv` packages that the mount-namespace
    code calls: TrimPrefix, TrimSuffix and Atoi, with decimal rendering
    (strconv.Itoa) as Atoi's inverse. Go's `int` is taken to be 64 bits wide. */
module GoLib {

  /** Range of Go's `int` on a 64-bit platform. */
  const MaxInt: int := 0x7fff_ffff_ffff_ffff
  const MinInt: int := -0x8000_0000_0000_0000

  /** strings.TrimPrefix: `s` without its leading `prefix`, or `s` itself
      when it does not start with `prefix`. */
  function TrimPrefix(s: string, prefix: string): (r: string)
    ensures prefix <= s ==> prefix + r == s
    ensures !(prefix <= s) ==> r == s
  {
    if prefix <= s then s[|prefix|..] else s
  }

  predicate HasSuffix(s: string, suffix: string) {
    |suffix| <= |s| && s[|s| - |suffix|..] == suffix
  }

  /** strings.TrimSuffix: `s` without its trailing `suffix`, or `s` itself
      when it does not end with `suffix`. */
  function TrimSuffix(s: string, suffix: string): (r: string)
    ensures HasSuffix(s, suffix) ==> r + suffix == s
    ensures !HasSuffix(s, suffix) ==> r == s
  {
    if HasSuffix(s, suffix) then s[..|s| - |suffix|] else s
  }

  predicate IsDigit(c: char) { '0' <= c <= '9' }

  /** A non-empty run of ASCII decimal digits. */
  predicate IsDigits(s: string) {
    |s| > 0 && forall i :: 0 <= i < |s| ==> IsDigit(s[i])
  }

  function DigitValue(c: char): nat
    requires IsDigit(c)
  {
    c as int - '0' as int
  }

  function DigitChar(d: nat): (c: char)
    requires d < 10
    ensures IsDigit(c) && DigitValue(c) == d
  {
    ('0' as int + d) as char
  }

  /** The number a digit string denotes, most significant digit first. */
  function DigitsValue(s: string): nat
    requires forall i :: 0 <= i < |s| ==> IsDigit(s[i])
  {
    if s == [] then 0 else 10 * DigitsValue(s[..|s| - 1]) + DigitValue(s[|s| - 1])
  }

  /** What strconv.Atoi returns: a number, or an error whose kind is
      ErrSyntax (not a decimal integer) or ErrRange (does not fit an `int`). */
  datatype AtoiResult = Parsed(n: int) | ErrSyntax | ErrRange

  /** The largest value of Go's `uint64`, the accumulator of ParseUint. */
  const MaxUint64: int := 0xffff_ffff_ffff_ffff

  predicate HasSign(s: string) {
    |s| > 0 && (s[0] == '-' || s[0] == '+')
  }

  /** The length of the run of digits that `s` starts with. */
  function DigitRun(s: string): (k: nat)
    ensures k <= |s|
    ensures forall i :: 0 <= i < k ==> IsDigit(s[i])
    ensures k < |s| ==> !IsDigit(s[k])
  {
    if s == [] || !IsDigit(s[0]) then 0 else 1 + DigitRun(s[1..])
  }

  /** strconv.Atoi: an optional `+` or `-`, then one or more decimal digits
      (leading zeros allowed, no underscores, no spaces), whose value must lie
      in the range of a 64-bit `int`. The digits are read left to right into
      a `uint64`: a value that overflows it is a range error at that digit,
      before any later character is looked at; a non-digit reached first is
      a syntax error. */
  function Atoi(s: string): (r: AtoiResult)
    ensures s == "" ==> r == ErrSyntax
    ensures r.Parsed? ==> MinInt <= r.n <= MaxInt
    ensures r.Parsed? ==> s != "" && forall i :: 1 <= i < |s| ==> IsDigit(s[i])
    ensures r.Parsed? && r.n < 0 ==> s[0] == '-'
    ensures r.ErrRange? ==> |s| >= 19
  {
    var body := if HasSign(s) then s[1..] else s;
    var k := DigitRun(body);
    if k == 0 then ErrSyntax
    else if MaxUint64 < DigitsValue(body[..k]) then
      ShortDigitsBound(body[..k]);
      ErrRange
    else if k < |body| then ErrSyntax
    else
      assert body[..k] == body;
      var v: int := if s[0] == '-' then -(DigitsValue(body) as int) else DigitsValue(body);
      if v < MinInt || MaxInt < v then
        ShortDigitsBound(body);
        ErrRange
      else Parsed(v)
  }

  function Pow10(n: nat): (p: nat)
    ensures p >= 1
  {
    if n == 0 then 1 else 10 * Pow10(n - 1)
  }

  lemma {:induction false} Pow10Monotone(a: nat, b: nat)
    requires a <= b
    ensures Pow10(a) <= Pow10(b)
  {
    if a < b {
      Pow10Monotone(a, b - 1);
    }
  }

  lemma {:induction false} Pow10Add(a: nat, b: nat)
    ensures Pow10(a + b) == Pow10(a) * Pow10(b)
  {
    if b > 0 {
      Pow10Add(a, b - 1);
      assert Pow10(a + b) == 10 * (Pow10(a) * Pow10(b - 1));
    }
  }

  /** A run of at most 18 digits fits an `int`; one of at most 19 digits
      fits a `uint64`. */
  lemma ShortDigitsBound(s: string)
    requires forall i :: 0 <= i < |s| ==> IsDigit(s[i])
    ensures |s| <= 18 ==> DigitsValue(s) <= MaxInt
    ensures |s| <= 19 ==> DigitsValue(s) <= MaxUint64
  {
    DigitsValueBound(s);
    assert Pow10(6) == 1_000_000;
    Pow10Add(6, 6);
    Pow10Add(12, 6);
    assert Pow10(19) == 10 * Pow10(18);
    if |s| <= 19 {
      Pow10Monotone(|s|, 19);
    }
    if |s| <= 18 {
      Pow10Monotone(|s|, 18);
    }
  }

  /** A string of digits is one whole digit run. */
  lemma DigitRunAll(s: string)
    requires forall i :: 0 <= i < |s| ==> IsDigit(s[i])
    ensures DigitRun(s) == |s|
  {
  }

  /** A digit string denotes less than ten to the power of its length. */
  lemma {:induction false} DigitsValueBound(s: string)
    requires forall i :: 0 <= i < |s| ==> IsDigit(s[i])
    ensures DigitsValue(s) < Pow10(|s|)
  {
    if s != [] {
      DigitsValueBound(s[..|s| - 1]);
    }
  }

  /** Decimal digits of `n`, without leading zeros. */
  function Decimal(n: nat): (r: string)
    ensures IsDigits(r)
    ensures r[0] == '0' ==> n == 0
  {
    if n < 10 then [DigitChar(n)] else Decimal(n / 10) + [DigitChar(n % 10)]
  }

  /** strconv.Itoa: the decimal rendering of `n`, with `-` when negative. */
  function Itoa(n: int): string {
    if n < 0 then "-" + Decimal(-n) else Decimal(n)
  }

  lemma {:induction false} DecimalValue(n: nat)
    ensures DigitsValue(Decimal(n)) == n
  {
    if n >= 10 {
      var s := Decimal(n);
      assert s[..|s| - 1] == Decimal(n / 10);
      DecimalValue(n / 10);
    }
  }

  /** Atoi reads back every unsigned rendering: a number in range parses to
      itself, one above the range is a range error. */
  lemma AtoiDecimal(n: nat)
    ensures Atoi(Decimal(n)) == if n <= MaxInt then Parsed(n) else ErrRange
  {
    var s := Decimal(n);
    DigitRunAll(s);
    assert s[..|s|] == s;
    DecimalValue(n);
  }

  /** Atoi is a left inverse of Itoa on the whole `int` range. */
  lemma AtoiItoa(n: int)
    requires MinInt <= n <= MaxInt
    ensures Atoi(Itoa(n)) == Parsed(n)
  {
    if n < 0 {
      var s := Itoa(n);
      var digits := Decimal(-n);
      assert s[1..] == digits;
      DigitRunAll(digits);
      assert digits[..|digits|] == digits;
      DecimalValue(-n);
    } else {
      AtoiDecimal(n);
    }
  }

  /** Any sign-free digit string in range parses, leading zeros included. */
  lemma AtoiAcceptsDigits(s: string)
    requires IsDigits(s) && DigitsValue(s) <= MaxInt
    ensures Atoi(s) == Parsed(DigitsValue(s))
  {
    DigitRunAll(s);
    assert s[..|s|] == s;
  }

  /** A string with a character other than a digit after its first position,
      or a first character that is neither a digit nor a sign, is refused;
      when it is shorter than 19 characters the error is a syntax error. */
  lemma AtoiRejectsNonDigit(s: string, i: nat)
    requires i < |s| && !IsDigit(s[i])
    requires i > 0 || !HasSign(s)
    ensures !Atoi(s).Parsed?
    ensures |s| < 19 ==> Atoi(s) == ErrSyntax
  {
    var body := if HasSign(s) then s[1..] else s;
    var j := if HasSign(s) then i - 1 else i;
    assert !IsDigit(body[j]);
    var k := DigitRun(body);
    if 0 < k && |s| < 19 {
      ShortDigitsBound(body[..k]);
    }
  }

  /** A digit run that overflows `uint64` is a range error even when a
      non-digit follows it: Go stops at the overflowing digit. */
  lemma AtoiRangeBeforeNonDigit(d: nat, rest: string)
    requires MaxUint64 < d
    requires rest == [] || !IsDigit(rest[0])
    ensures Atoi(Decimal(d) + rest) == ErrRange
  {
    var digits := Decimal(d);
    var s := digits + rest;
    assert forall i :: 0 <= i < |digits| ==> s[i] == digits[i];
    assert rest != [] ==> s[|digits|] == rest[0];
    var k := DigitRun(s);
    assert k == |digits|;
    assert s[..k] == digits;
    DecimalValue(d);
  }

  /** A decimal integer as Atoi reads one: an optional sign, then one or
      more digits. */
  predicate ValidDecimal(s: string) {
    IsDigits(if HasSign(s) then s[1..] else s)
  }

  /** The value a decimal integer denotes, negated after a leading `-`. */
  function SignedValue(s: string): int
    requires ValidDecimal(s)
  {
    var magnitude: int := DigitsValue(if HasSign(s) then s[1..] else s);
    if s[0] == '-' then -magnitude else magnitude
  }

  /** Atoi parses exactly the decimal integers whose value fits an `int`,
      to that value; a decimal integer outside the range is a range error,
      and a short text that is no decimal integer is a syntax error. The
      early `uint64` range return never changes whether a text parses. */
  lemma AtoiCharacterised(s: string)
    ensures Atoi(s).Parsed? <==> ValidDecimal(s) && MinInt <= SignedValue(s) <= MaxInt
    ensures Atoi(s).Parsed? ==> ValidDecimal(s) && Atoi(s).n == SignedValue(s)
    ensures ValidDecimal(s) && !(MinInt <= SignedValue(s) <= MaxInt) ==> Atoi(s) == ErrRange
    ensures !ValidDecimal(s) && |s| < 19 ==> Atoi(s) == ErrSyntax
  {
    var body := if HasSign(s) then s[1..] else s;
    if IsDigits(body) {
      DigitRunAll(body);
      assert body[..|body|] == body;
    }
  }

  /** A `+` sign is accepted and dropped; a sign alone is no number. */
  lemma AtoiSignExamples()
    ensures Atoi("+5") == Parsed(5)
    ensures Atoi("-") == ErrSyntax
    ensures Atoi("+") == ErrSyntax
  {
    AtoiCharacterised("+5");
    assert "+5"[1..] == "5";
    AtoiCharacterised("-");
    AtoiCharacterised("+");
  }

  /** A leading zero does not change the value of a digit string. */
  lemma {:induction false} LeadingZeroValue(s: string)
    requires forall i :: 0 <= i < |s| ==> IsDigit(s[i])
    ensures DigitsValue("0" + s) == DigitsValue(s)
  {
    if s != [] {
      assert ("0" + s)[..|s|] == "0" + s[..|s| - 1];
      LeadingZeroValue(s[..|s| - 1]);
    }
  }
}
