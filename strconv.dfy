/**
 * Decimal integer text as Go's strconv package reads it (Atoi) and writes it (Itoa),
 * for the 64-bit `int` of the platforms the server is built for.
 */
module StrConv {
  import opened Wrappers

  const MinInt: int := -0x8000_0000_0000_0000
  const MaxInt: int := 0x7FFF_FFFF_FFFF_FFFF

  /** The values a 64-bit Go `int` can hold. */
  predicate InIntRange(n: int)
  {
    MinInt <= n <= MaxInt
  }

  /** The two ways strconv.Atoi fails: not an integer at all, or one that does not fit. */
  datatype NumError = ErrSyntax | ErrRange

  predicate IsDigit(c: char)
  {
    '0' <= c <= '9'
  }

  predicate IsDigits(s: string)
  {
    forall i :: 0 <= i < |s| ==> IsDigit(s[i])
  }

  /** The part of s after one optional leading '+' or '-'. */
  function Unsigned(s: string): (u: string)
    ensures |u| <= |s|
  {
    if |s| > 0 && (s[0] == '+' || s[0] == '-') then s[1..] else s
  }

  /** The value of a run of decimal digits, most significant digit first. */
  function DigitsValue(s: string): nat
    requires IsDigits(s)
  {
    if s == [] then 0
    else DigitsValue(s[..|s| - 1]) * 10 + ((s[|s| - 1] as int) - ('0' as int))
  }

  function DigitChar(d: nat): (c: char)
    requires d < 10
    ensures IsDigit(c) && (c as int) - ('0' as int) == d
  {
    (('0' as int) + d) as char
  }

  /** The largest uint64; strconv.ParseUint gives up with a range error past it. */
  const MaxUint: int := 0xFFFF_FFFF_FFFF_FFFF

  function Pow10(k: nat): (p: nat)
    ensures p >= 1
  {
    if k == 0 then 1 else 10 * Pow10(k - 1)
  }

  lemma {:induction false} Pow10Add(a: nat, b: nat)
    ensures Pow10(a + b) == Pow10(a) * Pow10(b)
  {
    if a > 0 {
      Pow10Add(a - 1, b);
      assert Pow10(a + b) == 10 * Pow10(a - 1 + b);
    }
  }

  lemma {:induction false} Pow10Monotone(i: nat, j: nat)
    requires i <= j
    ensures Pow10(i) <= Pow10(j)
  {
    if i < j {
      Pow10Monotone(i, j - 1);
    }
  }

  /** 10^19 fits a uint64 and 10^20 does not. */
  lemma Pow10AroundMaxUint()
    ensures Pow10(19) <= MaxUint < Pow10(20)
  {
    Pow10Add(9, 10);
    Pow10Add(10, 10);
    assert Pow10(9) == 1_000_000_000;
    assert Pow10(10) == 10_000_000_000;
  }

  /** A run of k digits is worth less than 10^k. */
  lemma {:induction false} DigitsBelowPow10(s: string)
    requires IsDigits(s)
    ensures DigitsValue(s) < Pow10(|s|)
  {
    if s != [] {
      DigitsBelowPow10(s[..|s| - 1]);
    }
  }

  /** A run of k digits that does not start with '0' is worth at least 10^(k-1). */
  lemma {:induction false} DigitsAtLeastPow10(s: string)
    requires IsDigits(s) && |s| > 0 && s[0] != '0'
    ensures DigitsValue(s) >= Pow10(|s| - 1)
  {
    if |s| > 1 {
      DigitsAtLeastPow10(s[..|s| - 1]);
    }
  }

  /** The longest prefix of u made of digits only. */
  function LeadingDigits(u: string): (d: string)
    ensures IsDigits(d) && |d| <= |u| && d == u[..|d|]
    ensures |d| < |u| ==> !IsDigit(u[|d|])
  {
    if |u| == 0 || !IsDigit(u[0]) then []
    else [u[0]] + LeadingDigits(u[1..])
  }

  /** -1 when s starts with '-', 1 otherwise. */
  function SignOf(s: string): int
  {
    if |s| > 0 && s[0] == '-' then -1 else 1
  }

  /**
   * strconv.Atoi (ParseInt(s, 10, 0) on a 64-bit platform): one optional sign, then
   * decimal digits only (leading zeros allowed; no spaces, no underscores). The digits
   * are read left to right, so a digit run that already exceeds the largest uint64 is
   * a range error even if a non-digit follows it; otherwise a missing or non-digit
   * character is a syntax error, and a well-formed value outside the 64-bit int range
   * is a range error.
   */
  function Atoi(s: string): (r: Result<int, NumError>)
    ensures r.Success? <==>
      |Unsigned(s)| > 0 && IsDigits(Unsigned(s)) && InIntRange(SignOf(s) * DigitsValue(Unsigned(s)))
    ensures r.Success? ==> InIntRange(r.value) && r.value == SignOf(s) * DigitsValue(Unsigned(s))
    ensures r == Failure(ErrSyntax) <==>
      |Unsigned(s)| == 0 || (!IsDigits(Unsigned(s)) && DigitsValue(LeadingDigits(Unsigned(s))) <= MaxUint)
  {
    var digits := Unsigned(s);
    if |digits| == 0 then
      Failure(ErrSyntax)
    else if DigitsValue(LeadingDigits(digits)) > MaxUint then
      assert IsDigits(digits) ==> LeadingDigits(digits) == digits;
      Failure(ErrRange)
    else if |LeadingDigits(digits)| < |digits| then
      Failure(ErrSyntax)
    else
      assert LeadingDigits(digits) == digits;
      var magnitude: int := DigitsValue(digits);
      var n: int := if s[0] == '-' then -magnitude else magnitude;
      if InIntRange(n) then Success(n) else Failure(ErrRange)
  }

  /** Decimal digits of a natural number, without leading zeros; they read back as n. */
  function FormatNat(n: nat): (s: string)
    ensures 0 < |s| && IsDigits(s)
    ensures DigitsValue(s) == n
    ensures |s| > 1 ==> s[0] != '0'
    decreases n
  {
    if n < 10 then [DigitChar(n)]
    else
      var s := FormatNat(n / 10) + [DigitChar(n % 10)];
      assert s[..|s| - 1] == FormatNat(n / 10);
      s
  }

  /** strconv.Itoa: a '-' for negative numbers, then the digits of the magnitude. */
  function Itoa(n: int): (s: string)
    ensures 0 < |s|
    ensures (s[0] == '-') <==> n < 0
  {
    if n < 0 then "-" + FormatNat(-n) else FormatNat(n)
  }

  /** Every 64-bit int written by Itoa is read back by Atoi as itself. */
  lemma AtoiItoa(n: int)
    requires InIntRange(n)
    ensures Atoi(Itoa(n)) == Success(n)
  {
  }

  /**
   * A character that is neither a digit nor the one leading sign, among the first
   * twenty characters, makes the text a syntax error: the at most nineteen digits
   * before it cannot overflow.
   */
  lemma AtoiRejectsNonDigit(s: string, i: nat)
    requires i < |s| && i < 20 && !IsDigit(s[i])
    requires i > 0 || (s[0] != '+' && s[0] != '-')
    ensures Atoi(s) == Failure(ErrSyntax)
  {
    var u := Unsigned(s);
    var j := if |s| > 0 && (s[0] == '+' || s[0] == '-') then i - 1 else i;
    assert u[j] == s[j + |s| - |u|];
    var lead := LeadingDigits(u);
    assert |lead| <= j;
    DigitsBelowPow10(lead);
    Pow10Monotone(|lead|, 19);
    Pow10AroundMaxUint();
  }

  /**
   * Digits are read before anything after them is looked at: a run of more than
   * twenty digits not starting with '0' is a range error, whatever follows it.
   */
  lemma AtoiOverflowBeforeSyntax(s: string)
    requires |LeadingDigits(Unsigned(s))| > 20
    requires LeadingDigits(Unsigned(s))[0] != '0'
    ensures Atoi(s) == Failure(ErrRange)
  {
    var lead := LeadingDigits(Unsigned(s));
    DigitsAtLeastPow10(lead);
    Pow10Monotone(20, |lead| - 1);
    Pow10AroundMaxUint();
  }
}
