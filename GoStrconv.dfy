/** Go's strconv.Atoi and strconv.Itoa for a 64-bit int, the int of the
    instance the agent runs on. */
module GoStrconv {

  const MinInt: int := -0x8000_0000_0000_0000
  const MaxInt: int := 0x7FFF_FFFF_FFFF_FFFF

  /** True for values a 64-bit Go int can hold. */
  predicate InIntRange(n: int)
  {
    MinInt <= n <= MaxInt
  }

  predicate IsDigit(c: char)
  {
    '0' <= c <= '9'
  }

  predicate AllDigits(s: string)
  {
    forall i :: 0 <= i < |s| ==> IsDigit(s[i])
  }

  function DigitValue(c: char): (d: nat)
    requires IsDigit(c)
    ensures d < 10
  {
    (c as int) - ('0' as int)
  }

  function DigitChar(d: nat): (c: char)
    requires d < 10
    ensures IsDigit(c) && DigitValue(c) == d
  {
    ('0' as int + d) as char
  }

  /** The value of a string of decimal digits, most significant first. */
  function DigitsValue(ds: string): nat
    requires AllDigits(ds)
  {
    if ds == [] then 0 else DigitsValue(ds[..|ds| - 1]) * 10 + DigitValue(ds[|ds| - 1])
  }

  /** The text Atoi accepts before the range test: one digit, or a sign
      followed by at least one more character, and only digits after the
      first character. */
  predicate DecimalSyntax(s: string)
  {
    && s != []
    && (IsDigit(s[0]) || (|s| > 1 && (s[0] == '-' || s[0] == '+')))
    && forall i :: 0 < i < |s| ==> IsDigit(s[i])
  }

  /** What strconv.Atoi reports: a value, or an error (syntax or range; the
      agent only tests the error for nil, so the two are not told apart). */
  datatype AtoiResult = Int(value: int) | NotInt

  /** strconv.Atoi: an optional '+' or '-' followed by at least one ASCII
      decimal digit (leading zeros allowed, no underscores in base 10), whose
      value must fit a 64-bit int. */
  function Atoi(s: string): (r: AtoiResult)
    ensures r.Int? ==> InIntRange(r.value)
    ensures s == [] ==> r == NotInt
    ensures r.Int? ==> DecimalSyntax(s)
    ensures AllDigits(s) && s != [] && DigitsValue(s) <= MaxInt ==> r == Int(DigitsValue(s))
    ensures AllDigits(s) && s != [] && DigitsValue(s) > MaxInt ==> r == NotInt
    ensures |s| > 1 && s[0] == '-' && AllDigits(s[1..]) ==>
      r == (if DigitsValue(s[1..]) <= -MinInt then Int(-(DigitsValue(s[1..]) as int)) else NotInt)
    ensures |s| > 1 && s[0] == '+' && AllDigits(s[1..]) ==>
      r == (if DigitsValue(s[1..]) <= MaxInt then Int(DigitsValue(s[1..])) else NotInt)
  {
    if s == [] then NotInt
    else
      var digits := if s[0] == '-' || s[0] == '+' then s[1..] else s;
      if digits == [] || !AllDigits(digits) then NotInt
      else
        var magnitude: int := DigitsValue(digits);
        var n := if s[0] == '-' then -magnitude else magnitude;
        if InIntRange(n) then Int(n) else NotInt
  }

  /** The shortest decimal representation of m. */
  function Decimal(m: nat): (ds: string)
    ensures ds != [] && AllDigits(ds)
    ensures DigitsValue(ds) == m
  {
    if m < 10 then [DigitChar(m)]
    else
      var prefix := Decimal(m / 10);
      var ds := prefix + [DigitChar(m % 10)];
      assert ds[..|ds| - 1] == prefix;
      ds
  }

  /** strconv.Itoa: '-' and the magnitude's digits for a negative value, the
      digits alone otherwise. */
  function Itoa(n: int): string
  {
    if n < 0 then ['-'] + Decimal(-n) else Decimal(n)
  }

  /** Itoa never produces the character c unless it is a digit or '-'. */
  lemma ItoaAlphabet(n: int, c: char)
    requires c != '-' && !IsDigit(c)
    ensures c !in Itoa(n)
  {
  }

  /** Atoi reads back what Itoa writes, for every 64-bit value. */
  lemma AtoiItoa(n: int)
    requires InIntRange(n)
    ensures Atoi(Itoa(n)) == Int(n)
  {
  }
}
