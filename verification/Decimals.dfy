/** Natural numbers as decimal digits, as `String(n)`, `parseInt` and `int()` have them. */
module Decimals {
  import opened Validation

  predicate IsDigit(c: char) {
    '0' <= c <= '9'
  }

  function Digit(n: nat): char
    requires n < 10
  {
    '0' + n as char
  }

  /** `String(n)` */
  function Decimal(n: nat): string {
    if n < 10 then [Digit(n)] else Decimal(n / 10) + [Digit(n % 10)]
  }

  /** The value of a string of digits. */
  function Value(s: string): nat
    requires forall c | c in s :: IsDigit(c)
  {
    if s == "" then 0
    else
      var last := s[|s| - 1];
      assert last in s && IsDigit(last);
      10 * Value(s[..|s| - 1]) + (last - '0') as nat
  }

  /** The digits' values, and that each place counts ten times the next. */
  lemma ValuePlaces(s: string, c: char)
    requires (forall x | x in s :: IsDigit(x)) && IsDigit(c)
    ensures Value(s + [c]) == 10 * Value(s) + Value([c])
    ensures Value("0") == 0 && Value("1") == 1 && Value("2") == 2 && Value("3") == 3 && Value("4") == 4
    ensures Value("5") == 5 && Value("6") == 6 && Value("7") == 7 && Value("8") == 8 && Value("9") == 9
    ensures Value("") == 0
  {
    assert (s + [c])[..|s|] == s;
    assert [c][..0] == "";
  }

  /** `parseInt` reads the leading digits, as far as they go, and nothing if there are none. */
  lemma {:induction false} LeadingDigits(digits: string, rest: string)
    requires (forall c | c in digits :: '0' <= c <= '9') && (rest != "" ==> !('0' <= rest[0] <= '9'))
    ensures digits != "" ==> ParseInt(digits + rest) == Some(Value(digits))
    ensures digits == "" ==> ParseInt(digits + rest) == None
  {
    DigitsCut(digits, rest);
  }

  lemma {:induction false} DigitsCut(digits: string, rest: string)
    requires (forall c | c in digits :: IsDigit(c)) && (rest != "" ==> !IsDigit(rest[0]))
    ensures Digits(digits + rest) == digits
  {
    if digits == "" {
      assert digits + rest == rest;
    } else {
      assert (digits + rest)[1..] == digits[1..] + rest;
      DigitsCut(digits[1..], rest);
    }
  }

  function Digits(s: string): string {
    if s != "" && IsDigit(s[0]) then [s[0]] + Digits(s[1..]) else ""
  }

  lemma DigitsAreDigits(s: string)
    ensures forall c | c in Digits(s) :: IsDigit(c)
  {
  }

  /** `parseInt(s, 10)` of a string without a sign: its leading digits, if any. */
  function ParseInt(s: string): Option<nat> {
    DigitsAreDigits(s);
    if Digits(s) == "" then None else Some(Value(Digits(s)))
  }

  lemma {:induction false} DecimalValue(n: nat)
    ensures Decimal(n) != "" && (forall c | c in Decimal(n) :: IsDigit(c)) && Value(Decimal(n)) == n
  {
    if n >= 10 {
      DecimalValue(n / 10);
      assert Decimal(n)[..|Decimal(n)| - 1] == Decimal(n / 10);
    }
  }

  lemma {:induction false} AllDigits(s: string)
    requires forall c | c in s :: IsDigit(c)
    ensures Digits(s) == s
  {
    if s != "" {
      AllDigits(s[1..]);
    }
  }

  lemma ParseDecimal(n: nat)
    ensures ParseInt(Decimal(n)) == Some(n)
  {
    DecimalValue(n);
    AllDigits(Decimal(n));
  }

  lemma {:induction false} DecimalLength(n: nat, k: nat, bound: nat)
    requires k > 0 && n < bound && bound == Power10(k)
    ensures |Decimal(n)| <= k
  {
    if n >= 10 {
      DecimalLength(n / 10, k - 1, bound / 10);
    }
  }

  function Power10(k: nat): nat {
    if k == 0 then 1 else 10 * Power10(k - 1)
  }
}
