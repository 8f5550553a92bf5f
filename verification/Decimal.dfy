/** Decimal numerals: Go's strconv and C's strtol, both 64 bits wide. */
module Decimal {
  import opened Text
  import opened Wrappers

  const MAX_INT64: int := 0x7FFF_FFFF_FFFF_FFFF
  const MIN_INT64: int := -0x8000_0000_0000_0000
  const INT_MAX: int := 0x7FFF_FFFF

  predicate Int64(i: int) {
    MIN_INT64 <= i <= MAX_INT64
  }

  predicate IsDigit(c: char) {
    '0' <= c <= '9'
  }

  function DigitsOf(n: nat): string {
    (if n < 10 then "" else DigitsOf(n / 10)) + ['0' + (n % 10) as char]
  }

  /** strconv.Itoa and %d. */
  function Itoa(i: int): string {
    if i < 0 then "-" + DigitsOf(-i) else DigitsOf(i)
  }

  function ValueOf(digits: string): (v: int) {
    if digits == [] then 0
    else 10 * ValueOf(digits[..|digits| - 1]) + digits[|digits| - 1] as int - '0' as int
  }

  /** The numerals both parsers share: an optional sign and at least one digit. */
  predicate IsNumeral(s: string) {
    var d := Unsigned(s);
    d != [] && All(IsDigit, d)
  }

  function Unsigned(s: string): string {
    if s != [] && (s[0] == '+' || s[0] == '-') then s[1..] else s
  }

  function NumeralValue(s: string): int {
    if s != [] && s[0] == '-' then -ValueOf(Unsigned(s)) else ValueOf(Unsigned(s))
  }

  /** strconv.ParseInt(s, 10, 64) and strconv.Atoi. */
  function ParseInt(s: string): Option<int> {
    if IsNumeral(s) && Int64(NumeralValue(s)) then Some(NumeralValue(s)) else None
  }

  /** strtol(s, &end, 10) with errno == 0, end != s and *end == NUL. */
  function Strtol(s: string): Option<int> {
    ParseInt(TrimLeftBy(IsSpaceC, s))
  }

  function LastDigit(n: nat): char {
    '0' + (n % 10) as char
  }

  lemma LastDigitValue(n: nat)
    ensures IsDigit(LastDigit(n)) && LastDigit(n) as int - '0' as int == n % 10
  {
  }

  lemma DigitsStep(n: nat)
    ensures DigitsOf(n) == (if n < 10 then "" else DigitsOf(n / 10)) + [LastDigit(n)]
  {
  }

  lemma ValueSnoc(digits: string, c: char)
    ensures ValueOf(digits + [c]) == 10 * ValueOf(digits) + (c as int - '0' as int)
  {
    assert (digits + [c])[..|digits|] == digits;
  }

  lemma {:induction false} DigitsRoundTrip(n: nat)
    ensures DigitsOf(n) != [] && All(IsDigit, DigitsOf(n)) && ValueOf(DigitsOf(n)) == n
  {
    LastDigitValue(n);
    DigitsStep(n);
    if n < 10 {
      ValueSnoc("", LastDigit(n));
    } else {
      DigitsRoundTrip(n / 10);
      ValueSnoc(DigitsOf(n / 10), LastDigit(n));
    }
  }

  lemma DigitsParse(digits: string)
    requires digits != [] && All(IsDigit, digits)
    ensures Unsigned(digits) == digits && IsNumeral(digits) && NumeralValue(digits) == ValueOf(digits)
    ensures Unsigned("-" + digits) == digits && IsNumeral("-" + digits) && NumeralValue("-" + digits) == -ValueOf(digits)
  {
    assert IsDigit(digits[0]);
    assert ("-" + digits)[1..] == digits;
  }

  /** Printing then parsing is the identity on 64-bit integers, for the Go and the C parser. */
  lemma ItoaRoundTrip(i: int)
    requires Int64(i)
    ensures ParseInt(Itoa(i)) == Some(i) && Strtol(Itoa(i)) == Some(i)
  {
    var digits := DigitsOf(if i < 0 then -i else i);
    DigitsRoundTrip(if i < 0 then -i else i);
    DigitsParse(digits);
    StrtolVersusParseInt(Itoa(i));
    assert Itoa(i)[0] == if i < 0 then '-' else digits[0];
  }

  lemma ItoaPlain(i: int)
    ensures Itoa(i) != []
    ensures forall c <- Itoa(i) :: IsDigit(c) || c == '-'
    ensures 0 <= i ==> All(IsDigit, Itoa(i))
  {
    DigitsRoundTrip(if i < 0 then -i else i);
  }

  /** The C parser accepts strictly more: exactly the numerals Go accepts, after skipped blanks. */
  lemma StrtolVersusParseInt(s: string)
    ensures (s == [] || !IsSpaceC(s[0])) ==> Strtol(s) == ParseInt(s)
    ensures s != [] && IsSpaceC(s[0]) ==> ParseInt(s) == None
  {
    if s != [] && IsSpaceC(s[0]) {
      assert Unsigned(s)[0] == s[0];
    }
  }

  /** Printed non-negative numbers differ when the numbers do. */
  lemma ItoaInjective(i: nat, j: nat)
    requires Itoa(i) == Itoa(j)
    ensures i == j
  {
    DigitsRoundTrip(i);
    DigitsRoundTrip(j);
  }
}
