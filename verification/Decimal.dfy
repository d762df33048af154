/** Decimal numerals as fmt's %d prints them and strconv.ParseInt(_, 10, 64) reads them. */
module Decimal {
  import opened Prelude

  predicate IsDigit(c: char) { '0' <= c <= '9' }

  predicate AllDigits(s: string) { forall i :: 0 <= i < |s| ==> IsDigit(s[i]) }

  function Digits(n: nat): (s: string)
    ensures s != [] && AllDigits(s)
  {
    if n < 10 then [('0' as int + n) as char] else Digits(n / 10) + Digits(n % 10)
  }

  function ValueOf(s: string): (n: int)
    requires AllDigits(s)
    ensures 0 <= n
  {
    if s == [] then 0
    else 10 * ValueOf(s[..|s| - 1]) + (s[|s| - 1] as int - '0' as int)
  }

  lemma {:induction false} DigitsRoundTrip(n: nat)
    ensures ValueOf(Digits(n)) == n
  {
    if n < 10 {
      assert Digits(n)[..0] == [];
    } else {
      DigitsRoundTrip(n / 10);
      var low := Digits(n % 10);
      assert Digits(n)[..|Digits(n)| - 1] == Digits(n / 10);
    }
  }

  /** fmt.Sprintf("%d", n). */
  function Print(n: int): (s: string)
    ensures s != []
  {
    if n < 0 then "-" + Digits(-n) else Digits(n)
  }

  /** strconv.ParseInt(s, 10, 64): an optional sign, at least one digit, and the range of int64. */
  function ParseInt(s: string): (r: Option<int>)
    ensures r.Some? ==> IsInt64(r.value)
  {
    var negative := s != [] && s[0] == '-';
    var digits := if s != [] && (s[0] == '-' || s[0] == '+') then s[1..] else s;
    if digits == [] || !AllDigits(digits) then None
    else
      var n := if negative then -ValueOf(digits) else ValueOf(digits);
      if IsInt64(n) then Some(n) else None
  }

  /** Parsing inverts printing on all of int64, the minimum included; beyond int64 it refuses. */
  lemma ParsePrint(n: int)
    ensures ParseInt(Print(n)) == if IsInt64(n) then Some(n) else None
  {
    var magnitude := if n < 0 then -n else n;
    DigitsRoundTrip(magnitude);
    SignedParse(n, Digits(magnitude));
  }

  lemma SignedParse(n: int, s: string)
    requires s != [] && AllDigits(s) && ValueOf(s) == if n < 0 then -n else n
    ensures ParseInt(if n < 0 then "-" + s else s) == if IsInt64(n) then Some(n) else None
  {
    ParseDigits(s);
  }

  lemma ParseDigits(s: string)
    requires s != [] && AllDigits(s)
    ensures ParseInt(s) == if IsInt64(ValueOf(s)) then Some(ValueOf(s)) else None
    ensures ParseInt("-" + s) == if IsInt64(-ValueOf(s)) then Some(-ValueOf(s)) else None
    ensures ParseInt("+" + s) == if IsInt64(ValueOf(s)) then Some(ValueOf(s)) else None
  {
    assert IsDigit(s[0]);
    assert ("-" + s)[1..] == s && ("+" + s)[1..] == s;
  }

  /** The numeral is decimal: its last digit is n modulo 10, and what stands before it is n / 10. */
  lemma {:induction false} DigitsAreDecimal(n: nat)
    ensures var s := Digits(n);
            && s[|s| - 1] as int - '0' as int == n % 10
            && (if n < 10 then |s| == 1 else s[..|s| - 1] == Digits(n / 10))
  {
    if n >= 10 {
      var low := Digits(n % 10);
      assert |low| == 1;
      assert Digits(n)[..|Digits(n)| - 1] == Digits(n / 10);
    }
  }

  lemma PrintHasNo(n: int, c: char)
    requires !IsDigit(c) && c != '-'
    ensures c !in Print(n)
  {
  }
}
