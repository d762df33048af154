/** shared/money/money.go: the amount|currency column format. */
module MoneyCodec {
  import opened Prelude
  import opened Domain
  import opened Decimal

  /** What database/sql hands to Scan; any other type is refused. */
  datatype DbValue = Text(text: string) | Bytes(bytes: string) | OtherType

  datatype ScanError = InvalidType | InvalidFormat | InvalidAmount

  function Value(m: Money): string {
    Print(m.amount) + "|" + m.currency
  }

  /** strings.Split(s, "|"). */
  function Split(s: string): (parts: seq<string>)
    ensures parts != []
  {
    if s == [] then [[]]
    else if s[0] == '|' then [[]] + Split(s[1..])
    else
      var rest := Split(s[1..]);
      [[s[0]] + rest[0]] + rest[1..]
  }

  function TextOf(v: DbValue): Option<string> {
    match v
    case Text(s) => Some(s)
    case Bytes(s) => Some(s)
    case OtherType => None
  }

  function Parse(v: DbValue): Result<Money, ScanError> {
    match TextOf(v)
    case None => Err(InvalidType)
    case Some(s) =>
      var parts := Split(s);
      if |parts| != 2 then Err(InvalidFormat)
      else
        match ParseInt(parts[0])
        case None => Err(InvalidAmount)
        case Some(n) => Ok(Money(n, parts[1]))
  }

  /** A Money column being loaded: Scan assigns the receiver only when it succeeds. */
  class MoneyColumn {
    var amount: int
    var currency: string

    constructor ()
      ensures amount == 0 && currency == ""
    {
      amount, currency := 0, "";
    }

    method Scan(v: DbValue) returns (error: Option<ScanError>)
      modifies this
      ensures match Parse(v)
              case Ok(m) => error == None && Money(amount, currency) == m
              case Err(e) => error == Some(e) && amount == old(amount) && currency == old(currency)
    {
      var text := "";
      match v {
        case Text(s) => text := s;
        case Bytes(s) => text := s;
        case OtherType => return Some(InvalidType);
      }
      var parts := Split(text);
      if |parts| != 2 {
        return Some(InvalidFormat);
      }
      var n := ParseInt(parts[0]);
      if n.None? {
        return Some(InvalidAmount);
      }
      amount := n.value;
      currency := parts[1];
      return None;
    }
  }

  lemma {:induction false} SplitPlain(s: string)
    requires '|' !in s
    ensures Split(s) == [s]
  {
    if s != [] {
      assert forall c :: c in s[1..] ==> c in s;
      SplitPlain(s[1..]);
      assert [s[0]] + s[1..] == s;
    }
  }

  /** Cutting at a separator that follows a separator-free prefix. */
  lemma {:induction false} SplitAtBar(a: string, b: string)
    requires '|' !in a
    ensures Split(a + "|" + b) == [a] + Split(b)
  {
    var s := a + "|" + b;
    if a == [] {
      assert s[1..] == b;
    } else {
      assert forall c :: c in a[1..] ==> c in a;
      SplitAtBar(a[1..], b);
      assert s[1..] == a[1..] + "|" + b;
      assert [a[0]] + a[1..] == a;
      assert Split(s[1..])[1..] == Split(b);
    }
  }

  lemma {:induction false} SplitCount(s: string)
    ensures |Split(s)| == 1 <==> '|' !in s
    ensures forall p :: p in Split(s) ==> '|' !in p
  {
    if s != [] {
      SplitCount(s[1..]);
      assert s == [s[0]] + s[1..];
      if s[0] != '|' {
        var rest := Split(s[1..]);
        assert rest[0] in rest;
        assert forall p :: p in rest[1..] ==> p in rest;
      }
    }
  }

  /** Scan gives back exactly what Value stored, in either representation, if and only if
      the amount is an int64 and the currency is free of the separator. */
  lemma RoundTrip(m: Money)
    ensures Parse(Text(Value(m))) == Ok(m) <==> IsInt64(m.amount) && '|' !in m.currency
    ensures Parse(Bytes(Value(m))) == Parse(Text(Value(m)))
    ensures '|' in m.currency ==> Parse(Text(Value(m))) == Err(InvalidFormat)
  {
    PrintHasNo(m.amount, '|');
    SplitAtBar(Print(m.amount), m.currency);
    SplitCount(m.currency);
    ParsePrint(m.amount);
    if '|' !in m.currency {
      SplitPlain(m.currency);
    }
  }

  /** Whatever Scan accepts, signs and leading zeros included, re-prints to one canonical
      string that scans to the same Money; two accepted strings with the same Money share it. */
  lemma CanonicalForm(s: string)
    requires Parse(Text(s)).Ok?
    ensures var m := Parse(Text(s)).value;
            IsInt64(m.amount) && Parse(Text(Value(m))) == Ok(m)
  {
    SplitCount(s);
    var m := Parse(Text(s)).value;
    assert m.currency in Split(s);
    RoundTrip(m);
  }

  /** What stands before the first bar of the text is the amount in decimal, what stands after it the currency. */
  lemma ValueText(m: Money)
    ensures
      var k := |Print(m.amount)|;
      && k < |Value(m)| && Value(m)[k] == '|' && '|' !in Value(m)[..k] && Value(m)[k + 1..] == m.currency
      && ParseInt(Value(m)[..k]) == (if IsInt64(m.amount) then Some(m.amount) else None)
      && forall i :: 0 <= i < k ==> IsDigit(Value(m)[i]) || (i == 0 && m.amount < 0 && Value(m)[0] == '-')
  {
    PrintHasNo(m.amount, '|');
    ParsePrint(m.amount);
    assert Value(m)[..|Print(m.amount)|] == Print(m.amount);
  }

  lemma ValueInjective(a: Money, b: Money)
    requires IsInt64(a.amount) && IsInt64(b.amount)
    requires '|' !in a.currency && '|' !in b.currency
    requires Value(a) == Value(b)
    ensures a == b
  {
    RoundTrip(a);
    RoundTrip(b);
  }
}
