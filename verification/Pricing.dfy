/** order_service/internal/service: item validation and the order total in US cents. */
module Pricing {
  import opened Prelude
  import opened Domain
  import opened Currency

  datatype Defect = MissingProduct | QuantityNotPositive | PriceNotPositive | CurrencyNotAllowed

  datatype ItemError = NoItems | BadItem(index: nat, defect: Defect)

  const ALLOWED_CURRENCIES: set<string> := {"USD", "EUR", "RUB"}

  predicate ValidItem(item: OrderItem) {
    item.productId != "" && item.quantity > 0 && item.price.amount > 0
    && item.price.currency in ALLOWED_CURRENCIES
  }

  predicate ValidItems(items: seq<OrderItem>) {
    items != [] && forall i :: 0 <= i < |items| ==> ValidItem(items[i])
  }

  /** The first defective item decides the error, its fields checked in order. */
  method ValidateItems(items: seq<OrderItem>) returns (error: Option<ItemError>)
    ensures error == None <==> ValidItems(items)
    ensures error == None <==>
              && items != []
              && forall i :: 0 <= i < |items| ==>
                   && items[i].productId != "" && items[i].quantity > 0 && items[i].price.amount > 0
                   && items[i].price.currency in {"USD", "EUR", "RUB"}
    ensures error == Some(NoItems) <==> items == []
    ensures error.Some? && error.value.BadItem? ==>
              var i := error.value.index;
              i < |items| && (forall j :: 0 <= j < i ==> ValidItem(items[j])) &&
              match error.value.defect
              case MissingProduct => items[i].productId == ""
              case QuantityNotPositive => items[i].productId != "" && items[i].quantity <= 0
              case PriceNotPositive => items[i].productId != "" && items[i].quantity > 0 && items[i].price.amount <= 0
              case CurrencyNotAllowed =>
                items[i].productId != "" && items[i].quantity > 0 && items[i].price.amount > 0
                && items[i].price.currency !in ALLOWED_CURRENCIES
  {
    if |items| == 0 {
      return Some(NoItems);
    }
    for i := 0 to |items|
      invariant forall j :: 0 <= j < i ==> ValidItem(items[j])
    {
      var item := items[i];
      if item.productId == "" {
        return Some(BadItem(i, MissingProduct));
      }
      if item.quantity <= 0 {
        return Some(BadItem(i, QuantityNotPositive));
      }
      if item.price.amount <= 0 {
        return Some(BadItem(i, PriceNotPositive));
      }
      if item.price.currency !in ALLOWED_CURRENCIES {
        return Some(BadItem(i, CurrencyNotAllowed));
      }
    }
    return None;
  }

  function LineAmount(item: OrderItem): int {
    Wrap64(item.price.amount * item.quantity)
  }

  function LineUSD(item: OrderItem): Option<int> {
    ToUSD(LineAmount(item), item.price.currency)
  }

  predicate Convertible(items: seq<OrderItem>) {
    forall i :: 0 <= i < |items| ==> LineUSD(items[i]).Some?
  }

  function Sum(items: seq<OrderItem>, value: OrderItem -> int): int {
    if items == [] then 0 else Sum(items[..|items| - 1], value) + value(items[|items| - 1])
  }

  function LineCents(item: OrderItem): int { Or(LineUSD(item), 0) }

  /** The mathematical sum of the converted lines. */
  function UsdSum(items: seq<OrderItem>): int { Sum(items, LineCents) }

  /** The order total as a value of the item multiset: the wrapped sum, or an input error. */
  function Total(items: seq<OrderItem>): Result<int, ErrorCode> {
    if Convertible(items) then Ok(Wrap64(UsdSum(items))) else Err(InvalidInput)
  }

  /** Wrapping after every addition is the same as wrapping once. */
  lemma WrapAdd(a: int, b: int)
    ensures Wrap64(Wrap64(a) + b) == Wrap64(a + b)
  {
  }

  /** calcTotalUSD: int64 line products and a running int64 sum, stopping at the first line that
      cannot be converted. */
  method CalcTotalUSD(items: seq<OrderItem>) returns (r: Result<int, ErrorCode>)
    ensures r == Total(items)
    ensures r == Err(InvalidInput) <==>
              exists i :: 0 <= i < |items| && items[i].price.currency !in {"USD", "EUR", "RUB"}
    ensures r.Err? ==> r == Err(InvalidInput)
  {
    var total := 0;
    for i := 0 to |items|
      invariant Convertible(items[..i])
      invariant total == Wrap64(UsdSum(items[..i]))
    {
      var lineAmount := Wrap64(items[i].price.amount * items[i].quantity);
      var usd := ToUSD(lineAmount, items[i].price.currency);
      if usd.None? {
        return Err(InvalidInput);
      }
      assert items[..i + 1][..i] == items[..i];
      WrapAdd(UsdSum(items[..i]), usd.value);
      total := Wrap64(total + usd.value);
    }
    assert items[..|items|] == items;
    return Ok(total);
  }

  /** The validator and the converter list the same currencies: US dollars, euros and roubles. */
  lemma CurrenciesAgree(amount: int, currency: string)
    ensures currency in ALLOWED_CURRENCIES <==> ToUSD(amount, currency).Some?
    ensures ToUSD(amount, currency).Some? <==> currency == "USD" || currency == "EUR" || currency == "RUB"
    ensures currency == "USD" ==> ToUSD(amount, currency) == Some(amount)
  {
  }

  /** Validated items are always convertible. */
  lemma ValidItemsConvert(items: seq<OrderItem>)
    requires ValidItems(items)
    ensures Total(items).Ok?
  {
  }

  lemma {:induction false} SumRemove(items: seq<OrderItem>, value: OrderItem -> int, k: nat)
    requires k < |items|
    ensures Sum(items, value) == Sum(items[..k] + items[k + 1..], value) + value(items[k])
    decreases |items|
  {
    var n, rest := |items| - 1, items[..k] + items[k + 1..];
    if k == n {
      assert rest == items[..n];
    } else {
      SumRemove(items[..n], value, k);
      assert rest[..n - 1] == items[..n][..k] + items[..n][k + 1..];
    }
  }

  lemma {:induction false} SumPermutes(items: seq<OrderItem>, items': seq<OrderItem>, value: OrderItem -> int)
    requires multiset(items) == multiset(items')
    ensures Sum(items, value) == Sum(items', value)
    decreases |items|
  {
    if items == [] {
      assert |multiset(items')| == 0;
    } else {
      var n := |items| - 1;
      assert items[n] in multiset(items');
      var k :| 0 <= k < |items'| && items'[k] == items[n];
      RemoveOne(items, n);
      RemoveOne(items', k);
      assert items[..n] + items[n + 1..] == items[..n];
      SumRemove(items', value, k);
      SumPermutes(items[..n], items'[..k] + items'[k + 1..], value);
    }
  }

  lemma RemoveOne(items: seq<OrderItem>, k: nat)
    requires k < |items|
    ensures multiset(items[..k] + items[k + 1..]) == multiset(items) - multiset{items[k]}
  {
    assert items == items[..k] + [items[k]] + items[k + 1..];
  }

  /** The total, error case and wrap-around included, does not depend on the order of the items. */
  lemma TotalPermutes(items: seq<OrderItem>, items': seq<OrderItem>)
    requires multiset(items) == multiset(items')
    ensures Total(items) == Total(items')
  {
    forall i | 0 <= i < |items| ensures items[i] in items' {
      assert items[i] in multiset(items');
    }
    forall i | 0 <= i < |items'| ensures items'[i] in items {
      assert items'[i] in multiset(items);
    }
    SumPermutes(items, items', LineCents);
  }

  /** The decimal rate of a currency in thousandths. */
  function Rate1000(currency: string): int {
    if currency == "USD" then 1000 else if currency == "EUR" then 1090 else 11
  }

  function Product(item: OrderItem): int { item.price.amount * item.quantity }

  function Exact(item: OrderItem): int { Product(item) * Rate1000(item.price.currency) }

  function Foreign(item: OrderItem): int { if item.price.currency == "USD" then 0 else 1 }

  /** The exact rational value of the order, in thousandths of a cent. */
  function Exact1000(items: seq<OrderItem>): int { Sum(items, Exact) }

  function ForeignLines(items: seq<OrderItem>): int { Sum(items, Foreign) }

  predicate SmallLines(items: seq<OrderItem>) {
    forall i :: 0 <= i < |items| ==> items[i].price.amount * items[i].quantity <= TWO_45
  }

  const LINE_CAP: int := 0x3000_0000_0000

  /** A line is off by at most one cent, downwards, and only abroad. */
  lemma LineError(line: int, currency: string)
    requires 1 <= line <= TWO_45 && currency in ALLOWED_CURRENCIES
    ensures ToUSD(line, currency).Some?
    ensures var usd := ToUSD(line, currency).value;
            0 <= usd <= LINE_CAP &&
            line * Rate1000(currency) - (if currency == "USD" then 0 else 1000)
            <= 1000 * usd <= line * Rate1000(currency)
  {
    if currency == "EUR" {
      EurExact(line);
    } else if currency == "RUB" {
      RubExact(line);
      RubCentsBounds(line);
    }
  }

  lemma ValidLine(item: OrderItem)
    requires ValidItem(item) && Product(item) <= TWO_45
    ensures LineAmount(item) == Product(item) && LineUSD(item).Some?
    ensures 0 <= LineCents(item) <= LINE_CAP
    ensures Exact(item) - 1000 * Foreign(item) <= 1000 * LineCents(item) <= Exact(item)
  {
    var line := Product(item);
    assert line >= 1;
    LineError(line, item.price.currency);
  }

  /** Bounds on each line add up. */
  lemma {:induction false} SumWithin(items: seq<OrderItem>, usd: OrderItem -> int, exact: OrderItem -> int,
                                     foreign: OrderItem -> int, cap: nat)
    requires forall i :: 0 <= i < |items| ==> 0 <= usd(items[i]) <= cap
    requires forall i :: 0 <= i < |items| ==>
               exact(items[i]) - 1000 * foreign(items[i]) <= 1000 * usd(items[i]) <= exact(items[i])
    ensures 0 <= Sum(items, usd) <= cap * |items|
    ensures Sum(items, exact) - 1000 * Sum(items, foreign) <= 1000 * Sum(items, usd) <= Sum(items, exact)
  {
    if items != [] {
      var n := |items| - 1;
      SumWithin(items[..n], usd, exact, foreign, cap);
      assert cap * |items| == cap * n + cap;
    }
  }

  lemma SumError(items: seq<OrderItem>)
    requires (forall i :: 0 <= i < |items| ==> ValidItem(items[i])) && SmallLines(items)
    ensures 0 <= UsdSum(items) <= LINE_CAP * |items|
    ensures Exact1000(items) - 1000 * ForeignLines(items) <= 1000 * UsdSum(items) <= Exact1000(items)
  {
    forall i | 0 <= i < |items|
      ensures 0 <= LineCents(items[i]) <= LINE_CAP
      ensures Exact(items[i]) - 1000 * Foreign(items[i]) <= 1000 * LineCents(items[i]) <= Exact(items[i])
    {
      ValidLine(items[i]);
    }
    SumWithin(items, LineCents, Exact, Foreign, LINE_CAP);
  }

  /** Validated orders of at most 2^17 lines of at most 2^45 each: conversion succeeds, no product and
      no running sum wraps, and exact - k <= total <= exact with k the number of non-USD lines. */
  lemma TotalError(items: seq<OrderItem>)
    requires ValidItems(items) && SmallLines(items) && |items| <= 0x2_0000
    ensures forall i :: 0 <= i < |items| ==> LineAmount(items[i]) == Product(items[i])
    ensures forall n :: 0 <= n <= |items| ==> IsInt64(UsdSum(items[..n]))
    ensures Total(items) == Ok(UsdSum(items)) && UsdSum(items) >= 0
    ensures Exact1000(items) - 1000 * ForeignLines(items) <= 1000 * UsdSum(items) <= Exact1000(items)
  {
    forall i | 0 <= i < |items|
      ensures LineAmount(items[i]) == Product(items[i]) && LineUSD(items[i]).Some?
    {
      ValidLine(items[i]);
    }
    forall n | 0 <= n <= |items|
      ensures IsInt64(UsdSum(items[..n]))
    {
      PrefixFits(items, n);
    }
    assert items[..|items|] == items;
    SumError(items);
  }

  lemma PrefixFits(items: seq<OrderItem>, n: nat)
    requires ValidItems(items) && SmallLines(items) && n <= |items| <= 0x2_0000
    ensures IsInt64(UsdSum(items[..n]))
  {
    SumError(items[..n]);
    assert LINE_CAP * n <= LINE_CAP * 0x2_0000;
  }

  predicate UsdOnly(items: seq<OrderItem>) {
    forall i :: 0 <= i < |items| ==> items[i].price.currency == "USD"
  }

  /** Wrapped terms still add up modulo 2^64. */
  lemma {:induction false} SumWraps(items: seq<OrderItem>, wrapped: OrderItem -> int, exact: OrderItem -> int)
    requires forall i :: 0 <= i < |items| ==>
               exact(items[i]) % 1000 == 0 && wrapped(items[i]) == Wrap64(exact(items[i]) / 1000)
    ensures Sum(items, exact) % 1000 == 0
    ensures Wrap64(Sum(items, wrapped)) == Wrap64(Sum(items, exact) / 1000)
  {
    if items != [] {
      var n := |items| - 1;
      SumWraps(items[..n], wrapped, exact);
      WrapSplit(Sum(items[..n], wrapped), Sum(items[..n], exact) / 1000, exact(items[n]) / 1000);
      assert Sum(items, exact) / 1000 == Sum(items[..n], exact) / 1000 + exact(items[n]) / 1000;
    }
  }

  lemma WrapSplit(a: int, b: int, k: int)
    requires Wrap64(a) == Wrap64(b)
    ensures Wrap64(a + Wrap64(k)) == Wrap64(b + k)
  {
    WrapAdd(a, Wrap64(k));
    WrapAdd(b, Wrap64(k));
    WrapAdd(k, b);
  }

  /** So the total of a USD-only order is the exact sum if and only if the exact sum is an int64. */
  lemma UsdOnlyTotal(items: seq<OrderItem>)
    requires UsdOnly(items)
    ensures Total(items) == Ok(Exact1000(items) / 1000) <==> IsInt64(Exact1000(items) / 1000)
  {
    forall i | 0 <= i < |items|
      ensures Exact(items[i]) % 1000 == 0 && LineCents(items[i]) == Wrap64(Exact(items[i]) / 1000)
    {
      assert Exact(items[i]) == 1000 * Product(items[i]);
    }
    SumWraps(items, LineCents, Exact);
  }

  /** The line in US cents as the conversion would yield it without the limits of int64. */
  function TrueCents(item: OrderItem): int {
    if item.price.currency == "USD" then Product(item)
    else if item.price.currency == "EUR" then Scaled(Product(item), EUR_RATE, TWO_52)
    else Scaled(Product(item), RUB_RATE, TWO_59)
  }

  /** No line product wraps, no conversion saturates, and no running total wraps. */
  ghost predicate NoOverflow(items: seq<OrderItem>) {
    && (forall i :: 0 <= i < |items| ==>
          LineAmount(items[i]) == Product(items[i]) && LineUSD(items[i]) == Some(TrueCents(items[i])))
    && (forall n :: 0 <= n <= |items| ==> Total(items[..n]) == Ok(Sum(items[..n], TrueCents)))
  }

  /** The line fits, before and after its conversion. */
  predicate LineFits(item: OrderItem) { Product(item) <= MAX_INT64 && TrueCents(item) <= MAX_INT64 }

  /** A line comes out as it should exactly if it fits. */
  lemma LineExactIff(item: OrderItem)
    requires ValidItem(item)
    ensures TrueCents(item) >= 0
    ensures LineAmount(item) == Product(item) && LineUSD(item) == Some(TrueCents(item)) <==> LineFits(item)
  {
    assert Product(item) >= 1;
  }

  lemma {:induction false} SumSame(items: seq<OrderItem>, f: OrderItem -> int, g: OrderItem -> int)
    requires forall i :: 0 <= i < |items| ==> f(items[i]) == g(items[i])
    ensures Sum(items, f) == Sum(items, g)
  {
    if items != [] {
      SumSame(items[..|items| - 1], f, g);
    }
  }

  lemma {:induction false} PrefixSum(items: seq<OrderItem>, f: OrderItem -> int, n: nat)
    requires n <= |items| && forall i :: 0 <= i < |items| ==> f(items[i]) >= 0
    ensures 0 <= Sum(items[..n], f) <= Sum(items, f)
    decreases |items|
  {
    if n == |items| {
      assert items[..n] == items;
      if n > 0 {
        PrefixSum(items[..n - 1], f, n - 1);
      }
    } else {
      var m := |items| - 1;
      PrefixSum(items[..m], f, n);
      assert items[..m][..n] == items[..n];
    }
  }

  /** The running total of lines that come out as they should is their true sum, wrapped. */
  lemma RunningTotal(items: seq<OrderItem>)
    requires forall i :: 0 <= i < |items| ==> LineUSD(items[i]) == Some(TrueCents(items[i]))
    ensures Total(items) == Ok(Wrap64(Sum(items, TrueCents)))
  {
    SumSame(items, LineCents, TrueCents);
  }

  /** So it is their true sum exactly if that sum fits. */
  lemma PrefixExactIff(items: seq<OrderItem>, n: nat)
    requires n <= |items|
    requires forall i :: 0 <= i < |items| ==> LineUSD(items[i]) == Some(TrueCents(items[i])) && TrueCents(items[i]) >= 0
    ensures Total(items[..n]) == Ok(Sum(items[..n], TrueCents)) <==> Sum(items[..n], TrueCents) <= MAX_INT64
    ensures Sum(items[..n], TrueCents) <= Sum(items, TrueCents)
  {
    RunningTotal(items[..n]);
    PrefixSum(items, TrueCents, n);
  }

  /** For every validated order, whatever its currencies: nothing overflows if and only if every line fits,
      before and after its conversion, and so does the sum. */
  lemma NoOverflowIff(items: seq<OrderItem>)
    requires ValidItems(items)
    ensures NoOverflow(items) <==>
              && (forall i :: 0 <= i < |items| ==> LineFits(items[i]))
              && Sum(items, TrueCents) <= MAX_INT64
  {
    forall i | 0 <= i < |items|
      ensures LineAmount(items[i]) == Product(items[i]) && LineUSD(items[i]) == Some(TrueCents(items[i]))
              <==> LineFits(items[i])
      ensures TrueCents(items[i]) >= 0
    {
      LineExactIff(items[i]);
    }
    if forall i :: 0 <= i < |items| ==> LineFits(items[i]) {
      forall n | 0 <= n <= |items|
        ensures Total(items[..n]) == Ok(Sum(items[..n], TrueCents)) <==> Sum(items[..n], TrueCents) <= MAX_INT64
        ensures Sum(items[..n], TrueCents) <= Sum(items, TrueCents)
      {
        PrefixExactIff(items, n);
      }
      assert items[..|items|] == items;
    }
  }

  /** Validation does not bound amounts: two items of 2^62 cents each pass it and total -2^63 ... */
  lemma ValidTotalCanBeNegative()
    ensures var items := [OrderItem("p", 2, Money(0x4000_0000_0000_0000, "USD"))];
            ValidItems(items) && Total(items) == Ok(MIN_INT64)
  {
    SingleTotal(OrderItem("p", 2, Money(0x4000_0000_0000_0000, "USD")), MIN_INT64);
  }

  /** ... and so does one item of 2^63 - 1 euro cents, whose conversion saturates. */
  lemma ConversionCanSaturate()
    ensures var items := [OrderItem("p", 1, Money(MAX_INT64, "EUR"))];
            ValidItems(items) && Total(items) == Ok(MIN_INT64)
  {
    LargestEuro();
    SingleTotal(OrderItem("p", 1, Money(MAX_INT64, "EUR")), MIN_INT64);
  }

  lemma SingleTotal(item: OrderItem, usd: int)
    requires LineUSD(item) == Some(usd)
    ensures Total([item]) == Ok(Wrap64(usd))
  {
    assert [item][..0] == [];
    assert Sum([item], LineCents) == Sum([], LineCents) + LineCents(item);
  }
}
