/** shared/currency/converter.go: conversion to US cents through a binary64 product.
    Amounts and products are integers scaled by a power of two, so rounding to nearest even
    (section 4.3.1 of IEEE 754-2019) is rounding an integer to a multiple of its unit in the last place. */
module Currency {
  import opened Prelude

  const TWO_52: int := 0x10_0000_0000_0000
  const TWO_53: int := 0x20_0000_0000_0000
  const TWO_59: int := 0x800_0000_0000_0000
  const TWO_45: int := 0x2000_0000_0000

  /** The binary64 literals: 1.09 is EUR_RATE / 2^52 and 0.011 is RUB_RATE / 2^59. */
  const EUR_RATE: int := 4908923593833841
  const RUB_RATE: int := 6341068275337658

  /** The unit in the last place of a 53-bit significand holding n. */
  function Ulp(n: nat): (u: nat)
    ensures u >= 1
  {
    if n < TWO_53 then 1 else 2 * Ulp(n / 2)
  }

  /** n rounded to a multiple of u, ties to the even multiple. */
  function RoundTo(n: nat, u: nat): (r: nat)
    requires u >= 1
  {
    var q, rest := n / u, n % u;
    if 2 * rest < u || (2 * rest == u && q % 2 == 0) then q * u else (q + 1) * u
  }

  function Round53(n: nat): nat { RoundTo(n, Ulp(n)) }

  /** float64(amount) * rate with rate = significand / scale, truncated towards zero. */
  function ScaledProduct(amount: nat, significand: nat, scale: nat): nat
    requires scale >= 1
  {
    Round53(Round53(amount) * significand) / scale
  }

  /** int64(f): a value outside int64 yields the minimum, as on amd64 (the Go specification
      leaves it to the implementation). */
  function ToInt64(f: int): (n: int)
    ensures IsInt64(n)
    ensures IsInt64(f) ==> n == f
  {
    if IsInt64(f) then f else MIN_INT64
  }

  /** The truncated product before it is squeezed into an int64; binary64 carries the sign separately. */
  function Scaled(amount: int, significand: nat, scale: nat): int
    requires scale >= 1
  {
    if amount < 0 then 0 - ScaledProduct(-amount, significand, scale) else ScaledProduct(amount, significand, scale)
  }

  /** int64(float64(amount) * rate). */
  function Convert(amount: int, significand: nat, scale: nat): int
    requires scale >= 1
  {
    ToInt64(Scaled(amount, significand, scale))
  }

  /** ToUSD; None is the unsupported-currency error. */
  function ToUSD(amount: int, from: string): Option<int> {
    if from == "USD" then Some(amount)
    else if from == "EUR" then Some(Convert(amount, EUR_RATE, TWO_52))
    else if from == "RUB" then Some(Convert(amount, RUB_RATE, TWO_59))
    else None
  }

  /** The sign carries through: an amount and its negative convert to opposite values, short of overflow. */
  lemma SignCarries(amount: int, from: string)
    requires ToUSD(amount, from).Some? && MIN_INT64 < ToUSD(amount, from).value
    ensures ToUSD(-amount, from) == Some(-ToUSD(amount, from).value)
  {
    ZeroConverts(EUR_RATE, TWO_52);
    ZeroConverts(RUB_RATE, TWO_59);
  }

  lemma ZeroConverts(significand: nat, scale: nat)
    requires scale >= 1
    ensures ScaledProduct(0, significand, scale) == 0
  {
    assert Round53(0) == 0;
  }

  /** The literals are the binary64 values nearest to 1.09 and 0.011: normalised 53-bit
      significands off by less than half a unit. */
  lemma RatesAreNearest()
    ensures TWO_52 <= EUR_RATE < TWO_53 && -50 < 100 * EUR_RATE - 109 * TWO_52 < 50
    ensures TWO_52 <= RUB_RATE < TWO_53 && -500 < 1000 * RUB_RATE - 11 * TWO_59 < 500
  {
  }

  function Pow2(n: nat): (p: nat)
    ensures p >= 1
  {
    if n == 0 then 1 else 2 * Pow2(n - 1)
  }

  lemma {:induction false} Pow2Add(a: nat, b: nat)
    ensures Pow2(a + b) == Pow2(a) * Pow2(b)
  {
    if a > 0 {
      Pow2Add(a - 1, b);
    }
  }

  lemma Pow2Monotone(a: nat, b: nat)
    requires a <= b
    ensures Pow2(a) <= Pow2(b)
    decreases b - a
  {
    if a < b {
      Pow2Monotone(a, b - 1);
    }
  }

  /** The exponent of the unit in the last place. */
  function UlpExponent(n: nat): nat {
    if n < TWO_53 then 0 else 1 + UlpExponent(n / 2)
  }

  /** The unit is the power of two that leaves a 53-bit quotient. */
  lemma {:induction false} UlpBounds(n: nat)
    ensures Ulp(n) == Pow2(UlpExponent(n))
    ensures n < TWO_53 * Ulp(n)
    ensures n >= TWO_52 ==> TWO_52 * Ulp(n) <= n
  {
    if n >= TWO_53 {
      UlpBounds(n / 2);
    }
  }

  /** Only one power of two has that property. */
  lemma UlpUnique(n: nat, k: nat)
    requires TWO_52 * Pow2(k) <= n < TWO_53 * Pow2(k)
    ensures Ulp(n) == Pow2(k)
  {
    UlpBounds(n);
    var e := UlpExponent(n);
    Pow2Monotone(0, k);
    if e < k {
      Pow2Monotone(e + 1, k);
    } else if k < e {
      Pow2Monotone(k + 1, e);
    }
  }

  /** Rounding error is at most half a unit, and no multiple of the unit is crossed. */
  lemma RoundToBounds(n: nat, u: nat, m: nat)
    requires u >= 1
    ensures 2 * RoundTo(n, u) <= 2 * n + u && 2 * n <= 2 * RoundTo(n, u) + u
    ensures m * u <= n ==> m * u <= RoundTo(n, u)
    ensures n <= m * u ==> RoundTo(n, u) <= m * u
  {
    var q, rest := n / u, n % u;
    assert n == q * u + rest;
    assert (q + 1) * u == q * u + u;
    MulMonotone(m, q, u);
    MulMonotone(q + 1, m, u);
  }

  /** Half way between two multiples of the unit, the even one is taken. */
  lemma TiesToEven(q: nat, half: nat)
    requires half >= 1
    ensures RoundTo(q * (2 * half) + half, 2 * half) == (q + q % 2) * (2 * half)
  {
    Quotient(q * (2 * half) + half, 2 * half, q, half);
  }

  lemma MulMonotone(a: nat, b: nat, u: nat)
    ensures a <= b ==> a * u <= b * u
  {
    if a <= b {
      assert b * u == a * u + (b - a) * u;
    }
  }

  lemma SmallIsExact(n: nat)
    requires n < TWO_53
    ensures Round53(n) == n
  {
    assert Ulp(n) == 1;
    assert n / 1 == n && n % 1 == 0;
  }

  /** A grid whose step is a multiple of the unit is never crossed by rounding. */
  lemma GridSurvives(product: nat, c: nat, grid: nat, m: nat)
    requires grid == c * Ulp(product)
    ensures m * grid <= product ==> m * grid <= Round53(product)
    ensures product <= m * grid ==> Round53(product) <= m * grid
  {
    RoundToBounds(product, Ulp(product), m * c);
    Assoc(m, c, Ulp(product));
  }

  lemma Assoc(a: int, b: int, c: int)
    ensures a * (b * c) == (a * b) * c
  {
  }

  lemma PowersOfTwo()
    ensures Pow2(7) == 128 && Pow2(45) == TWO_45 && Pow2(52) == TWO_52 && Pow2(59) == TWO_59
  {
    PowersTo28();
    Pow2Add(28, 14);
    Pow2Add(42, 3);
    Pow2Add(45, 7);
    Pow2Add(52, 7);
  }

  lemma PowersTo28()
    ensures Pow2(3) == 8 && Pow2(7) == 128 && Pow2(14) == 0x4000 && Pow2(28) == 0x1000_0000
  {
    assert Pow2(3) == 8 && Pow2(4) == 16;
    Pow2Add(3, 4);
    Pow2Add(7, 7);
    Pow2Add(14, 14);
  }

  /** Products of an amount up to 2^45 and a 53-bit significand. */
  lemma ProductUlp(amount: nat, product: nat)
    requires 1 <= amount <= TWO_45 && amount * TWO_52 <= product < amount * TWO_53
    ensures TWO_52 * Ulp(product) <= product < TWO_53 * Ulp(product) && Ulp(product) < 2 * amount
    ensures UlpExponent(product) < 52
  {
    UlpBounds(product);
    PowersOfTwo();
    if UlpExponent(product) >= 52 {
      Pow2Monotone(52, UlpExponent(product));
      assert false;
    }
  }

  /** Small positive amounts are exact in binary64, so one rounding decides the result. */
  lemma OneRounding(amount: nat, n: nat)
    requires 1 <= amount < TWO_53 && n <= MAX_INT64
    ensures n * TWO_52 <= Round53(amount * EUR_RATE) < (n + 1) * TWO_52 ==> ToUSD(amount, "EUR") == Some(n)
    ensures n * TWO_59 <= Round53(amount * RUB_RATE) < (n + 1) * TWO_59 ==> ToUSD(amount, "RUB") == Some(n)
  {
    SmallIsExact(amount);
    FloorBounds(Round53(amount * EUR_RATE), n);
    FloorBounds(Round53(amount * RUB_RATE), n);
  }

  lemma FloorBounds(r: nat, n: nat)
    ensures n * TWO_52 <= r < (n + 1) * TWO_52 ==> r / TWO_52 == n
    ensures n * TWO_59 <= r < (n + 1) * TWO_59 ==> r / TWO_59 == n
  {
  }

  /** EUR amounts up to 2^45 convert to exactly floor(1.09 * amount). */
  lemma EurExact(amount: nat)
    requires 1 <= amount <= TWO_45
    ensures ToUSD(amount, "EUR") == Some(109 * amount / 100)
  {
    var product := amount * EUR_RATE;
    var n := 109 * amount / 100;
    ProductUlp(amount, product);
    UlpBounds(product);
    PowersOfTwo();
    assert 100 * product == 109 * amount * TWO_52 + 36 * amount;
    Pow2Add(52 - UlpExponent(product), UlpExponent(product));
    GridSurvives(product, Pow2(52 - UlpExponent(product)), TWO_52, n);
    RoundToBounds(product, Ulp(product), 0);
    OneRounding(amount, n);
  }

  /** 2^63 - 1 euro cents round up to 2^63 and convert to more than an int64 holds. */
  lemma LargestEuro()
    ensures ToUSD(MAX_INT64, "EUR") == Some(MIN_INT64)
  {
    PowersTo28();
    assert Pow2(10) == 1024 by { Pow2Add(3, 7); }
    UlpUnique(MAX_INT64, 10);
    assert Round53(MAX_INT64) == MAX_INT64 + 1;
    PowersOfTwo();
    Pow2Add(59, 4);
    var product := (MAX_INT64 + 1) * EUR_RATE;
    UlpUnique(product, 63);
    assert Round53(product) == product;
  }

  /** Away from multiples of 1000, RUB amounts up to 2^45 convert to exactly floor(0.011 * amount). */
  lemma RubOffGrid(amount: nat, n: nat, rest: nat)
    requires 1 <= amount <= TWO_45 && 11 * amount == 1000 * n + rest && 1 <= rest < 1000
    ensures ToUSD(amount, "RUB") == Some(n)
  {
    var product := amount * RUB_RATE;
    ProductUlp(amount, product);
    assert 1000 * product == 11 * amount * TWO_59 - 368 * amount;
    RoundToBounds(product, Ulp(product), 0);
    OffGridArithmetic(amount, n, rest, product, Ulp(product), Round53(product));
    OneRounding(amount, n);
  }

  /** 91 inverts 11 modulo 1000. */
  lemma ElevenInvertible(amount: nat, n: nat, rest: nat)
    requires 11 * amount == 1000 * n + rest && amount % 1000 != 0
    ensures rest != 0
  {
    assert amount == 1000 * (91 * n - amount) + 91 * rest;
  }

  lemma OffGridArithmetic(amount: nat, n: nat, rest: nat, product: nat, u: nat, r: nat)
    requires amount <= TWO_45 && 11 * amount == 1000 * n + rest && 1 <= rest < 1000
    requires 1000 * product == 11 * amount * TWO_59 - 368 * amount && u < 2 * amount
    requires 2 * r <= 2 * product + u && 2 * product <= 2 * r + u
    ensures n * TWO_59 <= r < (n + 1) * TWO_59
  {
  }

  /** The largest power of two that does not exceed n. */
  function Binade(n: nat): (b: nat)
    requires n >= 1
    ensures b <= n < 2 * b
  {
    if n == 1 then 1 else 2 * Binade(n / 2)
  }

  function Log2(n: nat): (k: nat)
    requires n >= 1
  {
    if n == 1 then 0 else 1 + Log2(n / 2)
  }

  lemma {:induction false} BinadeIsPower(n: nat)
    requires n >= 1
    ensures Binade(n) == Pow2(Log2(n))
  {
    if n > 1 {
      BinadeIsPower(n / 2);
    }
  }

  /** The multiples of 1000 whose conversion comes out one cent short of 0.011 * amount: the binary
      literal is below 0.011 by 368/1000 units, and near the top of a binade that is over half an ulp. */
  predicate RubShort(amount: nat)
    requires amount >= 1
  {
    amount % 1000 == 0 && 23 * (amount / 1000) > 4 * Binade(11 * (amount / 1000))
  }

  /** What RUB conversion yields, in exact arithmetic: the floor, one less for the short amounts. */
  function RubCents(amount: nat): int
    requires amount >= 1
  {
    11 * amount / 1000 - if RubShort(amount) then 1 else 0
  }

  /** Within one cent of the exact value, never above it. */
  lemma RubCentsBounds(amount: nat)
    requires amount >= 1
    ensures 0 <= RubCents(amount) <= amount
    ensures 11 * amount - 1000 <= 1000 * RubCents(amount) <= 11 * amount
  {
    if amount % 1000 == 0 {
      RubCentsOnGrid(amount / 1000);
    }
  }

  lemma RubCentsOnGrid(k: nat)
    requires k >= 1
    ensures RubShort(1000 * k) <==> 23 * k > 4 * Binade(11 * k)
    ensures RubCents(1000 * k) == if RubShort(1000 * k) then 11 * k - 1 else 11 * k
  {
    assert 1000 * k / 1000 == k && 11 * (1000 * k) / 1000 == 11 * k;
  }

  /** A multiple of an odd number above one is never a power of two. */
  lemma {:induction false} NotPowerOfTwo(odd: nat, k: nat, j: nat)
    requires k >= 1 && odd >= 3 && odd % 2 == 1
    ensures odd * k != Pow2(j)
    decreases j
  {
    if j == 0 {
      MulMonotone(1, k, odd);
    } else if odd * k == Pow2(j) {
      EvenFactor(odd, k, Pow2(j - 1));
      NotPowerOfTwo(odd, k / 2, j - 1);
      assert odd * k == 2 * (odd * (k / 2)) by { assert k == 2 * (k / 2); Assoc(2, odd, k / 2); Assoc(odd, 2, k / 2); }
    }
  }

  lemma EvenFactor(odd: nat, k: nat, half: nat)
    requires odd % 2 == 1 && odd * k == 2 * half
    ensures k % 2 == 0
  {
    assert odd * k == 2 * ((odd / 2) * k) + k by { Assoc(2, odd / 2, k); assert odd == 2 * (odd / 2) + 1; }
  }

  /** A multiple 1000k converts to 11k cents, or to one less exactly when 23k exceeds four times the largest
      power of two in 11k: the product falls 368k below the grid point 11k, and rounding reaches the grid
      point exactly when 736k is less than the unit there. */
  lemma RubOnGrid(k: nat)
    requires 1 <= k && 1000 * k <= TWO_45
    ensures ToUSD(1000 * k, "RUB") == Some(if 23 * k > 4 * Binade(11 * k) then 11 * k - 1 else 11 * k)
  {
    var amount, n := 1000 * k, 11 * k;
    var product := amount * RUB_RATE;
    assert product == n * TWO_59 - 368 * k;
    var c := GridUnit(k, product);
    GridRounding(n, c, product, Ulp(product), 368 * k);
    OneRounding(amount, n - 1);
    OneRounding(amount, n);
  }

  /** The unit of the product is 2^7 times the binade of 11k, and divides 2^59. */
  lemma GridUnit(k: nat, product: nat) returns (c: nat)
    requires 1 <= k && 1000 * k <= TWO_45 && product == 11 * k * TWO_59 - 368 * k
    ensures Ulp(product) == 128 * Binade(11 * k)
    ensures TWO_59 == c * Ulp(product) && 736 * k != Ulp(product)
  {
    BinadeIsPower(11 * k);
    UnitAt(k, Binade(11 * k), Log2(11 * k), product);
    ProductUlp(1000 * k, product);
    UlpBounds(product);
    PowersOfTwo();
    c := Pow2(59 - UlpExponent(product));
    Pow2Add(59 - UlpExponent(product), UlpExponent(product));
  }

  lemma Pow2Step(j: nat)
    ensures Pow2(j + 2) == 4 * Pow2(j) && Pow2(j + 7) == 128 * Pow2(j)
  {
    Pow2Add(2, j);
    Pow2Add(7, j);
    assert Pow2(2) == 4 && Pow2(7) == 128;
  }

  lemma GridArithmetic(k: nat, b: nat, product: nat)
    requires k <= TWO_45 && product == 11 * k * TWO_59 - 368 * k && b < 11 * k < 2 * b
    ensures TWO_52 * (128 * b) <= product < TWO_53 * (128 * b)
  {
  }

  lemma UnitAt(k: nat, b: nat, j: nat, product: nat)
    requires 1 <= k <= TWO_45 && product == 11 * k * TWO_59 - 368 * k
    requires b == Pow2(j) && b <= 11 * k < 2 * b
    ensures Ulp(product) == 128 * b && 736 * k != 128 * b
  {
    NotPowerOfTwo(11, k, j);
    NotPowerOfTwo(23, k, j + 2);
    Pow2Step(j);
    GridArithmetic(k, b, product);
    UlpUnique(product, j + 7);
  }

  /** Rounding T - d, where T is a multiple of the unit u and 2d is not u: it reaches T exactly
      when 2d < u, and otherwise stays below. */
  lemma GridRounding(n: nat, c: nat, product: nat, u: nat, d: nat)
    requires u >= 1 && TWO_59 == c * u && product == n * TWO_59 - d
    requires n >= 1 && 1 <= d < TWO_59 && 2 * d != u
    ensures (2 * d < u) <==> RoundTo(product, u) == n * TWO_59
    ensures (n - 1) * TWO_59 <= RoundTo(product, u) <= n * TWO_59
  {
    Assoc(n, c, u);
    Assoc(n - 1, c, u);
    RoundToBounds(product, u, n * c);
    RoundToBounds(product, u, (n - 1) * c);
    if d < u {
      assert product / u == n * c - 1 && product % u == u - d by {
        assert (n * c - 1) * u == n * TWO_59 - u;
        Quotient(product, u, n * c - 1, u - d);
      }
      assert (n * c - 1 + 1) * u == n * TWO_59;
    } else {
      assert (n * c - 1) * u == n * TWO_59 - u;
      RoundToBounds(product, u, n * c - 1);
    }
  }

  lemma Quotient(n: nat, u: nat, q: nat, rest: nat)
    requires u >= 1 && n == q * u + rest && rest < u
    ensures n / u == q && n % u == rest
  {
    var q', rest' := n / u, n % u;
    assert n == q' * u + rest';
    if q < q' {
      MulMonotone(q + 1, q', u);
    } else if q' < q {
      MulMonotone(q' + 1, q, u);
    }
  }

  /** RUB amounts up to 2^45 convert to floor(0.011 * amount), except that exactly the amounts
      of RubShort lose one cent. */
  lemma RubExact(amount: nat)
    requires 1 <= amount <= TWO_45
    ensures ToUSD(amount, "RUB") == Some(RubCents(amount))
  {
    if amount % 1000 == 0 {
      RubOnGrid(amount / 1000);
      RubCentsOnGrid(amount / 1000);
    } else {
      var n, rest := 11 * amount / 1000, 11 * amount % 1000;
      ElevenInvertible(amount, n, rest);
      RubOffGrid(amount, n, rest);
    }
  }

  /** The truncated product is not the floor of the decimal product: 230 roubles give 2.52 dollars. */
  lemma RubCounterexample()
    ensures ToUSD(23000, "RUB") == Some(252) && 11 * 23000 / 1000 == 253
  {
    RubOnGrid(23);
    BinadeOf253();
  }

  lemma BinadeOf253()
    ensures Binade(11 * 23) == 128
  {
    assert Binade(15) == 8;
    assert Binade(31) == 16 && Binade(63) == 32;
    assert Binade(126) == 64;
  }

  /** RUB amounts up to 2^45 convert to within one cent of 0.011 * amount, never above it. */
  lemma RubWithinCent(amount: nat)
    requires 1 <= amount <= TWO_45
    ensures ToUSD(amount, "RUB").Some?
    ensures 11 * amount - 1000 <= 1000 * ToUSD(amount, "RUB").value <= 11 * amount
  {
    RubExact(amount);
    RubCentsBounds(amount);
  }
}
