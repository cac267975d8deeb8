/**
 * The pure arithmetic of the economy: cost curves of equipment and research,
 * the prestige reward, the randomised coin quote with the cost-basis update
 * of a purchase, and the suffix choice of the number formatter.
 */
module Economy {
  import opened Catalog

  /** `b` raised to the natural power `n` (the source's Math.pow with an integer exponent). */
  function Pow(b: real, n: nat): real
  {
    if n == 0 then 1.0 else b * Pow(b, n - 1)
  }

  lemma {:induction false} PowAtLeastOne(b: real, n: nat)
    requires b >= 1.0
    ensures Pow(b, n) >= 1.0
  {
    if n > 0 {
      PowAtLeastOne(b, n - 1);
      assert b * Pow(b, n - 1) >= Pow(b, n - 1) by {
        assert (b - 1.0) * Pow(b, n - 1) >= 0.0;
      }
    }
  }

  // ---------------------------------------------------------------------------
  // Cost curves

  /** Price of the next unit of `e` when `owned` units are already owned. */
  function EquipmentCost(e: Equipment, owned: nat): (cost: int)
    ensures cost >= e.baseCost
  {
    PowAtLeastOne(1.15, owned);
    assert e.baseCost as real * Pow(1.15, owned) >= e.baseCost as real * 1.0;
    (e.baseCost as real * Pow(1.15, owned)).Floor
  }

  /** Buying one more unit never makes the next unit cheaper, and it makes it
      strictly dearer as soon as the base cost is at least 10. */
  lemma EquipmentCostStep(e: Equipment, owned: nat)
    ensures EquipmentCost(e, owned) <= EquipmentCost(e, owned + 1)
    ensures e.baseCost >= 10 ==> EquipmentCost(e, owned) < EquipmentCost(e, owned + 1)
  {
    var p := Pow(1.15, owned);
    PowAtLeastOne(1.15, owned);
    var b := e.baseCost as real;
    var x := b * p;
    assert Pow(1.15, owned + 1) == 1.15 * p;
    assert b * (1.15 * p) == x + 0.15 * x;
    MulNonNegative(b, p - 1.0);
    assert x >= b;
  }

  lemma {:induction false} EquipmentCostMonotone(e: Equipment, m: nat, n: nat)
    requires m <= n
    ensures EquipmentCost(e, m) <= EquipmentCost(e, n)
    ensures e.baseCost >= 10 && m < n ==> EquipmentCost(e, m) < EquipmentCost(e, n)
  {
    if m < n {
      EquipmentCostMonotone(e, m, n - 1);
      EquipmentCostStep(e, n - 1);
    }
  }

  /** Every catalog item's price strictly rises with each unit bought. */
  lemma CatalogEquipmentCostIncreasing(i: nat, m: nat, n: nat)
    requires i < |EquipmentData()| && m < n
    ensures EquipmentCost(EquipmentData()[i], m) < EquipmentCost(EquipmentData()[i], n)
  {
    EquipmentCostMonotone(EquipmentData()[i], m, n);
  }

  /** Price of raising research `r` from `level` to `level + 1`. */
  function ResearchCost(r: Research, level: nat): (cost: int)
    ensures cost >= r.baseCost
  {
    PowAtLeastOne(2.0, level);
    assert r.baseCost as real * Pow(2.0, level) >= r.baseCost as real * 1.0;
    (r.baseCost as real * Pow(2.0, level)).Floor
  }

  /** With an integer base cost no rounding happens: the cost is exactly baseCost * 2^level. */
  lemma {:induction false} ResearchCostExact(r: Research, level: nat)
    ensures ResearchCost(r, level) as real == r.baseCost as real * Pow(2.0, level)
  {
    if level > 0 {
      ResearchCostExact(r, level - 1);
      var c := ResearchCost(r, level - 1);
      var p := Pow(2.0, level - 1);
      assert Pow(2.0, level) == 2.0 * p;
      assert r.baseCost as real * (2.0 * p) == 2.0 * (r.baseCost as real * p);
      assert r.baseCost as real * Pow(2.0, level) == (2 * c) as real;
      assert ResearchCost(r, level) == (r.baseCost as real * Pow(2.0, level)).Floor;
    }
  }

  lemma ResearchCostDoubles(r: Research, level: nat)
    ensures ResearchCost(r, level + 1) == 2 * ResearchCost(r, level)
  {
    ResearchCostExact(r, level);
    ResearchCostExact(r, level + 1);
  }

  // ---------------------------------------------------------------------------
  // Prestige reward

  /** The integer square root: the largest `r` with r*r <= n. */
  function FloorSqrt(n: nat): (r: nat)
    ensures r * r <= n < (r + 1) * (r + 1)
  {
    if n == 0 then 0
    else
      var s := FloorSqrt(n - 1);
      if (s + 1) * (s + 1) <= n then s + 1 else s
  }

  /** Golden blocks earned by prestiging: floor(sqrt(totalEarned / 1e6)). */
  function PrestigeReward(totalEarned: real): nat
    requires totalEarned >= 0.0
  {
    FloorSqrt((totalEarned / 1000000.0).Floor)
  }

  /** The reward is the largest k >= 0 with k*k <= totalEarned / 1e6, and it is
      positive exactly when at least one million coins have been earned. */
  lemma PrestigeRewardSquareRoot(totalEarned: real)
    requires totalEarned >= 0.0
    ensures var k := PrestigeReward(totalEarned);
      && (k * k) as real <= totalEarned / 1000000.0 < ((k + 1) * (k + 1)) as real
      && (k > 0 <==> totalEarned >= 1000000.0)
  {
    var x := totalEarned / 1000000.0;
    var r := FloorSqrt(x.Floor);
    assert (r * r) as real <= x.Floor as real <= x;
    assert x < (x.Floor + 1) as real;
    assert x.Floor + 1 <= (r + 1) * (r + 1);
  }

  /** A reward is due exactly when at least one million coins have been earned. */
  lemma PrestigeRewardPositive(totalEarned: real)
    requires totalEarned >= 0.0
    ensures PrestigeReward(totalEarned) > 0 <==> totalEarned >= 1000000.0
  {
    PrestigeRewardSquareRoot(totalEarned);
  }

  // ---------------------------------------------------------------------------
  // Trading

  /** The price quoted for `c` when the uniform draw is `u`. */
  function Quote(c: Crypto, u: real): real
  {
    c.basePrice * (1.0 + (u - 0.5) * c.volatility * 2.0)
  }

  /** A quote deviates from the base price by at most the coin's volatility, in
      either direction. */
  lemma QuoteDeviation(c: Crypto, u: real)
    requires 0.0 <= u < 1.0 && c.basePrice >= 0.0 && c.volatility >= 0.0
    ensures c.basePrice * (1.0 - c.volatility) <= Quote(c, u) <= c.basePrice * (1.0 + c.volatility)
  {
    var t := u - 0.5;
    var d := t * c.volatility * 2.0;
    MulNonNegative(0.5 - t, c.volatility);
    MulNonNegative(t + 0.5, c.volatility);
    assert -c.volatility <= d <= c.volatility;
    MulNonNegative(c.basePrice, d + c.volatility);
    MulNonNegative(c.basePrice, c.volatility - d);
  }

  /** Every quote for a catalog coin lies strictly between 0 and twice its base price. */
  lemma QuoteBounds(i: nat, u: real)
    requires i < |CryptoData()| && 0.0 <= u < 1.0
    ensures 0.0 < Quote(CryptoData()[i], u) < 2.0 * CryptoData()[i].basePrice
  {
    var c := CryptoData()[i];
    QuoteDeviation(c, u);
    assert c.basePrice * (1.0 - c.volatility) > 0.0;
    assert c.basePrice * (1.0 + c.volatility) < 2.0 * c.basePrice;
  }

  /** The value of `amount` units at `price` each, added up unit by unit. */
  function TradeValue(price: real, amount: nat): real
  {
    if amount == 0 then 0.0 else TradeValue(price, amount - 1) + price
  }

  /** Adding up `amount` unit prices is the source's `price * amount`. */
  lemma {:induction false} TradeValueIsProduct(price: real, amount: nat)
    ensures TradeValue(price, amount) == price * amount as real
  {
    if amount > 0 {
      TradeValueIsProduct(price, amount - 1);
      assert price * (amount - 1) as real + price == price * amount as real;
    }
  }

  /** A trade at a non-negative price has a non-negative value. */
  lemma TradeValueNonNegative(price: real, amount: nat)
    requires price >= 0.0
    ensures TradeValue(price, amount) >= 0.0
  {
    TradeValueIsProduct(price, amount);
    MulNonNegative(price, amount as real);
  }

  /** Selling at least one unit makes a profit exactly when the quote exceeds
      the average purchase price. */
  lemma TradeValueCompare(price: real, avgPrice: real, amount: nat)
    requires amount >= 1
    ensures TradeValue(price, amount) > TradeValue(avgPrice, amount) <==> price > avgPrice
  {
    TradeValueIsProduct(price, amount);
    TradeValueIsProduct(avgPrice, amount);
    CompareScaled(price, avgPrice, amount as real);
  }

  /** A coin position: units held and their average purchase price. */
  datatype Holding = Holding(amount: nat, avgPrice: real)

  /** The position after buying `amount` more units for `totalCost` in all. */
  function MergeHolding(h: Holding, amount: nat, totalCost: real): (r: Holding)
    requires amount >= 1
    ensures r.amount == h.amount + amount
  {
    Holding(h.amount + amount, (h.avgPrice * h.amount as real + totalCost) / (h.amount + amount) as real)
  }

  /** The weighted average keeps the cost basis: the merged position's book value
      is the old book value plus what was paid, and its average lies between the
      old average and the price just paid. */
  lemma MergeHoldingCostBasis(h: Holding, amount: nat, price: real)
    requires amount >= 1
    ensures var r := MergeHolding(h, amount, TradeValue(price, amount));
      && r.avgPrice * r.amount as real == h.avgPrice * h.amount as real + price * amount as real
      && (h.amount == 0 ==> r.avgPrice == price)
      && (h.avgPrice <= price ==> h.avgPrice <= r.avgPrice <= price)
      && (price <= h.avgPrice ==> price <= r.avgPrice <= h.avgPrice)
  {
    TradeValueIsProduct(price, amount);
    MergeHoldingAverage(h, amount, price);
    assert MergeHolding(h, amount, TradeValue(price, amount)) == MergeHolding(h, amount, price * amount as real);
  }

  /** MergeHoldingCostBasis with the total written as a product. */
  lemma MergeHoldingAverage(h: Holding, amount: nat, price: real)
    requires amount >= 1
    ensures var r := MergeHolding(h, amount, price * amount as real);
      && r.avgPrice * r.amount as real == h.avgPrice * h.amount as real + price * amount as real
      && (h.amount == 0 ==> r.avgPrice == price)
      && (h.avgPrice <= price ==> h.avgPrice <= r.avgPrice <= price)
      && (price <= h.avgPrice ==> price <= r.avgPrice <= h.avgPrice)
  {
    WeightedAverage(h.avgPrice, h.amount as real, price, amount as real, (h.amount + amount) as real);
  }

  /** The average of `m` units at `a` and `k` units at `p`, over `n == m + k` units. */
  lemma WeightedAverage(a: real, m: real, p: real, k: real, n: real)
    requires m >= 0.0 && k >= 1.0 && n == m + k
    ensures var avg := (a * m + p * k) / n;
      && avg * n == a * m + p * k
      && (m == 0.0 ==> avg == p)
      && (a <= p ==> a <= avg <= p)
      && (p <= a ==> p <= avg <= a)
  {
    var book := a * m + p * k;
    var avg := book / n;
    assert avg * n == book;
    assert book - a * n == (p - a) * k;
    assert p * n - book == (p - a) * m;
    if m == 0.0 {
      assert book == p * n;
      BetweenByScaling(p, avg, p, n);
    }
    if a <= p {
      MulNonNegative(p - a, k);
      MulNonNegative(p - a, m);
      BetweenByScaling(a, avg, p, n);
    }
    if p <= a {
      MulNonNegative(a - p, k);
      MulNonNegative(a - p, m);
      BetweenByScaling(p, avg, a, n);
    }
  }

  lemma MulNonNegative(a: real, b: real)
    requires a >= 0.0 && b >= 0.0
    ensures a * b >= 0.0
  {
  }

  /** Scaling by a factor of at least one keeps a strict ordering, both ways. */
  lemma CompareScaled(p: real, a: real, k: real)
    requires k >= 1.0
    ensures p * k > a * k <==> p > a
  {
    assert p * k - a * k == (p - a) * k;
    if p > a {
      assert (p - a) * k >= (p - a) * 1.0;
    } else {
      MulNonNegative(a - p, k);
    }
  }

  /** Dividing out a positive factor keeps an ordering. */
  lemma BetweenByScaling(lo: real, x: real, hi: real, n: real)
    requires n > 0.0 && lo * n <= x * n <= hi * n
    ensures lo <= x <= hi
  {

  }

  // ---------------------------------------------------------------------------
  // Number formatting

  /** A number written as a mantissa and a magnitude suffix. */
  datatype Abbreviation = Abbreviation(mantissa: real, suffix: string)

  function SuffixScale(suffix: string): real
  {
    if suffix == "T" then 1000000000000.0
    else if suffix == "B" then 1000000000.0
    else if suffix == "M" then 1000000.0
    else if suffix == "K" then 1000.0
    else 1.0
  }

  /** The suffix choice of the formatter: T, B, M or K for the largest power of a
      thousand the number reaches, none below a thousand (then the whole part). */
  function Abbreviate(num: real): (a: Abbreviation)
    ensures a.suffix == "T" <==> num >= 1000000000000.0
    ensures a.suffix == "B" <==> 1000000000.0 <= num < 1000000000000.0
    ensures a.suffix == "M" <==> 1000000.0 <= num < 1000000000.0
    ensures a.suffix == "K" <==> 1000.0 <= num < 1000000.0
    ensures a.suffix == "" <==> num < 1000.0
    ensures a.suffix != "" ==> a.mantissa * SuffixScale(a.suffix) == num && a.mantissa >= 1.0
    ensures a.suffix in {"B", "M", "K"} ==> a.mantissa < 1000.0
    ensures a.suffix == "" ==> a.mantissa == a.mantissa.Floor as real && a.mantissa <= num < a.mantissa + 1.0
  {
    if num >= 1000000000000.0 then Abbreviation(num / 1000000000000.0, "T")
    else if num >= 1000000000.0 then Abbreviation(num / 1000000000.0, "B")
    else if num >= 1000000.0 then Abbreviation(num / 1000000.0, "M")
    else if num >= 1000.0 then Abbreviation(num / 1000.0, "K")
    else Abbreviation(num.Floor as real, "")
  }
}
