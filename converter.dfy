/**
 * The currency converter (`convertToAccountCurrency`): a prioritised lookup
 * chain over the rate table. Same currency, then the direct pair, then the
 * inverse pair, then two legs through USD, then a silent 1:1 fallback.
 */
module Converter {
  import opened Rates

  /**
   * The first leg through USD: the amount in USD, multiplying by fromUSD or
   * else dividing by USDfrom. USD itself, and a currency without either
   * entry, pass through unchanged.
   */
  function ToUsd(m: Table, amount: real, from: string): (r: real)
    ensures r == amount * UsdValue(m, from)
  {
    if from == "USD" then amount
    else if Has(m, from + "USD") then amount * m[from + "USD"]
    else if Has(m, "USD" + from) then amount / m["USD" + from]
    else amount
  }

  /**
   * Both legs through USD, taken when neither the direct nor the inverse pair
   * is usable: into USD by ToUsd, then out of USD multiplying by USDto or else
   * dividing by toUSD. A target without either entry gives back the original
   * amount, not the USD intermediate.
   */
  function ViaUsd(m: Table, amount: real, from: string, to: string): real
  {
    var inUsd := ToUsd(m, amount, from);
    if to == "USD" then inUsd
    else if Has(m, "USD" + to) then inUsd * m["USD" + to]
    else if Has(m, to + "USD") then inUsd / m[to + "USD"]
    else amount
  }

  /** `amount` units of `from` expressed in `to`, as the application computes it. */
  function Convert(m: Table, amount: real, from: string, to: string): (r: real)
    ensures from == to ==> r == amount
    ensures amount == 0.0 ==> r == 0.0
  {
    if from == to then amount
    else if Has(m, from + to) then amount * m[from + to]
    else if Has(m, to + from) then amount / m[to + from]
    else ViaUsd(m, amount, from, to)
  }

  /**
   * The reference conversion the lookup chain approximates: the amount valued
   * in USD through `from`, then re-expressed in `to`.
   */
  function AtUsdValues(m: Table, amount: real, from: string, to: string): real
  {
    amount * UsdValue(m, from) / UsdValue(m, to)
  }

  /** The reference conversion depends on the table only through the two USD values. */
  lemma SameUsdValuesSameReference(m: Table, n: Table, amount: real, from: string, to: string)
    requires UsdValue(m, from) == UsdValue(n, from) && UsdValue(m, to) == UsdValue(n, to)
    ensures AtUsdValues(m, amount, from, to) == AtUsdValues(n, amount, from, to)
  {
  }

  /** Going there and back at the reference rates gives the amount back. */
  lemma AtUsdValuesRoundTrip(m: Table, amount: real, from: string, to: string)
    ensures AtUsdValues(m, AtUsdValues(m, amount, from, to), to, from) == amount
  {
    var u, v := UsdValue(m, from), UsdValue(m, to);
    Cancel(amount * u, v, u);
    Restore(amount, u);
  }

  /** Going through a third currency at the reference rates is the same as going directly. */
  lemma AtUsdValuesChained(m: Table, amount: real, a: string, b: string, c: string)
    ensures AtUsdValues(m, AtUsdValues(m, amount, a, b), b, c) == AtUsdValues(m, amount, a, c)
  {
    var u, v, w := UsdValue(m, a), UsdValue(m, b), UsdValue(m, c);
    Cancel(amount * u, v, w);
  }

  // ----- Lookup priority -----

  /** A usable direct pair decides the result, whatever else the table holds. */
  lemma DirectPairFirst(m: Table, n: Table, amount: real, from: string, to: string)
    requires from != to && Has(m, from + to)
    requires from + to in n && n[from + to] == m[from + to]
    ensures Convert(m, amount, from, to) == amount * m[from + to]
    ensures Convert(n, amount, from, to) == Convert(m, amount, from, to)
  {
  }

  /** Without a direct pair, a usable inverse pair decides the result, whatever else the table holds. */
  lemma InversePairNext(m: Table, n: Table, amount: real, from: string, to: string)
    requires from != to && !Has(m, from + to) && !Has(n, from + to) && Has(m, to + from)
    requires to + from in n && n[to + from] == m[to + from]
    ensures Convert(m, amount, from, to) == amount / m[to + from]
    ensures Convert(n, amount, from, to) == Convert(m, amount, from, to)
  {
  }

  /**
   * With neither pair, the amount goes through USD: into USD by the source's
   * USD value, then out of USD by the target's, USDto taking priority over toUSD.
   */
  lemma ThroughUsd(m: Table, amount: real, from: string, to: string)
    requires from != to && !Has(m, from + to) && !Has(m, to + from) && Quoted(m, to)
    ensures to == "USD" ==> Convert(m, amount, from, to) == amount * UsdValue(m, from)
    ensures to != "USD" && Has(m, "USD" + to) ==>
      Convert(m, amount, from, to) == amount * UsdValue(m, from) * m["USD" + to]
    ensures to != "USD" && !Has(m, "USD" + to) ==>
      Convert(m, amount, from, to) == amount * UsdValue(m, from) / m[to + "USD"]
  {
  }

  // ----- Fallback quirks -----

  /**
   * A source currency without any USD entry is carried into the second leg
   * unconverted, as if it already were USD.
   */
  lemma UnquotedSourceTreatedAsUsd(m: Table, amount: real, from: string, to: string)
    requires from != to && from != "USD" && !Quoted(m, from)
    requires !Has(m, from + to) && !Has(m, to + from)
    ensures to == "USD" ==> Convert(m, amount, from, to) == amount
    ensures to != "USD" ==> Convert(m, amount, from, to) == Convert(m, amount, "USD", to)
  {
  }

  /**
   * A target currency without any USD entry makes the converter give back
   * the original amount, not the USD intermediate it already computed.
   */
  lemma MissingTargetLegReturnsInput(m: Table, amount: real, from: string, to: string)
    requires from != to && !Has(m, from + to) && !Has(m, to + from) && !Quoted(m, to)
    ensures Convert(m, amount, from, to) == amount
  {
  }

  // ----- Conversion against the reference rates -----

  /** In a coherent table a usable pair between quoted currencies is their rate through USD. */
  lemma CoherentPair(m: Table, b: string, q: string)
    requires Coherent(m) && |b| == 3 && |q| == 3 && Has(m, b + q) && Quoted(m, b) && Quoted(m, q)
    ensures m[b + q] == UsdValue(m, b) / UsdValue(m, q)
  {
    ConcatHalves(b, q);
    assert Agrees(m, b + q);
  }

  lemma TimesQuotient(a: real, x: real, y: real)
    requires y != 0.0
    ensures a * (x / y) == a * x / y
  {
  }

  lemma OverQuotient(a: real, x: real, y: real)
    requires x != 0.0 && y != 0.0
    ensures a / (x / y) == a * y / x
  {
  }

  /** The direct-pair branch on a coherent table. */
  lemma DirectMatchesUsdValues(m: Table, amount: real, from: string, to: string)
    requires Coherent(m) && |from| == 3 && |to| == 3 && Quoted(m, from) && Quoted(m, to)
    requires from != to && Has(m, from + to)
    ensures Convert(m, amount, from, to) == AtUsdValues(m, amount, from, to)
  {
    DirectPairFirst(m, m, amount, from, to);
    CoherentPair(m, from, to);
    TimesQuotient(amount, UsdValue(m, from), UsdValue(m, to));
  }

  /** The inverse-pair branch on a coherent table. */
  lemma InverseMatchesUsdValues(m: Table, amount: real, from: string, to: string)
    requires Coherent(m) && |from| == 3 && |to| == 3 && Quoted(m, from) && Quoted(m, to)
    requires from != to && !Has(m, from + to) && Has(m, to + from)
    ensures Convert(m, amount, from, to) == AtUsdValues(m, amount, from, to)
  {
    var u, v := UsdValue(m, from), UsdValue(m, to);
    InversePairNext(m, m, amount, from, to);
    CoherentPair(m, to, from);
    OverQuotient(amount, v, u);
    calc {
      Convert(m, amount, from, to);
      amount / m[to + from];
      amount / (v / u);
      amount * u / v;
    }
  }

  /** The branch through USD on a coherent table. */
  lemma LegsMatchUsdValues(m: Table, amount: real, from: string, to: string)
    requires Coherent(m) && |from| == 3 && |to| == 3 && Quoted(m, from) && Quoted(m, to)
    requires from != to && !Has(m, from + to) && !Has(m, to + from)
    ensures Convert(m, amount, from, to) == AtUsdValues(m, amount, from, to)
  {
    ThroughUsd(m, amount, from, to);
    var u, v := UsdValue(m, from), UsdValue(m, to);
    if to != "USD" && Has(m, "USD" + to) {
      CoherentPair(m, "USD", to);
      TimesQuotient(amount * u, 1.0, v);
    }
  }

  /**
   * The converter is exact on a coherent table: between any two quoted
   * three-letter currencies it multiplies by the ratio of their USD values,
   * whichever branch of the lookup chain it takes.
   */
  lemma ConvertMatchesUsdValues(m: Table, amount: real, from: string, to: string)
    requires Coherent(m) && |from| == 3 && |to| == 3 && Quoted(m, from) && Quoted(m, to)
    ensures Convert(m, amount, from, to) == AtUsdValues(m, amount, from, to)
  {
    if from == to {
    } else if Has(m, from + to) {
      DirectMatchesUsdValues(m, amount, from, to);
    } else if Has(m, to + from) {
      InverseMatchesUsdValues(m, amount, from, to);
    } else {
      LegsMatchUsdValues(m, amount, from, to);
    }
  }

  lemma Cancel(a: real, v: real, w: real)
    requires v != 0.0 && w != 0.0
    ensures a / v * v / w == a / w
  {
  }

  lemma Restore(a: real, u: real)
    requires u != 0.0
    ensures a * u / u == a
  {
  }

  /** Converting there and back on a coherent table gives the amount back. */
  lemma RoundTrip(m: Table, amount: real, from: string, to: string)
    requires Coherent(m) && |from| == 3 && |to| == 3 && Quoted(m, from) && Quoted(m, to)
    ensures Convert(m, Convert(m, amount, from, to), to, from) == amount
  {
    ConvertMatchesUsdValues(m, amount, from, to);
    ConvertMatchesUsdValues(m, Convert(m, amount, from, to), to, from);
    AtUsdValuesRoundTrip(m, amount, from, to);
  }

  /** Converting in two steps through a third quoted currency agrees with converting directly. */
  lemma ChainedConversion(m: Table, amount: real, a: string, b: string, c: string)
    requires Coherent(m) && |a| == 3 && |b| == 3 && |c| == 3
    requires Quoted(m, a) && Quoted(m, b) && Quoted(m, c)
    ensures Convert(m, Convert(m, amount, a, b), b, c) == Convert(m, amount, a, c)
  {
    ConvertMatchesUsdValues(m, amount, a, b);
    ConvertMatchesUsdValues(m, Convert(m, amount, a, b), b, c);
    ConvertMatchesUsdValues(m, amount, a, c);
    AtUsdValuesChained(m, amount, a, b, c);
  }

  lemma Associate(k: real, a: real, x: real)
    ensures k * a * x == k * (a * x)
  {
  }

  lemma AssociateOver(k: real, a: real, x: real)
    requires x != 0.0
    ensures k * a / x == k * (a / x)
  {
  }

  lemma UnitScales(k: real, a: real, u: real, v1: real, v2: real)
    requires v1 == k * a * u && v2 == a * u
    ensures v1 == k * v2
  {
  }

  lemma TimesScales(k: real, a: real, u: real, r: real, t1: real, t2: real, v1: real, v2: real)
    requires t1 == k * a * u && t2 == a * u && v1 == t1 * r && v2 == t2 * r
    ensures v1 == k * v2
  {
  }

  lemma OverScales(k: real, a: real, u: real, r: real, t1: real, t2: real, v1: real, v2: real)
    requires r != 0.0 && t1 == k * a * u && t2 == a * u && v1 == t1 / r && v2 == t2 / r
    ensures v1 == k * v2
  {
  }

  lemma NoSecondLeg(m: Table, amount: real, from: string, to: string)
    requires to == "USD"
    ensures ViaUsd(m, amount, from, to) == ToUsd(m, amount, from)
  {
  }

  lemma SecondLegTimes(m: Table, amount: real, from: string, to: string)
    requires to != "USD" && Has(m, "USD" + to)
    ensures ViaUsd(m, amount, from, to) == ToUsd(m, amount, from) * m["USD" + to]
  {
  }

  lemma SecondLegOver(m: Table, amount: real, from: string, to: string)
    requires to != "USD" && !Has(m, "USD" + to) && Has(m, to + "USD")
    ensures ViaUsd(m, amount, from, to) == ToUsd(m, amount, from) / m[to + "USD"]
  {
  }

  lemma ViaUsdScalesToUsd(m: Table, k: real, amount: real, from: string, to: string)
    requires to == "USD"
    ensures ViaUsd(m, k * amount, from, to) == k * ViaUsd(m, amount, from, to)
  {
    NoSecondLeg(m, k * amount, from, to);
    NoSecondLeg(m, amount, from, to);
    UnitScales(k, amount, UsdValue(m, from), ToUsd(m, k * amount, from), ToUsd(m, amount, from));
  }

  lemma ViaUsdScalesTimes(m: Table, k: real, amount: real, from: string, to: string)
    requires to != "USD" && Has(m, "USD" + to)
    ensures ViaUsd(m, k * amount, from, to) == k * ViaUsd(m, amount, from, to)
  {
    SecondLegTimes(m, k * amount, from, to);
    SecondLegTimes(m, amount, from, to);
    TimesScales(k, amount, UsdValue(m, from), m["USD" + to], ToUsd(m, k * amount, from), ToUsd(m, amount, from),
      ViaUsd(m, k * amount, from, to), ViaUsd(m, amount, from, to));
  }

  lemma ViaUsdScalesOver(m: Table, k: real, amount: real, from: string, to: string)
    requires to != "USD" && !Has(m, "USD" + to) && Has(m, to + "USD")
    ensures ViaUsd(m, k * amount, from, to) == k * ViaUsd(m, amount, from, to)
  {
    SecondLegOver(m, k * amount, from, to);
    SecondLegOver(m, amount, from, to);
    OverScales(k, amount, UsdValue(m, from), m[to + "USD"], ToUsd(m, k * amount, from), ToUsd(m, amount, from),
      ViaUsd(m, k * amount, from, to), ViaUsd(m, amount, from, to));
  }

  /** Scaling the amount scales both legs through USD. */
  lemma ViaUsdScales(m: Table, k: real, amount: real, from: string, to: string)
    ensures ViaUsd(m, k * amount, from, to) == k * ViaUsd(m, amount, from, to)
  {
    if to == "USD" {
      ViaUsdScalesToUsd(m, k, amount, from, to);
    } else if Has(m, "USD" + to) {
      ViaUsdScalesTimes(m, k, amount, from, to);
    } else if Has(m, to + "USD") {
      ViaUsdScalesOver(m, k, amount, from, to);
    }
  }

  lemma FallsThrough(m: Table, amount: real, from: string, to: string)
    requires from != to && !Has(m, from + to) && !Has(m, to + from)
    ensures Convert(m, amount, from, to) == ViaUsd(m, amount, from, to)
  {
  }

  lemma MulCongruent(k: real, x: real, y: real)
    requires x == y
    ensures k * x == k * y
  {
  }

  lemma LegsScale(m: Table, k: real, amount: real, from: string, to: string)
    requires from != to && !Has(m, from + to) && !Has(m, to + from)
    ensures Convert(m, k * amount, from, to) == k * Convert(m, amount, from, to)
  {
    FallsThrough(m, k * amount, from, to);
    FallsThrough(m, amount, from, to);
    ViaUsdScales(m, k, amount, from, to);
    MulCongruent(k, Convert(m, amount, from, to), ViaUsd(m, amount, from, to));
  }

  lemma IdentityScales(m: Table, k: real, amount: real, c: string)
    ensures Convert(m, k * amount, c, c) == k * Convert(m, amount, c, c)
  {
  }

  lemma DirectScales(m: Table, k: real, amount: real, from: string, to: string)
    requires from != to && Has(m, from + to)
    ensures Convert(m, k * amount, from, to) == k * Convert(m, amount, from, to)
  {
    Associate(k, amount, m[from + to]);
  }

  lemma InverseScales(m: Table, k: real, amount: real, from: string, to: string)
    requires from != to && !Has(m, from + to) && Has(m, to + from)
    ensures Convert(m, k * amount, from, to) == k * Convert(m, amount, from, to)
  {
    AssociateOver(k, amount, m[to + from]);
  }

  /**
   * The converter is linear: whichever branch it takes, scaling the amount
   * scales the result by the same factor.
   */
  lemma ConvertScales(m: Table, k: real, amount: real, from: string, to: string)
    ensures Convert(m, k * amount, from, to) == k * Convert(m, amount, from, to)
  {
    if from == to {
      IdentityScales(m, k, amount, from);
    } else if Has(m, from + to) {
      DirectScales(m, k, amount, from, to);
    } else if Has(m, to + from) {
      InverseScales(m, k, amount, from, to);
    } else {
      LegsScale(m, k, amount, from, to);
    }
  }

  lemma PositiveProduct(a: real, b: real)
    requires a > 0.0 && b > 0.0
    ensures a * b > 0.0
  {
  }

  lemma PositiveQuotient(a: real, b: real)
    requires a > 0.0 && b > 0.0
    ensures a / b > 0.0
  {
  }

  /** On a positive table a positive amount converts to a positive amount. */
  lemma ConvertPositive(m: Table, amount: real, from: string, to: string)
    requires Positive(m) && amount > 0.0
    ensures Convert(m, amount, from, to) > 0.0
  {
    if from == to {
    } else if Has(m, from + to) {
      DirectPairFirst(m, m, amount, from, to);
      PositiveProduct(amount, m[from + to]);
    } else if Has(m, to + from) {
      InversePairNext(m, m, amount, from, to);
      PositiveQuotient(amount, m[to + from]);
    } else {
      FallsThrough(m, amount, from, to);
      TriangulatedPositive(m, from, to);
      PositiveProduct(amount, UsdValue(m, from));
      if to == "USD" {
        NoSecondLeg(m, amount, from, to);
      } else if Has(m, "USD" + to) {
        SecondLegTimes(m, amount, from, to);
        PositiveProduct(ToUsd(m, amount, from), m["USD" + to]);
      } else if Has(m, to + "USD") {
        SecondLegOver(m, amount, from, to);
        PositiveQuotient(ToUsd(m, amount, from), m[to + "USD"]);
      } else {
        MissingTargetLegReturnsInput(m, amount, from, to);
      }
    }
  }

  lemma NonZeroProduct(a: real, b: real)
    requires a != 0.0 && b != 0.0
    ensures a * b != 0.0
  {
  }

  lemma NonZeroQuotient(a: real, b: real)
    requires a != 0.0 && b != 0.0
    ensures a / b != 0.0
  {
  }

  lemma ViaUsdNonZero(m: Table, amount: real, from: string, to: string)
    requires amount != 0.0
    ensures ViaUsd(m, amount, from, to) != 0.0
  {
    NonZeroProduct(amount, UsdValue(m, from));
    var inUsd := ToUsd(m, amount, from);
    if to == "USD" {
    } else if Has(m, "USD" + to) {
      NonZeroProduct(inUsd, m["USD" + to]);
    } else if Has(m, to + "USD") {
      NonZeroQuotient(inUsd, m[to + "USD"]);
    }
  }

  /**
   * Every lookup the converter makes is of a usable (non-zero) rate, so a
   * non-zero amount never converts to zero, whatever the table holds.
   */
  lemma ConvertNonZero(m: Table, amount: real, from: string, to: string)
    requires amount != 0.0
    ensures Convert(m, amount, from, to) != 0.0
  {
    if from == to {
    } else if Has(m, from + to) {
      NonZeroProduct(amount, m[from + to]);
    } else if Has(m, to + from) {
      NonZeroQuotient(amount, m[to + from]);
    } else {
      ViaUsdNonZero(m, amount, from, to);
    }
  }

  // ----- The table as the application keeps it -----

  /** The offered currency codes are three letters long. */
  lemma CodesHaveThreeLetters(c: string)
    requires c in Codes
    ensures |c| == 3
  {
  }

  /**
   * With live majors every offered currency is quoted, so on a coherent table
   * the 1:1 fallback is never reached and conversion between offered
   * currencies is exact.
   */
  lemma OfferedCodesConvertExactly(m: Table, amount: real, from: string, to: string)
    requires MajorsLive(m) && Coherent(m) && from in Codes && to in Codes
    ensures Convert(m, amount, from, to) == AtUsdValues(m, amount, from, to)
  {
    MajorsQuoteEveryCode(m);
    CodesHaveThreeLetters(from);
    CodesHaveThreeLetters(to);
    ConvertMatchesUsdValues(m, amount, from, to);
  }

  /**
   * Converting EUR to GBP on a table holding only the majors goes through USD
   * and gives EURUSD / GBPUSD per euro.
   */
  lemma EurToGbpThroughUsd(m: Table, amount: real)
    requires MajorsLive(m) && m.Keys == MajorKeys
    ensures Convert(m, amount, "EUR", "GBP") == amount * m["EURUSD"] / m["GBPUSD"]
  {
    MajorKeyNames();
    CrossKeyNames();
    assert "GBP" + "EUR" == "GBPEUR" && "USD" + "GBP" == "USDGBP";
    assert "EURGBP" !in m && "GBPEUR" !in m && "USDGBP" !in m;
    ThroughUsd(m, amount, "EUR", "GBP");
    MajorUsdValues(m);
  }

  /**
   * After the crosses are derived, converting EUR to GBP uses the derived
   * EURGBP entry and gives exactly the same EURUSD / GBPUSD per euro.
   */
  lemma EurToGbpMatchesCross(m: Table, amount: real)
    requires MajorsLive(m)
    ensures Convert(Rederived(m), amount, "EUR", "GBP") == amount * m["EURUSD"] / m["GBPUSD"]
  {
    var r := Rederived(m);
    var x := m["EURUSD"] / m["GBPUSD"];
    assert "EUR" + "GBP" == "EURGBP";
    assert "EURGBP" in r && r["EURGBP"] == x;
    DirectPairFirst(r, r, amount, "EUR", "GBP");
    TimesQuotient(amount, m["EURUSD"], m["GBPUSD"]);
  }

  /**
   * Deriving the crosses changes no conversion between offered currencies:
   * every conversion on the derived table is the one the majors give through USD.
   */
  lemma RederiveKeepsConversions(m: Table, amount: real, from: string, to: string)
    requires MajorsLive(m) && NoInverseMajors(m) && Shaped(m) && from in Codes && to in Codes
    ensures Convert(Rederived(m), amount, from, to) == AtUsdValues(m, amount, from, to)
  {
    var r := Rederived(m);
    CodesHaveThreeLetters(from);
    CodesHaveThreeLetters(to);
    RederivedCoherent(m);
    RederivedKeepsMajors(m);
    OfferedCodesConvertExactly(r, amount, from, to);
    RederivedKeepsUsdValue(m, from);
    RederivedKeepsUsdValue(m, to);
    SameUsdValuesSameReference(r, m, amount, from, to);
  }
}
