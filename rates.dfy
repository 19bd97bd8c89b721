/**
 * The rate store: the shared table of exchange rates (`state.livePrices`),
 * seeded with seven USD majors, refreshed by small perturbations of three of
 * them, and completed with twelve cross rates derived by triangulation.
 *
 * A rate stored under the six-letter key XXXYYY is the number of YYY units one
 * XXX unit buys. All rates are modelled as exact reals.
 */
module Rates {

  type Table = map<string, real>

  /** JavaScript truthiness of `state.livePrices[k]`: the entry exists and is not zero. */
  predicate Has(m: Table, k: string)
  {
    k in m && m[k] != 0.0
  }

  /** The currencies the application offers, as account currency or inside a pair. */
  const Codes: set<string> := {"USD", "EUR", "GBP", "JPY", "CHF", "AUD", "NZD", "CAD"}

  /** The seven pairs that are observed directly; all of them are quoted against USD. */
  const MajorKeys: set<string> :=
    {"EURUSD", "USDJPY", "GBPUSD", "USDCHF", "USDCAD", "AUDUSD", "NZDUSD"}

  /** The twelve pairs that are never observed, only derived from the majors. */
  const CrossKeys: set<string> :=
    {"EURGBP", "EURJPY", "GBPJPY", "AUDCAD", "AUDJPY", "CADJPY",
     "NZDCAD", "NZDJPY", "CADCHF", "EURCHF", "AUDNZD", "CHFJPY"}

  /** Every rate in the table is strictly positive. */
  ghost predicate Positive(m: Table)
  {
    forall k | k in m :: m[k] > 0.0
  }

  /** Every major pair is present with a usable (non-zero) rate. */
  predicate MajorsLive(m: Table)
  {
    && Has(m, "EURUSD") && Has(m, "USDJPY") && Has(m, "GBPUSD") && Has(m, "USDCHF")
    && Has(m, "USDCAD") && Has(m, "AUDUSD") && Has(m, "NZDUSD")
  }

  /** None of the majors quoted as USDXXX is shadowed by a usable XXXUSD entry. */
  predicate NoInverseMajors(m: Table)
  {
    !Has(m, "JPYUSD") && !Has(m, "CHFUSD") && !Has(m, "CADUSD")
  }

  /** The seed the application starts from. */
  function Seed(): (m: Table)
    ensures m.Keys == MajorKeys
    ensures Positive(m)
  {
    map[
      "EURUSD" := 1.0850,
      "USDJPY" := 149.50,
      "GBPUSD" := 1.2145,
      "USDCHF" := 0.8850,
      "USDCAD" := 1.3550,
      "AUDUSD" := 0.6520,
      "NZDUSD" := 0.5980
    ]
  }

  /** A currency that the table can take to or from USD: USD itself, or one with a usable cUSD or USDc entry. */
  predicate Quoted(m: Table, c: string)
  {
    c == "USD" || Has(m, c + "USD") || Has(m, "USD" + c)
  }

  /**
   * The factor that takes one unit of `c` into USD, read from the table in the
   * order the converter's first leg reads it: cUSD, else the inverse of USDc,
   * else 1 (an unquoted currency is passed through as if it were USD).
   */
  function UsdValue(m: Table, c: string): (v: real)
    ensures v != 0.0
  {
    if c == "USD" then 1.0
    else if Has(m, c + "USD") then m[c + "USD"]
    else if Has(m, "USD" + c) then 1.0 / m["USD" + c]
    else 1.0
  }

  /** The rate of `b` in `q` obtained by going through USD: how many `q` one `b` buys. */
  function Triangulated(m: Table, b: string, q: string): (r: real)
    ensures r != 0.0
  {
    UsdValue(m, b) / UsdValue(m, q)
  }

  /** The entry under `k`, if it is a usable pair of quoted currencies, equals their triangulated rate. */
  ghost predicate Agrees(m: Table, k: string)
  {
    |k| == 6 && Has(m, k) && Quoted(m, k[..3]) && Quoted(m, k[3..]) ==>
      m[k] == Triangulated(m, k[..3], k[3..])
  }

  /**
   * The table is free of arbitrage between the currencies it can reach: every
   * usable pair entry between quoted currencies equals the rate through USD.
   */
  ghost predicate Coherent(m: Table)
  {
    forall k {:trigger Agrees(m, k)} | k in m :: Agrees(m, k)
  }

  /**
   * The table after the cross rates are derived: each of the twelve crosses
   * (re)written with the application's product or quotient of two majors,
   * every other entry kept. Reading a missing or zero major is excluded.
   */
  function Rederived(m: Table): (r: Table)
    requires MajorsLive(m)
  {
    m
     ["EURGBP" := m["EURUSD"] / m["GBPUSD"]]
     ["EURJPY" := m["EURUSD"] * m["USDJPY"]]
     ["GBPJPY" := m["GBPUSD"] * m["USDJPY"]]
     ["AUDCAD" := m["AUDUSD"] * m["USDCAD"]]
     ["AUDJPY" := m["AUDUSD"] * m["USDJPY"]]
     ["CADJPY" := m["USDJPY"] / m["USDCAD"]]
     ["NZDCAD" := m["NZDUSD"] * m["USDCAD"]]
     ["NZDJPY" := m["NZDUSD"] * m["USDJPY"]]
     ["CADCHF" := m["USDCHF"] / m["USDCAD"]]
     ["EURCHF" := m["EURUSD"] * m["USDCHF"]]
     ["AUDNZD" := m["AUDUSD"] / m["NZDUSD"]]
     ["CHFJPY" := m["USDJPY"] / m["USDCHF"]]
  }

  /** The table after one refresh tick moved EURUSD, USDJPY and GBPUSD by the given deltas. */
  function Perturbed(m: Table, dEur: real, dJpy: real, dGbp: real): (r: Table)
    requires "EURUSD" in m && "USDJPY" in m && "GBPUSD" in m
  {
    m["EURUSD" := m["EURUSD"] + dEur]["USDJPY" := m["USDJPY"] + dJpy]["GBPUSD" := m["GBPUSD"] + dGbp]
  }

  // ----- String facts about the fixed keys -----

  lemma ConcatHalves(a: string, b: string)
    requires |a| == 3
    ensures (a + b)[..3] == a && (a + b)[3..] == b
  {
  }

  lemma MajorKeyNames()
    ensures "EUR" + "USD" == "EURUSD" && "GBP" + "USD" == "GBPUSD"
    ensures "AUD" + "USD" == "AUDUSD" && "NZD" + "USD" == "NZDUSD"
    ensures "USD" + "JPY" == "USDJPY" && "USD" + "CHF" == "USDCHF" && "USD" + "CAD" == "USDCAD"
    ensures "JPY" + "USD" == "JPYUSD" && "CHF" + "USD" == "CHFUSD" && "CAD" + "USD" == "CADUSD"
  {
  }

  /** No cross key has USD as either half. */
  lemma CrossesAvoidUsd(k: string)
    requires k in CrossKeys
    ensures |k| == 6 && k[..3] != "USD" && k[3..] != "USD"
  {
    assert k[0] != 'U';
    assert k[3] != 'U';
  }

  /** A key that names a USD leg is never a cross key. */
  lemma UsdLegsAreNotCrosses(c: string)
    requires |c| == 3
    ensures c + "USD" !in CrossKeys && "USD" + c !in CrossKeys
  {
    assert (c + "USD")[3] == 'U';
    assert ("USD" + c)[0] == 'U';
  }

  // ----- Properties of the reference functions -----

  /**
   * With the seven majors live, every offered currency has a USD leg, so the
   * converter's triangulation never falls through to its 1:1 fallback.
   */
  lemma MajorsQuoteEveryCode(m: Table)
    requires MajorsLive(m)
    ensures forall c | c in Codes :: Quoted(m, c)
  {
    MajorKeyNames();
  }

  /** The USD value of each offered currency, read off the majors. */
  lemma MajorUsdValues(m: Table)
    requires MajorsLive(m) && NoInverseMajors(m)
    ensures UsdValue(m, "EUR") == m["EURUSD"] && UsdValue(m, "GBP") == m["GBPUSD"]
    ensures UsdValue(m, "AUD") == m["AUDUSD"] && UsdValue(m, "NZD") == m["NZDUSD"]
    ensures UsdValue(m, "JPY") == 1.0 / m["USDJPY"]
    ensures UsdValue(m, "CHF") == 1.0 / m["USDCHF"]
    ensures UsdValue(m, "CAD") == 1.0 / m["USDCAD"]
  {
    MajorKeyNames();
  }

  /** On a positive table every USD value is positive, and so is every triangulated rate. */
  lemma TriangulatedPositive(m: Table, b: string, q: string)
    requires Positive(m)
    ensures UsdValue(m, b) > 0.0 && UsdValue(m, q) > 0.0 && Triangulated(m, b, q) > 0.0
  {
    if b != "USD" && !Has(m, b + "USD") && Has(m, "USD" + b) {
      assert m["USD" + b] > 0.0;
    }
    if q != "USD" && !Has(m, q + "USD") && Has(m, "USD" + q) {
      assert m["USD" + q] > 0.0;
    }
  }

  /** Deriving the crosses never touches a USD leg, so every USD value is as it was. */
  lemma RederivedKeepsUsdValue(m: Table, c: string)
    requires MajorsLive(m) && |c| == 3
    ensures Quoted(Rederived(m), c) == Quoted(m, c)
    ensures UsdValue(Rederived(m), c) == UsdValue(m, c)
  {
    UsdLegsAreNotCrosses(c);
    var r := Rederived(m);
    assert c + "USD" in r <==> c + "USD" in m;
    assert "USD" + c in r <==> "USD" + c in m;
  }

  /** Deriving the crosses keeps every entry that is not a cross, in particular all majors. */
  lemma RederivedKeepsOthers(m: Table, k: string)
    requires MajorsLive(m) && k in m && k !in CrossKeys
    ensures Rederived(m)[k] == m[k]
  {
  }

  /** Deriving the crosses keeps the majors live and unshadowed. */
  lemma RederivedKeepsMajors(m: Table)
    requires MajorsLive(m) && NoInverseMajors(m)
    ensures MajorsLive(Rederived(m)) && NoInverseMajors(Rederived(m))
  {
    MajorKeyNames();
    UsdLegsAreNotCrosses("EUR");
    UsdLegsAreNotCrosses("GBP");
    UsdLegsAreNotCrosses("AUD");
    UsdLegsAreNotCrosses("NZD");
    UsdLegsAreNotCrosses("JPY");
    UsdLegsAreNotCrosses("CHF");
    UsdLegsAreNotCrosses("CAD");
  }

  // ----- The application's twelve formulas are triangulations -----

  lemma CrossKeyNames()
    ensures "EUR" + "GBP" == "EURGBP" && "EUR" + "JPY" == "EURJPY" && "GBP" + "JPY" == "GBPJPY"
    ensures "AUD" + "CAD" == "AUDCAD" && "AUD" + "JPY" == "AUDJPY" && "CAD" + "JPY" == "CADJPY"
    ensures "NZD" + "CAD" == "NZDCAD" && "NZD" + "JPY" == "NZDJPY" && "CAD" + "CHF" == "CADCHF"
    ensures "EUR" + "CHF" == "EURCHF" && "AUD" + "NZD" == "AUDNZD" && "CHF" + "JPY" == "CHFJPY"
  {
  }

  /** Through USD, a currency quoted as XXXUSD against another quoted as YYYUSD: the quotient of the two majors. */
  lemma TriangulatedOfTwoBases(m: Table, b: string, q: string)
    requires b != "USD" && q != "USD" && Has(m, b + "USD") && Has(m, q + "USD")
    ensures Triangulated(m, b, q) == m[b + "USD"] / m[q + "USD"]
  {
  }

  /** Through USD, a currency quoted as XXXUSD against one quoted as USDYYY: the product of the two majors. */
  lemma TriangulatedOfBaseAndQuote(m: Table, b: string, q: string)
    requires b != "USD" && Has(m, b + "USD")
    requires q != "USD" && !Has(m, q + "USD") && Has(m, "USD" + q)
    ensures Triangulated(m, b, q) == m[b + "USD"] * m["USD" + q]
  {
    var x, y := m[b + "USD"], m["USD" + q];
    assert x / (1.0 / y) == x * y;
  }

  /** Through USD, a currency quoted as USDXXX against another quoted as USDYYY: the reversed quotient of the two majors. */
  lemma TriangulatedOfTwoQuotes(m: Table, b: string, q: string)
    requires b != "USD" && !Has(m, b + "USD") && Has(m, "USD" + b)
    requires q != "USD" && !Has(m, q + "USD") && Has(m, "USD" + q)
    ensures Triangulated(m, b, q) == m["USD" + q] / m["USD" + b]
  {
    var x, y := m["USD" + b], m["USD" + q];
    assert (1.0 / x) / (1.0 / y) == y / x;
  }

  /*
   * The twelve formulas the application writes (EURGBP = EURUSD / GBPUSD,
   * EURJPY = EURUSD * USDJPY, CADJPY = USDJPY / USDCAD, ...) are exactly the
   * rates through USD, on any table whose majors are live. They are stated in
   * four groups, by the shape of the formula.
   */

  /** EURGBP and AUDNZD: the quotient of two XXXUSD majors. */
  lemma QuotientFormulas(m: Table)
    requires MajorsLive(m)
    ensures Triangulated(m, "EUR", "GBP") == m["EURUSD"] / m["GBPUSD"]
    ensures Triangulated(m, "AUD", "NZD") == m["AUDUSD"] / m["NZDUSD"]
  {
    MajorKeyNames();
    TriangulatedOfTwoBases(m, "EUR", "GBP");
    TriangulatedOfTwoBases(m, "AUD", "NZD");
  }

  /** EURJPY, GBPJPY, AUDJPY and NZDJPY: an XXXUSD major times USDJPY. */
  lemma YenProductFormulas(m: Table)
    requires MajorsLive(m) && NoInverseMajors(m)
    ensures Triangulated(m, "EUR", "JPY") == m["EURUSD"] * m["USDJPY"]
    ensures Triangulated(m, "GBP", "JPY") == m["GBPUSD"] * m["USDJPY"]
    ensures Triangulated(m, "AUD", "JPY") == m["AUDUSD"] * m["USDJPY"]
    ensures Triangulated(m, "NZD", "JPY") == m["NZDUSD"] * m["USDJPY"]
  {
    MajorKeyNames();
    TriangulatedOfBaseAndQuote(m, "EUR", "JPY");
    TriangulatedOfBaseAndQuote(m, "GBP", "JPY");
    TriangulatedOfBaseAndQuote(m, "AUD", "JPY");
    TriangulatedOfBaseAndQuote(m, "NZD", "JPY");
  }

  /** AUDCAD, NZDCAD and EURCHF: an XXXUSD major times a USDYYY major. */
  lemma OtherProductFormulas(m: Table)
    requires MajorsLive(m) && NoInverseMajors(m)
    ensures Triangulated(m, "AUD", "CAD") == m["AUDUSD"] * m["USDCAD"]
    ensures Triangulated(m, "NZD", "CAD") == m["NZDUSD"] * m["USDCAD"]
    ensures Triangulated(m, "EUR", "CHF") == m["EURUSD"] * m["USDCHF"]
  {
    MajorKeyNames();
    TriangulatedOfBaseAndQuote(m, "AUD", "CAD");
    TriangulatedOfBaseAndQuote(m, "NZD", "CAD");
    TriangulatedOfBaseAndQuote(m, "EUR", "CHF");
  }

  /** CADJPY, CADCHF and CHFJPY: the reversed quotient of two USDXXX majors. */
  lemma ReversedQuotientFormulas(m: Table)
    requires MajorsLive(m) && NoInverseMajors(m)
    ensures Triangulated(m, "CAD", "JPY") == m["USDJPY"] / m["USDCAD"]
    ensures Triangulated(m, "CAD", "CHF") == m["USDCHF"] / m["USDCAD"]
    ensures Triangulated(m, "CHF", "JPY") == m["USDJPY"] / m["USDCHF"]
  {
    MajorKeyNames();
    TriangulatedOfTwoQuotes(m, "CAD", "JPY");
    TriangulatedOfTwoQuotes(m, "CAD", "CHF");
    TriangulatedOfTwoQuotes(m, "CHF", "JPY");
  }

  // ----- Coherence: the table after derivation, and after a refresh -----

  /** The only keys the table ever holds: the seven majors, and crosses once derived. */
  ghost predicate Shaped(m: Table)
  {
    MajorKeys <= m.Keys <= MajorKeys + CrossKeys
  }

  /** Deriving the crosses adds exactly the cross keys. */
  lemma RederivedKeys(m: Table)
    requires MajorsLive(m)
    ensures Rederived(m).Keys == m.Keys + CrossKeys
  {
  }

  /** Deriving the crosses keeps the table's shape. */
  lemma RederivedShaped(m: Table)
    requires MajorsLive(m) && Shaped(m)
    ensures Shaped(Rederived(m))
  {
  }

  lemma StorePositive(m: Table, k: string, v: real)
    requires Positive(m) && v > 0.0
    ensures Positive(m[k := v])
  {
  }

  /** Every derived cross of a positive table is positive, so the derived table is positive. */
  lemma RederivedPositive(m: Table)
    requires Positive(m) && MajorsLive(m)
    ensures Positive(Rederived(m))
  {
    var r := m;
    StorePositive(r, "EURGBP", m["EURUSD"] / m["GBPUSD"]);
    r := r["EURGBP" := m["EURUSD"] / m["GBPUSD"]];
    StorePositive(r, "EURJPY", m["EURUSD"] * m["USDJPY"]);
    r := r["EURJPY" := m["EURUSD"] * m["USDJPY"]];
    StorePositive(r, "GBPJPY", m["GBPUSD"] * m["USDJPY"]);
    r := r["GBPJPY" := m["GBPUSD"] * m["USDJPY"]];
    StorePositive(r, "AUDCAD", m["AUDUSD"] * m["USDCAD"]);
    r := r["AUDCAD" := m["AUDUSD"] * m["USDCAD"]];
    StorePositive(r, "AUDJPY", m["AUDUSD"] * m["USDJPY"]);
    r := r["AUDJPY" := m["AUDUSD"] * m["USDJPY"]];
    StorePositive(r, "CADJPY", m["USDJPY"] / m["USDCAD"]);
    r := r["CADJPY" := m["USDJPY"] / m["USDCAD"]];
    StorePositive(r, "NZDCAD", m["NZDUSD"] * m["USDCAD"]);
    r := r["NZDCAD" := m["NZDUSD"] * m["USDCAD"]];
    StorePositive(r, "NZDJPY", m["NZDUSD"] * m["USDJPY"]);
    r := r["NZDJPY" := m["NZDUSD"] * m["USDJPY"]];
    StorePositive(r, "CADCHF", m["USDCHF"] / m["USDCAD"]);
    r := r["CADCHF" := m["USDCHF"] / m["USDCAD"]];
    StorePositive(r, "EURCHF", m["EURUSD"] * m["USDCHF"]);
    r := r["EURCHF" := m["EURUSD"] * m["USDCHF"]];
    StorePositive(r, "AUDNZD", m["AUDUSD"] / m["NZDUSD"]);
    r := r["AUDNZD" := m["AUDUSD"] / m["NZDUSD"]];
    StorePositive(r, "CHFJPY", m["USDJPY"] / m["USDCHF"]);
    r := r["CHFJPY" := m["USDJPY"] / m["USDCHF"]];
    assert r == Rederived(m);
  }

  /** Each of EURGBP, AUDNZD in the derived table holds the rate of its base in its quote through USD. */
  lemma RederivedQuotients(m: Table)
    requires MajorsLive(m)
    ensures Rederived(m)["EURGBP"] == Triangulated(m, "EUR", "GBP")
    ensures Rederived(m)["AUDNZD"] == Triangulated(m, "AUD", "NZD")
  {
    QuotientFormulas(m);
  }

  /** Each of EURJPY, GBPJPY, AUDJPY, NZDJPY in the derived table holds the rate of its base in its quote through USD. */
  lemma RederivedYenProducts(m: Table)
    requires MajorsLive(m) && NoInverseMajors(m)
    ensures Rederived(m)["EURJPY"] == Triangulated(m, "EUR", "JPY")
    ensures Rederived(m)["GBPJPY"] == Triangulated(m, "GBP", "JPY")
    ensures Rederived(m)["AUDJPY"] == Triangulated(m, "AUD", "JPY")
    ensures Rederived(m)["NZDJPY"] == Triangulated(m, "NZD", "JPY")
  {
    YenProductFormulas(m);
  }

  /** Each of AUDCAD, NZDCAD, EURCHF in the derived table holds the rate of its base in its quote through USD. */
  lemma RederivedOtherProducts(m: Table)
    requires MajorsLive(m) && NoInverseMajors(m)
    ensures Rederived(m)["AUDCAD"] == Triangulated(m, "AUD", "CAD")
    ensures Rederived(m)["NZDCAD"] == Triangulated(m, "NZD", "CAD")
    ensures Rederived(m)["EURCHF"] == Triangulated(m, "EUR", "CHF")
  {
    OtherProductFormulas(m);
  }

  /** Each of CADJPY, CADCHF, CHFJPY in the derived table holds the rate of its base in its quote through USD. */
  lemma RederivedReversedQuotients(m: Table)
    requires MajorsLive(m) && NoInverseMajors(m)
    ensures Rederived(m)["CADJPY"] == Triangulated(m, "CAD", "JPY")
    ensures Rederived(m)["CADCHF"] == Triangulated(m, "CAD", "CHF")
    ensures Rederived(m)["CHFJPY"] == Triangulated(m, "CHF", "JPY")
  {
    ReversedQuotientFormulas(m);
  }

  /** A cross holding the triangulated rate of a table whose USD legs it shares agrees. */
  lemma CrossAgrees(m: Table, r: Table, b: string, q: string)
    requires |b| == 3 && |q| == 3 && b + q in r && r[b + q] == Triangulated(m, b, q)
    requires Quoted(r, b) == Quoted(m, b) && UsdValue(r, b) == UsdValue(m, b)
    requires Quoted(r, q) == Quoted(m, q) && UsdValue(r, q) == UsdValue(m, q)
    ensures Agrees(r, b + q)
  {
    ConcatHalves(b, q);
  }

  /** Every derived cross agrees with the derived table. */
  lemma DerivedCrossesAgree(m: Table)
    requires MajorsLive(m) && NoInverseMajors(m)
    ensures Agrees(Rederived(m), "EURGBP")
    ensures Agrees(Rederived(m), "EURJPY")
    ensures Agrees(Rederived(m), "GBPJPY")
    ensures Agrees(Rederived(m), "AUDCAD")
    ensures Agrees(Rederived(m), "AUDJPY")
    ensures Agrees(Rederived(m), "CADJPY")
    ensures Agrees(Rederived(m), "NZDCAD")
    ensures Agrees(Rederived(m), "NZDJPY")
    ensures Agrees(Rederived(m), "CADCHF")
    ensures Agrees(Rederived(m), "EURCHF")
    ensures Agrees(Rederived(m), "AUDNZD")
    ensures Agrees(Rederived(m), "CHFJPY")
  {
    CrossKeyNames();
    RederivedQuotients(m);
    RederivedYenProducts(m);
    RederivedOtherProducts(m);
    RederivedReversedQuotients(m);
    RederivedKeepsUsdValue(m, "EUR");
    RederivedKeepsUsdValue(m, "GBP");
    RederivedKeepsUsdValue(m, "JPY");
    RederivedKeepsUsdValue(m, "CHF");
    RederivedKeepsUsdValue(m, "AUD");
    RederivedKeepsUsdValue(m, "NZD");
    RederivedKeepsUsdValue(m, "CAD");
    CrossAgrees(m, Rederived(m), "EUR", "GBP");
    CrossAgrees(m, Rederived(m), "EUR", "JPY");
    CrossAgrees(m, Rederived(m), "GBP", "JPY");
    CrossAgrees(m, Rederived(m), "AUD", "CAD");
    CrossAgrees(m, Rederived(m), "AUD", "JPY");
    CrossAgrees(m, Rederived(m), "CAD", "JPY");
    CrossAgrees(m, Rederived(m), "NZD", "CAD");
    CrossAgrees(m, Rederived(m), "NZD", "JPY");
    CrossAgrees(m, Rederived(m), "CAD", "CHF");
    CrossAgrees(m, Rederived(m), "EUR", "CHF");
    CrossAgrees(m, Rederived(m), "AUD", "NZD");
    CrossAgrees(m, Rederived(m), "CHF", "JPY");
  }

  /** A positive table of that shape has its majors live, and no inverse entry shadows a USDXXX major. */
  lemma ShapedMajors(m: Table)
    requires Positive(m) && Shaped(m)
    ensures MajorsLive(m) && NoInverseMajors(m)
  {
  }

  /** A major quoted as XXXUSD agrees with the USD value it defines. */
  lemma BaseMajorAgrees(m: Table, c: string)
    requires |c| == 3 && c != "USD" && Has(m, c + "USD")
    ensures Agrees(m, c + "USD")
  {
    ConcatHalves(c, "USD");
  }

  /** A major quoted as USDXXX, with no usable XXXUSD beside it, agrees with the USD value it defines. */
  lemma QuoteMajorAgrees(m: Table, c: string)
    requires |c| == 3 && c != "USD" && Has(m, "USD" + c) && !Has(m, c + "USD")
    ensures Agrees(m, "USD" + c)
  {
    ConcatHalves("USD", c);
    var x := m["USD" + c];
    assert 1.0 / (1.0 / x) == x;
  }

  /** The seven majors agree with the USD values they define. */
  lemma MajorsAgree(m: Table)
    requires MajorsLive(m) && NoInverseMajors(m)
    ensures Agrees(m, "EURUSD") && Agrees(m, "GBPUSD") && Agrees(m, "AUDUSD") && Agrees(m, "NZDUSD")
    ensures Agrees(m, "USDJPY") && Agrees(m, "USDCHF") && Agrees(m, "USDCAD")
  {
    MajorKeyNames();
    BaseMajorAgrees(m, "EUR");
    BaseMajorAgrees(m, "GBP");
    BaseMajorAgrees(m, "AUD");
    BaseMajorAgrees(m, "NZD");
    QuoteMajorAgrees(m, "JPY");
    QuoteMajorAgrees(m, "CHF");
    QuoteMajorAgrees(m, "CAD");
  }

  /**
   * Whatever the majors are, a table holding only majors and crosses is
   * coherent once its crosses are derived.
   */
  lemma RederivedCoherent(m: Table)
    requires MajorsLive(m) && NoInverseMajors(m) && Shaped(m)
    ensures Coherent(Rederived(m))
  {
    var r := Rederived(m);
    RederivedKeepsMajors(m);
    MajorsAgree(r);
    DerivedCrossesAgree(m);
    CoherentFromKeys(r);
  }

  /** A table whose keys are majors and crosses, each of which agrees, is coherent. */
  lemma CoherentFromKeys(r: Table)
    requires r.Keys <= MajorKeys + CrossKeys
    requires Agrees(r, "EURUSD")
    requires Agrees(r, "USDJPY")
    requires Agrees(r, "GBPUSD")
    requires Agrees(r, "USDCHF")
    requires Agrees(r, "USDCAD")
    requires Agrees(r, "AUDUSD")
    requires Agrees(r, "NZDUSD")
    requires Agrees(r, "EURGBP")
    requires Agrees(r, "EURJPY")
    requires Agrees(r, "GBPJPY")
    requires Agrees(r, "AUDCAD")
    requires Agrees(r, "AUDJPY")
    requires Agrees(r, "CADJPY")
    requires Agrees(r, "NZDCAD")
    requires Agrees(r, "NZDJPY")
    requires Agrees(r, "CADCHF")
    requires Agrees(r, "EURCHF")
    requires Agrees(r, "AUDNZD")
    requires Agrees(r, "CHFJPY")
    ensures Coherent(r)
  {
  }

  /** The seed table is coherent. */
  lemma SeedCoherent()
    ensures MajorsLive(Seed()) && Coherent(Seed())
  {
    ShapedMajors(Seed());
    MajorsOnlyCoherent(Seed());
  }

  /** A table holding exactly the seven live majors is coherent. */
  lemma MajorsOnlyCoherent(m: Table)
    requires MajorsLive(m) && NoInverseMajors(m) && m.Keys == MajorKeys
    ensures Coherent(m)
  {
    MajorsAgree(m);
    forall k | k in m ensures Agrees(m, k) {
      assert k in MajorKeys;
    }
  }

  /** A cross that a refresh kept no longer agrees once the rate through USD of its halves moved. */
  lemma StaleCross(m: Table, p: Table, b: string, q: string)
    requires |b| == 3 && |q| == 3 && b + q in m && b + q in p && p[b + q] == m[b + q]
    requires Agrees(m, b + q) && Has(m, b + q)
    requires Quoted(m, b) && Quoted(m, q) && Quoted(p, b) && Quoted(p, q)
    requires Triangulated(m, b, q) != Triangulated(p, b, q)
    ensures !Agrees(p, b + q)
  {
    ConcatHalves(b, q);
  }

  /**
   * A refresh moves majors but leaves every cross where it was. So a coherent
   * table holding all crosses stops being coherent as soon as any of the three
   * refreshed majors actually moves.
   */
  lemma RefreshLeavesCrossesStale(m: Table, dEur: real, dJpy: real, dGbp: real)
    requires Positive(m) && Shaped(m) && CrossKeys <= m.Keys && Coherent(m)
    requires m["EURUSD"] + dEur != 0.0 && m["USDJPY"] + dJpy != 0.0 && m["GBPUSD"] + dGbp != 0.0
    requires dEur != 0.0 || dJpy != 0.0 || dGbp != 0.0
    ensures !Coherent(Perturbed(m, dEur, dJpy, dGbp))
  {
    assert "CADJPY" in m && "EURJPY" in m && "GBPJPY" in m;
    assert Agrees(m, "CADJPY") && Agrees(m, "EURJPY") && Agrees(m, "GBPJPY");
    ShapedMajors(m);
    MovedCrossDisagrees(m, dEur, dJpy, dGbp);
  }

  /** Which kept cross a refresh puts out of line: CADJPY when USDJPY moved, else EURJPY or GBPJPY. */
  lemma MovedCrossDisagrees(m: Table, dEur: real, dJpy: real, dGbp: real)
    requires MajorsLive(m) && NoInverseMajors(m)
    requires Has(m, "CADJPY") && Has(m, "EURJPY") && Has(m, "GBPJPY")
    requires Agrees(m, "CADJPY") && Agrees(m, "EURJPY") && Agrees(m, "GBPJPY")
    requires m["EURUSD"] + dEur != 0.0 && m["USDJPY"] + dJpy != 0.0 && m["GBPUSD"] + dGbp != 0.0
    ensures dJpy != 0.0 ==> !Agrees(Perturbed(m, dEur, dJpy, dGbp), "CADJPY")
    ensures dJpy == 0.0 && dEur != 0.0 ==> !Agrees(Perturbed(m, dEur, dJpy, dGbp), "EURJPY")
    ensures dJpy == 0.0 && dGbp != 0.0 ==> !Agrees(Perturbed(m, dEur, dJpy, dGbp), "GBPJPY")
  {
    var p := Perturbed(m, dEur, dJpy, dGbp);
    PerturbedKeepsMajorsLive(m, dEur, dJpy, dGbp);
    CrossKeyNames();
    MajorKeyNames();
    if dJpy != 0.0 {
      YenMoveBreaksCadJpy(m, p);
    } else {
      if dEur != 0.0 {
        BaseMoveBreaksYenCross(m, p, "EUR");
      }
      if dGbp != 0.0 {
        BaseMoveBreaksYenCross(m, p, "GBP");
      }
    }
  }

  /** A refresh that keeps the three moved majors non-zero keeps the majors live and touches nothing else. */
  lemma PerturbedKeepsMajorsLive(m: Table, dEur: real, dJpy: real, dGbp: real)
    requires MajorsLive(m) && NoInverseMajors(m)
    requires m["EURUSD"] + dEur != 0.0 && m["USDJPY"] + dJpy != 0.0 && m["GBPUSD"] + dGbp != 0.0
    ensures MajorsLive(Perturbed(m, dEur, dJpy, dGbp)) && NoInverseMajors(Perturbed(m, dEur, dJpy, dGbp))
    ensures forall k | k in m && k != "EURUSD" && k != "USDJPY" && k != "GBPUSD" :: Perturbed(m, dEur, dJpy, dGbp)[k] == m[k]
  {
  }

  /** Moving USDJPY while USDCAD stays puts a kept CADJPY out of line. */
  lemma YenMoveBreaksCadJpy(m: Table, p: Table)
    requires MajorsLive(m) && NoInverseMajors(m) && MajorsLive(p) && NoInverseMajors(p)
    requires Has(m, "CADJPY") && Agrees(m, "CADJPY") && "CADJPY" in p && p["CADJPY"] == m["CADJPY"]
    requires p["USDCAD"] == m["USDCAD"] && p["USDJPY"] != m["USDJPY"]
    ensures !Agrees(p, "CADJPY")
  {
    CrossKeyNames();
    MajorsQuoteEveryCode(m);
    MajorsQuoteEveryCode(p);
    ReversedQuotientFormulas(m);
    ReversedQuotientFormulas(p);
    assert m["USDJPY"] / m["USDCAD"] != p["USDJPY"] / p["USDCAD"];
    StaleCross(m, p, "CAD", "JPY");
  }

  /** Moving an XXXUSD major while USDJPY stays puts a kept XXXJPY out of line. */
  lemma BaseMoveBreaksYenCross(m: Table, p: Table, c: string)
    requires |c| == 3 && c != "USD"
    requires Has(m, c + "USD") && Has(p, c + "USD") && p[c + "USD"] != m[c + "USD"]
    requires Has(m, "USDJPY") && Has(p, "USDJPY") && p["USDJPY"] == m["USDJPY"]
    requires !Has(m, "JPYUSD") && !Has(p, "JPYUSD")
    requires Has(m, c + "JPY") && Agrees(m, c + "JPY") && c + "JPY" in p && p[c + "JPY"] == m[c + "JPY"]
    ensures !Agrees(p, c + "JPY")
  {
    MajorKeyNames();
    TriangulatedOfBaseAndQuote(m, c, "JPY");
    TriangulatedOfBaseAndQuote(p, c, "JPY");
    var y := m["USDJPY"];
    assert (m[c + "USD"] - p[c + "USD"]) * y != 0.0;
    StaleCross(m, p, c, "JPY");
  }

  /** Deriving the crosses of a positive, well-shaped table gives a positive, well-shaped, coherent table. */
  lemma RederivedValid(m: Table)
    requires Positive(m) && Shaped(m)
    ensures Positive(Rederived(m)) && Shaped(Rederived(m)) && Coherent(Rederived(m))
  {
    ShapedMajors(m);
    RederivedPositive(m);
    RederivedShaped(m);
    RederivedCoherent(m);
  }

  /** A refresh that keeps the three moved majors positive keeps the table positive and its keys as they were. */
  lemma PerturbedValid(m: Table, dEur: real, dJpy: real, dGbp: real)
    requires Positive(m) && Shaped(m)
    requires m["EURUSD"] + dEur > 0.0 && m["USDJPY"] + dJpy > 0.0 && m["GBPUSD"] + dGbp > 0.0
    ensures Positive(Perturbed(m, dEur, dJpy, dGbp)) && Shaped(Perturbed(m, dEur, dJpy, dGbp))
  {
    var p := m["EURUSD" := m["EURUSD"] + dEur];
    StorePositive(m, "EURUSD", m["EURUSD"] + dEur);
    StorePositive(p, "USDJPY", m["USDJPY"] + dJpy);
    StorePositive(p["USDJPY" := m["USDJPY"] + dJpy], "GBPUSD", m["GBPUSD"] + dGbp);
  }

  /** The derivation written out, for use where the solver does not unfold it by itself. */
  lemma RederivedUnfold(m: Table)
    requires MajorsLive(m)
    ensures Rederived(m) == m
      ["EURGBP" := m["EURUSD"] / m["GBPUSD"]]
      ["EURJPY" := m["EURUSD"] * m["USDJPY"]]
      ["GBPJPY" := m["GBPUSD"] * m["USDJPY"]]
      ["AUDCAD" := m["AUDUSD"] * m["USDCAD"]]
      ["AUDJPY" := m["AUDUSD"] * m["USDJPY"]]
      ["CADJPY" := m["USDJPY"] / m["USDCAD"]]
      ["NZDCAD" := m["NZDUSD"] * m["USDCAD"]]
      ["NZDJPY" := m["NZDUSD"] * m["USDJPY"]]
      ["CADCHF" := m["USDCHF"] / m["USDCAD"]]
      ["EURCHF" := m["EURUSD"] * m["USDCHF"]]
      ["AUDNZD" := m["AUDUSD"] / m["NZDUSD"]]
      ["CHFJPY" := m["USDJPY"] / m["USDCHF"]]
  {
  }

  class RateTable {
    var prices: Table

    ghost predicate Valid()
      reads this
    {
      Positive(prices) && Shaped(prices)
    }

    constructor ()
      ensures Valid() && prices == Seed()
    {
      prices := Seed();
    }

    method Rederive()
      requires Valid()
      modifies this
      ensures Valid() && Coherent(prices)
      ensures prices == Rederived(old(prices))
    {
      var t := prices;
      ShapedMajors(t);
      RederivedUnfold(t);
      RederivedValid(t);
      prices := prices["EURGBP" := t["EURUSD"] / t["GBPUSD"]];
      prices := prices["EURJPY" := t["EURUSD"] * t["USDJPY"]];
      prices := prices["GBPJPY" := t["GBPUSD"] * t["USDJPY"]];
      prices := prices["AUDCAD" := t["AUDUSD"] * t["USDCAD"]];
      prices := prices["AUDJPY" := t["AUDUSD"] * t["USDJPY"]];
      prices := prices["CADJPY" := t["USDJPY"] / t["USDCAD"]];
      prices := prices["NZDCAD" := t["NZDUSD"] * t["USDCAD"]];
      prices := prices["NZDJPY" := t["NZDUSD"] * t["USDJPY"]];
      prices := prices["CADCHF" := t["USDCHF"] / t["USDCAD"]];
      prices := prices["EURCHF" := t["EURUSD"] * t["USDCHF"]];
      prices := prices["AUDNZD" := t["AUDUSD"] / t["NZDUSD"]];
      prices := prices["CHFJPY" := t["USDJPY"] / t["USDCHF"]];
    }

    method Refresh(dEur: real, dJpy: real, dGbp: real)
      requires Valid()
      requires -0.0005 <= dEur < 0.0005 && -0.05 <= dJpy < 0.05 && -0.0005 <= dGbp < 0.0005
      requires prices["EURUSD"] + dEur > 0.0 && prices["USDJPY"] + dJpy > 0.0 && prices["GBPUSD"] + dGbp > 0.0
      modifies this
      ensures Valid()
      ensures prices == Perturbed(old(prices), dEur, dJpy, dGbp)
    {
      var t := prices;
      PerturbedValid(t, dEur, dJpy, dGbp);
      prices := prices["EURUSD" := t["EURUSD"] + dEur];
      prices := prices["USDJPY" := t["USDJPY"] + dJpy];
      prices := prices["GBPUSD" := t["GBPUSD"] + dGbp];
    }

    method Tick(dEur: real, dJpy: real, dGbp: real)
      requires Valid()
      requires -0.0005 <= dEur < 0.0005 && -0.05 <= dJpy < 0.05 && -0.0005 <= dGbp < 0.0005
      requires prices["EURUSD"] + dEur > 0.0 && prices["USDJPY"] + dJpy > 0.0 && prices["GBPUSD"] + dGbp > 0.0
      modifies this
      ensures Valid() && Coherent(prices)
      ensures prices == Rederived(Perturbed(old(prices), dEur, dJpy, dGbp))
    {
      Refresh(dEur, dJpy, dGbp);
      Rederive();
    }
  }
}
