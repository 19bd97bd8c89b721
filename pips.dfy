/**
 * The pip value calculator (`getPipValue`): the money value of a one-pip
 * move for a position of `lotSize` standard lots, in the account currency.
 */
module Pips {
  import opened Rates
  import opened Converter

  /** Units of the base currency in one standard lot. */
  const StandardLot: real := 100000.0

  /** The one instrument handled apart from the currency pairs. */
  const Gold: string := "XAUUSD"

  function Min(a: int, b: int): int
  {
    if a <= b then a else b
  }

  /**
   * The quote currency of a pair symbol: the characters from index 3 up to
   * index 6, both indices clamped to the symbol's length as JavaScript's
   * `substring` clamps them.
   */
  function QuoteOf(pair: string): (q: string)
    ensures |q| <= 3
    ensures |pair| >= 6 ==> |q| == 3 && pair == pair[..3] + q + pair[6..]
    ensures |pair| <= 3 ==> q == ""
  {
    pair[Min(3, |pair|)..Min(6, |pair|)]
  }

  /** The size of one pip in the quote currency: two decimals for yen, four otherwise. */
  function PipSize(quote: string): (s: real)
    ensures s > 0.0
    ensures s == 0.01 <==> quote == "JPY"
    ensures s != 0.01 ==> s == 0.0001
  {
    if quote == "JPY" then 0.01 else 0.0001
  }

  /** The value of one pip on `lotSize` standard lots, in the pair's quote currency. */
  function QuoteValue(pair: string, lotSize: real): real
  {
    StandardLot * lotSize * PipSize(QuoteOf(pair))
  }

  lemma Scaled(lotSize: real, s: real)
    ensures StandardLot * lotSize * s == lotSize * (StandardLot * 1.0 * s)
  {
  }

  /** The quote value is proportional to the lot size. */
  lemma QuoteValueLinear(pair: string, lotSize: real)
    ensures QuoteValue(pair, lotSize) == lotSize * QuoteValue(pair, 1.0)
  {
    Scaled(lotSize, PipSize(QuoteOf(pair)));
  }

  /**
   * The pip value in the account currency. Gold is worth one US dollar per
   * pip whatever the lot size; a currency pair is worth its quote value,
   * converted unless the quote already is the account currency.
   */
  function PipValue(m: Table, pair: string, account: string, lotSize: real): real
  {
    if pair == Gold then Convert(m, 1.0, "USD", account)
    else
      var quote := QuoteOf(pair);
      var inQuote := QuoteValue(pair, lotSize);
      if quote == account then inQuote
      else Convert(m, inQuote, quote, account)
  }

  // ----- Gold -----

  /** The gold pip is one US dollar converted to the account currency, and the lot size is ignored. */
  lemma GoldIgnoresLotSize(m: Table, account: string, lotSize: real)
    ensures PipValue(m, Gold, account, lotSize) == Convert(m, 1.0, "USD", account)
    ensures PipValue(m, Gold, account, lotSize) == PipValue(m, Gold, account, 1.0)
    ensures account == "USD" ==> PipValue(m, Gold, account, lotSize) == 1.0
  {
  }

  // ----- Currency pairs -----

  /** A six-letter pair is priced from its last three letters; gold is not a pair of that kind. */
  lemma QuoteOfPair(b: string, q: string)
    requires |b| == 3 && |q| == 3
    ensures QuoteOf(b + q) == q
  {
    assert (b + q)[3..6] == q;
  }

  /** A pair whose quote currency is the account currency is never converted. */
  lemma PipValueInQuoteCurrency(m: Table, pair: string, lotSize: real)
    requires pair != Gold
    ensures PipValue(m, pair, QuoteOf(pair), lotSize) == StandardLot * lotSize * PipSize(QuoteOf(pair))
  {
  }

  /** A pair whose quote is another currency is its quote value passed through the converter. */
  lemma PipValueConverted(m: Table, pair: string, account: string, lotSize: real)
    requires pair != Gold && QuoteOf(pair) != account
    ensures PipValue(m, pair, account, lotSize) == Convert(m, QuoteValue(pair, lotSize), QuoteOf(pair), account)
  {
  }

  /** The pip value of a non-zero position is never zero, so the sizing division is always defined. */
  lemma PipValueNonZero(m: Table, pair: string, account: string, lotSize: real)
    requires lotSize != 0.0
    ensures PipValue(m, pair, account, lotSize) != 0.0
  {
    if pair == Gold {
      ConvertNonZero(m, 1.0, "USD", account);
    } else {
      var inQuote := QuoteValue(pair, lotSize);
      NonZeroProduct(StandardLot * lotSize, PipSize(QuoteOf(pair)));
      ConvertNonZero(m, inQuote, QuoteOf(pair), account);
    }
  }

  /** On a positive table the pip value of a long position is positive. */
  lemma PipValuePositive(m: Table, pair: string, account: string, lotSize: real)
    requires Positive(m) && lotSize > 0.0
    ensures PipValue(m, pair, account, lotSize) > 0.0
  {
    if pair == Gold {
      ConvertPositive(m, 1.0, "USD", account);
    } else {
      var inQuote := QuoteValue(pair, lotSize);
      assert inQuote > 0.0;
      ConvertPositive(m, inQuote, QuoteOf(pair), account);
    }
  }

  /**
   * On a coherent table the pip value of a pair between quoted currencies is
   * its quote value at the reference rates through USD.
   */
  lemma PipValueAtUsdValues(m: Table, pair: string, account: string, lotSize: real)
    requires Coherent(m) && pair != Gold && |pair| == 6 && |account| == 3
    requires Quoted(m, QuoteOf(pair)) && Quoted(m, account)
    ensures PipValue(m, pair, account, lotSize) ==
      AtUsdValues(m, QuoteValue(pair, lotSize), QuoteOf(pair), account)
  {
    var quote := QuoteOf(pair);
    var inQuote := QuoteValue(pair, lotSize);
    if quote == account {
      Restore(inQuote, UsdValue(m, quote));
    } else {
      ConvertMatchesUsdValues(m, inQuote, quote, account);
    }
  }

  // ----- Worked values -----

  /** One lot of EURUSD on a USD account: ten dollars a pip, whatever the table holds. */
  lemma EurUsdPipInUsd(m: Table)
    ensures PipValue(m, "EURUSD", "USD", 1.0) == 10.0
  {
    QuoteOfPair("EUR", "USD");
    assert "EUR" + "USD" == "EURUSD";
  }

  /** One lot of USDJPY on a JPY account: a thousand yen a pip. */
  lemma UsdJpyPipInJpy(m: Table)
    ensures PipValue(m, "USDJPY", "JPY", 1.0) == 1000.0
  {
    QuoteOfPair("USD", "JPY");
    assert "USD" + "JPY" == "USDJPY";
  }

  /** One lot of USDJPY on a USD account: a thousand yen divided by the USDJPY rate. */
  lemma UsdJpyPipInUsd(m: Table)
    requires Has(m, "USDJPY") && !Has(m, "JPYUSD")
    ensures PipValue(m, "USDJPY", "USD", 1.0) == 1000.0 / m["USDJPY"]
  {
    QuoteOfPair("USD", "JPY");
    assert "USD" + "JPY" == "USDJPY";
    assert "JPY" + "USD" == "JPYUSD";
    assert QuoteValue("USDJPY", 1.0) == 1000.0;
    InversePairNext(m, m, 1000.0, "JPY", "USD");
  }
}
