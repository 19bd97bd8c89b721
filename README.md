# Forex position sizer: rate table, converter, pip value and position sizing

This project models the calculation engine of a browser-based forex position-size
calculator (`app.js`) and proves properties of it. The engine has four parts.

- **The rate store** (`rates.dfy`, module `Rates`). `state.livePrices` is a table from a
  six-letter pair symbol XXXYYY to the number of YYY units that one XXX unit buys.
  - It is seeded with seven USD majors.
  - `updateLivePrices` moves EURUSD, USDJPY and GBPUSD by small deltas.
  - `initializeCrossPairs` writes twelve cross rates, each a product or quotient of two
    majors.
  - The table is the class `Rates.RateTable`, whose field `prices` the methods
    `Refresh` and `Rederive` reassign.
  - `Tick` is a refresh followed by a re-derivation.
- **The converter** (`converter.dfy`, module `Converter`). `convertToAccountCurrency` is
  the function `Convert`. It is a prioritised lookup chain:
  1. identity;
  2. the direct pair;
  3. the inverse pair;
  4. two legs through USD;
  5. a silent 1:1 fallback.

  A table entry counts only when it is present and non-zero (`Rates.Has`), as
  JavaScript truthiness has it.
- **The pip value** (`pips.dfy`, module `Pips`). `getPipValue` is the function `PipValue`:
  - gold has its own fixed value;
  - the quote currency is characters 3 to 6 of the pair;
  - the pip is 0.01 for a JPY quote and 0.0001 otherwise;
  - a standard lot is 100000 units;
  - the result is converted to the account currency.
- **Position sizing** (`sizing.dfy`, module `Sizing`). This is the arithmetic of
  `performCalculation`, without its DOM reads and writes. Its validation gate yields a
  `Rejected` outcome. Otherwise it yields a `Sized` position holding:
  - the risk amount;
  - the pip value per lot;
  - the lot size;
  - the potential loss and profit.

Two reference definitions carry the main theorems.

- **The first leg's valuation.** `Rates.UsdValue` is the factor by which the converter's
  first leg takes one unit of a currency into USD. It reads the table in the same order
  as that leg: the XXXUSD rate, else the inverse of USDXXX, else 1.
- **Coherence.** `Rates.Coherent` says that the table has no arbitrage between the
  currencies it can reach. Every usable entry with a six-letter key whose two halves
  are USD or have a usable USD leg equals the ratio of the USD values of those halves.

The main converter theorem is `Converter.ConvertMatchesUsdValues`. On a coherent table,
between three-letter currencies that are USD or have a usable USD leg, the whole lookup chain
computes `amount * UsdValue(from) / UsdValue(to)`, whichever branch it takes. A currency
without a USD leg is outside this theorem: converting to one falls back to returning the
amount unchanged (`Converter.MissingTargetLegReturnsInput`). Round trips, chained
conversions and the agreement of the derived crosses with routing through USD follow
from the theorem.

All quantities are exact reals.

The comment above the second timer (app.js:512) says the cross pairs are updated when
the live prices update. The code does not do that: `updateLivePrices` does not touch the
crosses, and app.js:513 re-derives them on a 30-second timer of its own. The model follows
the code, so `Refresh` alone leaves the crosses as they were. `Tick` is the behaviour
that comment describes: a refresh followed at once by a re-derivation. The gap between
the two is the finding below.

## Model

| member | source | states |
|---|---|---|
| Rates.Seed | app.js:10-18 | The seeded table holds exactly the seven majors, all with positive rates |
| Rates.SeedCoherent | app.js:10-18 | The seed has every major usable and is coherent (no arbitrage between any two of its entries) |
| Rates.MajorsQuoteEveryCode | app.js:10-18 | With the seven majors usable, every offered currency has a USD leg, so the converter's 1:1 fallback is never reached for offered codes |
| Rates.MajorUsdValues | app.js:10-18 | With the majors usable and no inverse majors, the USD value of each currency is its XXXUSD rate or the inverse of its USDXXX rate |
| Rates.UsdValue | app.js:271-283 | A currency's USD value is never zero (USD is 1; an unquoted currency passes through as 1) |
| Rates.Triangulated | app.js:493-507 | The rate between two currencies through USD is never zero |
| Rates.TriangulatedPositive | app.js:493-507 | On a positive table, USD values and triangulated rates are positive |
| Rates.QuotientFormulas | app.js:495-505 | The USD-routed EURGBP and AUDNZD rates are EURUSD/GBPUSD and AUDUSD/NZDUSD |
| Rates.YenProductFormulas | app.js:496-502 | The USD-routed EURJPY, GBPJPY, AUDJPY and NZDJPY rates are the base major times USDJPY |
| Rates.OtherProductFormulas | app.js:498-504 | The USD-routed AUDCAD, NZDCAD and EURCHF rates are the base major times the quote major |
| Rates.ReversedQuotientFormulas | app.js:500-506 | The USD-routed CADJPY, CADCHF and CHFJPY rates are a quotient of two USDXXX majors |
| Rates.TriangulatedOfTwoBases | app.js:495 | Between two XXXUSD currencies, the USD-routed rate is the quotient of their majors |
| Rates.TriangulatedOfBaseAndQuote | app.js:496 | Between an XXXUSD base and a USDYYY quote, the USD-routed rate is the product of their majors |
| Rates.TriangulatedOfTwoQuotes | app.js:500 | Between two USDXXX currencies, the USD-routed rate is the quotient of their majors, reversed |
| Rates.RederivedQuotients | app.js:495-505 | After derivation, EURGBP and AUDNZD equal their USD-routed rates |
| Rates.RederivedYenProducts | app.js:496-502 | After derivation, the four XXXJPY products equal their USD-routed rates |
| Rates.RederivedOtherProducts | app.js:498-504 | After derivation, AUDCAD, NZDCAD and EURCHF equal their USD-routed rates |
| Rates.RederivedReversedQuotients | app.js:500-506 | After derivation, CADJPY, CADCHF and CHFJPY equal their USD-routed rates |
| Rates.Rederived | app.js:493-507 | The table after the crosses are derived. It requires the seven majors to be usable. Its lemmas prove the twelve formulas, that every other entry is kept, and that the result is positive and coherent |
| Rates.RederivedKeys | app.js:493-507 | Derivation adds the twelve cross keys and no other key |
| Rates.RederivedKeepsOthers | app.js:493-507 | Derivation leaves every entry that is not a cross unchanged, the majors included |
| Rates.RederivedKeepsMajors | app.js:493-507 | Derivation keeps the majors usable and unshadowed |
| Rates.RederivedKeepsUsdValue | app.js:493-507 | Derivation changes neither which currencies are quoted nor their USD values |
| Rates.RederivedPositive | app.js:493-507 | Derivation from a positive table gives a positive table |
| Rates.RederivedShaped | app.js:493-507 | Derivation keeps the table within the majors and crosses |
| Rates.DerivedCrossesAgree | app.js:495-506 | Every one of the twelve derived crosses agrees with the rate through USD |
| Rates.MajorsAgree | app.js:10-18 | Every major agrees with the USD values it defines |
| Rates.RederivedCoherent | app.js:493-507 | After derivation, the table is coherent |
| Rates.RederivedValid | app.js:493-507 | Derivation keeps the table positive and shaped and makes it coherent |
| Rates.MajorsOnlyCoherent | app.js:10-18 | A table of just the usable majors is coherent |
| Rates.Perturbed | app.js:189-191 | The table after one refresh. Its lemmas prove that the majors stay usable, that only the three moved majors change, and that the crosses go stale |
| Rates.PerturbedKeepsMajorsLive | app.js:189-191 | A refresh keeps the majors usable and changes no entry other than the three moved majors |
| Rates.PerturbedValid | app.js:189-191 | A refresh that keeps the three moved majors positive keeps the table positive and shaped |
| Rates.StaleCross | app.js:189-191 | A cross that agreed stops agreeing once its USD-routed rate moves while the stored cross does not |
| Rates.MovedCrossDisagrees | app.js:189-191 | A yen move leaves CADJPY stale; otherwise a EUR or GBP move leaves EURJPY or GBPJPY stale |
| Rates.YenMoveBreaksCadJpy | app.js:190 | Moving USDJPY alone makes the stored CADJPY disagree with the rate through USD |
| Rates.BaseMoveBreaksYenCross | app.js:189-191 | Moving an XXXUSD major alone makes the stored XXXJPY cross disagree |
| Rates.RefreshLeavesCrossesStale | app.js:180-197 | From a coherent table holding the crosses, any non-zero refresh leaves the table incoherent |
| Rates.RateTable.constructor | app.js:10-18 | The store starts as the seed |
| Rates.RateTable.Rederive | app.js:493-507 | The new table is the derived table of the old one, and it is coherent |
| Rates.RateTable.Refresh | app.js:180-197 | The new table is the old one with EURUSD, USDJPY and GBPUSD moved by the deltas |
| Rates.RateTable.Tick | app.js:180-197 | A refresh followed by derivation leaves the table coherent |
| Converter.ToUsd | app.js:271-283 | The first leg multiplies the amount by the source currency's USD value |
| Converter.ViaUsd | app.js:270-300 | The two legs through USD and the 1:1 fallback. `ThroughUsd`, `UnquotedSourceTreatedAsUsd` and `MissingTargetLegReturnsInput` fix each leg's result, `ViaUsdScales` proves it linear in the amount, and `ViaUsdNonZero` proves a non-zero amount never becomes zero |
| Converter.Convert | app.js:255-301 | Converting to the same currency returns the amount; zero converts to zero |
| Converter.AtUsdValuesRoundTrip | app.js:255-301 | Routing through USD values and back returns the amount |
| Converter.AtUsdValuesChained | app.js:255-301 | Routing a to b, then b to c, through USD values equals routing a to c |
| Converter.DirectPairFirst | app.js:259-262 | With a usable direct pair, the result is amount times its rate, whatever else the table holds |
| Converter.InversePairNext | app.js:264-268 | Without a usable direct pair, a usable inverse pair gives amount divided by its rate, whatever else the table holds |
| Converter.ThroughUsd | app.js:270-297 | With neither pair usable, the result is the first leg alone for USD, else the first leg times USDto, else the first leg divided by toUSD |
| Converter.UnquotedSourceTreatedAsUsd | app.js:274-283 | A source currency without a USD leg enters the second leg unconverted, as if it were USD |
| Converter.MissingTargetLegReturnsInput | app.js:299-300 | A target currency without a USD leg returns the original amount, not the USD intermediate |
| Converter.NoSecondLeg | app.js:285-288 | For a USD target, the route through USD returns the first leg |
| Converter.CoherentPair | app.js:259-268 | In a coherent table, a usable pair between quoted currencies equals the ratio of their USD values |
| Converter.DirectMatchesUsdValues | app.js:259-262 | On a coherent table, the direct-pair branch computes the USD-routed conversion |
| Converter.InverseMatchesUsdValues | app.js:264-268 | On a coherent table, the inverse-pair branch computes the USD-routed conversion |
| Converter.LegsMatchUsdValues | app.js:270-297 | On a coherent table, between quoted currencies, the two-leg branch computes the USD-routed conversion |
| Converter.ConvertMatchesUsdValues | app.js:255-301 | On a coherent table, conversion between quoted currencies equals amount times USD value of the source over USD value of the target, whichever branch is taken |
| Converter.RoundTrip | app.js:255-301 | On a coherent table, converting there and back returns the amount |
| Converter.ChainedConversion | app.js:255-301 | On a coherent table, converting a to b and then b to c equals converting a to c |
| Converter.ViaUsdScales | app.js:270-300 | The route through USD is linear in the amount |
| Converter.ViaUsdScalesToUsd | app.js:285-288 | The route to USD is linear in the amount |
| Converter.ViaUsdScalesTimes | app.js:290-294 | The route through a USDto entry is linear in the amount |
| Converter.ViaUsdScalesOver | app.js:290-297 | The route through a toUSD entry is linear in the amount |
| Converter.IdentityScales | app.js:256 | The identity branch is linear in the amount |
| Converter.DirectScales | app.js:259-262 | The direct-pair branch is linear in the amount |
| Converter.InverseScales | app.js:264-268 | The inverse-pair branch is linear in the amount |
| Converter.LegsScale | app.js:270-300 | The two-leg branch is linear in the amount |
| Converter.ConvertScales | app.js:255-301 | Converting k times an amount gives k times the converted amount, on any table |
| Converter.ConvertPositive | app.js:255-301 | On a positive table, a positive amount converts to a positive amount |
| Converter.ViaUsdNonZero | app.js:270-300 | The route through USD never turns a non-zero amount into zero |
| Converter.ConvertNonZero | app.js:255-301 | Conversion never turns a non-zero amount into zero, because zero entries are skipped |
| Converter.OfferedCodesConvertExactly | app.js:255-301 | With usable majors and a coherent table, any two offered currencies convert at the ratio of their USD values |
| Converter.EurToGbpThroughUsd | app.js:270-297 | With only the majors stored, EUR to GBP is amount times EURUSD over GBPUSD |
| Converter.EurToGbpMatchesCross | app.js:259-262 | After derivation, EUR to GBP goes through the stored EURGBP cross and gives that same amount |
| Converter.RederiveKeepsConversions | app.js:493-507 | After derivation, every conversion between offered currencies equals the USD-routed conversion of the table before it |
| Pips.QuoteOf | app.js:237 | The quote currency is at most three characters; for a pair of six or more it is the characters 3 to 6 |
| Pips.QuoteOfPair | app.js:237 | The quote currency of a pair made of two three-letter codes is its second code |
| Pips.PipSize | app.js:241 | The pip is 0.01 exactly when the quote is JPY, and 0.0001 otherwise |
| Pips.QuoteValue | app.js:227-244 | The pip value in the quote currency: 100000 times the lot size times the pip size (`PipValueInQuoteCurrency`), and linear in the lot size (`QuoteValueLinear`) |
| Pips.QuoteValueLinear | app.js:227-244 | The pip value in the quote currency scales with the lot size |
| Pips.PipValue | app.js:221-253 | getPipValue. The lemmas below prove each branch: gold is one USD converted to the account currency whatever the lot size; the quote value is returned unconverted when the account currency is the quote; otherwise it is converted from the quote currency. On a coherent table it equals the quote value at the USD-value ratio, and it is positive on a positive table |
| Pips.GoldIgnoresLotSize | app.js:230-234 | Gold's pip value is one USD converted to the account currency, the same for every lot size, and exactly 1 for a USD account |
| Pips.PipValueInQuoteCurrency | app.js:247-249 | When the account currency is the quote currency, the pip value is 100000 times the lot size times the pip size, unconverted |
| Pips.PipValueConverted | app.js:251-252 | Otherwise the pip value is the quote-currency value converted from the quote to the account currency |
| Pips.PipValueNonZero | app.js:221-253 | A non-zero lot size never gives a zero pip value |
| Pips.PipValuePositive | app.js:221-253 | On a positive table, a positive lot size gives a positive pip value |
| Pips.PipValueAtUsdValues | app.js:221-253 | On a coherent table, a pair's pip value is its quote-currency value routed through USD values |
| Pips.EurUsdPipInUsd | app.js:221-253 | One standard lot of EURUSD has a pip worth 10 USD |
| Pips.UsdJpyPipInJpy | app.js:221-253 | One standard lot of USDJPY has a pip worth 1000 JPY |
| Pips.UsdJpyPipInUsd | app.js:221-253 | One standard lot of USDJPY has a pip worth 1000 divided by USDJPY in USD |
| Sizing.RiskAmount | app.js:353 | The risk amount is riskPercent percent of the balance, positive and at most a tenth of the balance |
| Sizing.Size | app.js:353-373 | The lot size loses exactly the risk amount over the stop; the loss is the risk amount; the profit is the risk amount at the reward-to-risk ratio |
| Sizing.Calculate | app.js:337-373 | A request is sized exactly when balance, risk percent and stop are acceptable; each rejection is reported in the source's check order; a sized position uses the pip value of one lot and the Size relations |
| Sizing.PositiveLots | app.js:360 | A position sized from positive money at risk, stop distance and pip value has a positive number of lots |
| Sizing.SizedLotPositive | app.js:337-373 | On a positive table, an acceptable request gives a positive lot size |
| Sizing.EurUsdExample | app.js:337-373 | 10000 USD at 1% risk with a 50-pip stop on EURUSD and a 1:2 ratio gives risk 100, pip value 10, 0.2 lots, loss 100 and profit 200 |

## Left out

- The DOM and all presentation are not modelled:
  - event wiring, theme, tooltips, keyboard shortcuts, reset and clipboard copy;
  - the price animation and result rendering;
  - `toFixed` rounding and currency symbols.
- `alert` and the early `return` of a rejected calculation become the `Rejected` outcome.
- Timers are not modelled. The two `setInterval` calls become the separately callable
  methods `Refresh` and `Rederive`.
- `Math.random` is not modelled. The three random deltas of a refresh are parameters.
- Parsing of the "risk:reward" string and of the form fields is not modelled. The request
  carries the numbers directly.
- NaN, empty inputs and IEEE-754 rounding are not modelled. Every quantity is an exact
  real, so the cross formulas hold exactly.
- Rates.RateTable.Refresh: requires each delta within the range `(Math.random() - 0.5) * k`
  can produce, and requires the three moved majors to stay positive. The source checks
  neither.
- Rates.Rederived: requires the seven majors to be usable. The source would divide by
  an undefined or zero entry and store NaN or Infinity, which the exact-real model cannot
  represent.
- Sizing.Calculate: requires a non-zero risk part in the reward-to-risk ratio. The source
  never checks it and would display an infinite or NaN profit.
- Pip-value linearity across the conversion to the account currency is not proved as one
  lemma. `Pips.QuoteValueLinear` and `Converter.ConvertScales` state its two halves.

## Findings

| source | as written | input that shows it | evidently intended | confidence | as-written member | corrected member |
|---|---|---|---|---|---|---|
| app.js:180-197 | `updateLivePrices` moves three majors but does not re-derive the crosses. The crosses are derived once when the script loads (app.js:510), the first refresh runs at DOMContentLoaded (app.js:46), and after that the crosses are rewritten only by an independent 30-second timer (app.js:513), despite the comment that they update "when live prices update" | Seed, derive the crosses, then a refresh with a USDJPY delta of 0.01: CADJPY still holds the old USDJPY/USDCAD while USDJPY has moved, so converting CAD to JPY via CADJPY and via USD disagree | Derive the crosses right after every refresh, so the table stays free of arbitrage | not executed; high: the crosses are stale from the first refresh on, whatever the timers' phase | Rates.RefreshLeavesCrossesStale | Rates.RateTable.Tick |
