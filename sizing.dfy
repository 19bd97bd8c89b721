/**
 * The position-sizing calculation (`performCalculation` without its DOM
 * reads and writes): a validation gate on the user's inputs, then the money
 * at risk, the pip value of one standard lot, the lot size that loses exactly
 * the money at risk at the stop, and the loss and profit at the chosen
 * reward-to-risk ratio.
 */
module Sizing {
  import opened Rates
  import opened Converter
  import opened Pips

  /** The parts of a "risk:reward" ratio such as 1:2. */
  datatype RewardRisk = RewardRisk(risk: real, reward: real)

  /** What the user entered. */
  datatype Request = Request(
    balance: real,
    riskPercent: real,
    stopLossPips: real,
    pair: string,
    account: string,
    ratio: RewardRisk)

  /** Why a request is turned away, in the order the checks are made. */
  datatype Rejection = InvalidBalance | InvalidRiskPercent | InvalidStopLoss

  /** The figures shown for an accepted request, all in the account currency except the lot size. */
  datatype Position = Position(
    riskAmount: real,
    pipValuePerLot: real,
    lotSize: real,
    potentialLoss: real,
    potentialProfit: real)

  datatype Outcome = Rejected(reason: Rejection) | Sized(position: Position)

  /** The largest risk the form accepts, in percent of the balance. */
  const MaxRiskPercent: real := 10.0

  lemma DivideBack(r: real, d: real)
    requires d != 0.0
    ensures r / d * d == r
  {
  }

  lemma TimesRatio(r: real, reward: real, risk: real)
    requires risk != 0.0
    ensures r * (reward / risk) * risk == r * reward
  {
  }

  /**
   * What a sized position promises: it carries the risk amount and the pip
   * value of one lot; losing the stop distance on its lots loses exactly the
   * risk amount; the loss is the risk amount; and the profit stands to the
   * loss as the ratio's reward to its risk.
   */
  predicate Sizes(p: Position, riskAmount: real, pipValuePerLot: real, stopLossPips: real, ratio: RewardRisk)
  {
    && p.riskAmount == riskAmount && p.pipValuePerLot == pipValuePerLot
    && p.lotSize * (stopLossPips * pipValuePerLot) == riskAmount
    && p.potentialLoss == riskAmount
    && p.potentialProfit * ratio.risk == riskAmount * ratio.reward
  }

  /**
   * The sizing formulas for a money risk, the pip value of one lot, a stop
   * distance in pips and a reward-to-risk ratio.
   */
  function Size(riskAmount: real, pipValuePerLot: real, stopLossPips: real, ratio: RewardRisk): (p: Position)
    requires stopLossPips != 0.0 && pipValuePerLot != 0.0 && ratio.risk != 0.0
    ensures Sizes(p, riskAmount, pipValuePerLot, stopLossPips, ratio)
  {
    var perLotLoss := stopLossPips * pipValuePerLot;
    NonZeroProduct(stopLossPips, pipValuePerLot);
    DivideBack(riskAmount, perLotLoss);
    TimesRatio(riskAmount, ratio.reward, ratio.risk);
    Position(riskAmount, pipValuePerLot, riskAmount / perLotLoss, riskAmount,
      riskAmount * (ratio.reward / ratio.risk))
  }

  /** Whether the inputs pass every check of the form. */
  predicate Acceptable(req: Request)
  {
    req.balance > 0.0 && 0.0 < req.riskPercent <= MaxRiskPercent && req.stopLossPips > 0.0
  }

  /** The money at risk: the given percentage of the balance, never more than a tenth of it. */
  function RiskAmount(balance: real, riskPercent: real): (r: real)
    requires balance > 0.0 && 0.0 < riskPercent <= MaxRiskPercent
    ensures 0.0 < r <= balance / 10.0
    ensures r * 100.0 == balance * riskPercent
  {
    balance * (riskPercent / 100.0)
  }

  /**
   * The calculation for one request over a snapshot of the rate table: the
   * first failing check rejects it before any arithmetic; otherwise the
   * position is sized from the pip value of one standard lot.
   */
  function Calculate(m: Table, req: Request): (o: Outcome)
    requires req.ratio.risk != 0.0
    ensures o.Sized? <==> Acceptable(req)
    ensures o == Rejected(InvalidBalance) <==> req.balance <= 0.0
    ensures o == Rejected(InvalidRiskPercent) <==>
      req.balance > 0.0 && (req.riskPercent <= 0.0 || req.riskPercent > MaxRiskPercent)
    ensures o == Rejected(InvalidStopLoss) <==>
      req.balance > 0.0 && 0.0 < req.riskPercent <= MaxRiskPercent && req.stopLossPips <= 0.0
    ensures o.Sized? ==>
      Sizes(o.position, RiskAmount(req.balance, req.riskPercent), PipValue(m, req.pair, req.account, 1.0),
        req.stopLossPips, req.ratio)
  {
    if req.balance <= 0.0 then Rejected(InvalidBalance)
    else if req.riskPercent <= 0.0 || req.riskPercent > MaxRiskPercent then Rejected(InvalidRiskPercent)
    else if req.stopLossPips <= 0.0 then Rejected(InvalidStopLoss)
    else
      var riskAmount := RiskAmount(req.balance, req.riskPercent);
      var pipValuePerLot := PipValue(m, req.pair, req.account, 1.0);
      PipValueNonZero(m, req.pair, req.account, 1.0);
      Sized(Size(riskAmount, pipValuePerLot, req.stopLossPips, req.ratio))
  }

  // ----- Properties of the calculation -----

  /** On a positive table an accepted request is sized to a positive number of lots. */
  lemma SizedLotPositive(m: Table, req: Request)
    requires Positive(m) && req.ratio.risk != 0.0 && Acceptable(req)
    ensures Calculate(m, req).Sized? && Calculate(m, req).position.lotSize > 0.0
  {
    var o := Calculate(m, req);
    var r := RiskAmount(req.balance, req.riskPercent);
    var v := PipValue(m, req.pair, req.account, 1.0);
    PipValuePositive(m, req.pair, req.account, 1.0);
    PositiveLots(o.position, r, v, req.stopLossPips, req.ratio);
  }

  /** Positive money at risk, stop distance and pip value make a positive number of lots. */
  lemma PositiveLots(p: Position, riskAmount: real, pipValuePerLot: real, stopLossPips: real, ratio: RewardRisk)
    requires Sizes(p, riskAmount, pipValuePerLot, stopLossPips, ratio)
    requires riskAmount > 0.0 && stopLossPips > 0.0 && pipValuePerLot > 0.0
    ensures p.lotSize > 0.0
  {
    assert stopLossPips * pipValuePerLot > 0.0;
  }

  /**
   * A USD account of 10000 risking 1% on EURUSD with a 50-pip stop at 1:2:
   * 100 dollars at risk, 10 dollars a pip per lot, 0.2 lots, 200 dollars of
   * potential profit, whatever the rate table holds.
   */
  lemma EurUsdExample(m: Table)
    ensures Calculate(m, Request(10000.0, 1.0, 50.0, "EURUSD", "USD", RewardRisk(1.0, 2.0))) ==
      Sized(Position(100.0, 10.0, 0.2, 100.0, 200.0))
  {
    EurUsdPipInUsd(m);
  }
}
