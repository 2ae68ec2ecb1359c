/** The audit trail built in process_ticker: bracket labels re-derived by
    separate ladders, the sentiment breakdown, and the data-quality
    warnings. */
module Audit {
  import opened Common
  import opened Scorers

  /** A bracket name (its label) and the score of that tier. */
  datatype Bracket = Bracket(name: string, score: int)

  /** get_moat_bracket; its tier always carries calc_moat's score. */
  function MoatBracket(mc: real): (b: Bracket)
    ensures b.score == Moat(mc)
  {
    if mc >= 2_000_000_000_000.0 then Bracket("$2T+", 20)
    else if mc >= 1_000_000_000_000.0 then Bracket("$1T+", 19)
    else if mc >= 500_000_000_000.0 then Bracket("$500B+", 18)
    else if mc >= 200_000_000_000.0 then Bracket("$200B+", 17)
    else if mc >= 100_000_000_000.0 then Bracket("$100B+", 16)
    else if mc >= 50_000_000_000.0 then Bracket("$50B+", 14)
    else if mc >= 20_000_000_000.0 then Bracket("$20B+", 12)
    else if mc >= 10_000_000_000.0 then Bracket("$10B+", 10)
    else if mc >= 5_000_000_000.0 then Bracket("$5B+", 8)
    else if mc >= 1_000_000_000.0 then Bracket("$1B+", 6)
    else Bracket("<$1B", 4)
  }

  /** get_growth_bracket; its tier always carries calc_growth's score. */
  function GrowthBracket(epsGrowth: real): (b: Bracket)
    ensures b.score == Growth(epsGrowth)
  {
    var g := Clamp(epsGrowth, -50.0, 100.0);
    if g >= 50.0 then Bracket("≥50%", 20)
    else if g >= 35.0 then Bracket("35-50%", 18)
    else if g >= 25.0 then Bracket("25-35%", 16)
    else if g >= 15.0 then Bracket("15-25%", 14)
    else if g >= 10.0 then Bracket("10-15%", 12)
    else if g >= 5.0 then Bracket("5-10%", 10)
    else if g >= 0.0 then Bracket("0-5%", 8)
    else if g >= -10.0 then Bracket("-10-0%", 6)
    else if g >= -25.0 then Bracket("-25--10%", 4)
    else Bracket("<-25%", 2)
  }

  /** get_balance_bracket; its tier always carries calc_balance's score. */
  function BalanceBracket(debtEquity: Option<real>): (b: Bracket)
    ensures b.score == Balance(debtEquity)
    ensures b.name == "Unknown" <==> debtEquity.None? || debtEquity.value < 0.0
  {
    if debtEquity.None? || debtEquity.value < 0.0 then Bracket("Unknown", 10)
    else
      var de := debtEquity.value;
      if de < 0.1 then Bracket("<0.1", 20)
      else if de < 0.3 then Bracket("0.1-0.3", 18)
      else if de < 0.5 then Bracket("0.3-0.5", 16)
      else if de < 0.7 then Bracket("0.5-0.7", 14)
      else if de < 1.0 then Bracket("0.7-1.0", 12)
      else if de < 1.5 then Bracket("1.0-1.5", 10)
      else if de < 2.0 then Bracket("1.5-2.0", 8)
      else if de < 3.0 then Bracket("2.0-3.0", 6)
      else Bracket("≥3.0", 4)
  }

  /** get_valuation_bracket over an upside percentage. */
  function ValuationBracket(upside: real): (b: Bracket)
    ensures 4 <= b.score <= 20
    ensures b.score == 10 <==> 0.0 <= upside < 10.0
    ensures b.score == 4 <==> upside < -40.0
  {
    if upside >= 100.0 then Bracket("≥100% upside", 20)
    else if upside >= 60.0 then Bracket("60-100% upside", 18)
    else if upside >= 40.0 then Bracket("40-60% upside", 16)
    else if upside >= 20.0 then Bracket("20-40% upside", 14)
    else if upside >= 10.0 then Bracket("10-20% upside", 12)
    else if upside >= 0.0 then Bracket("0-10% upside", 10)
    else if upside >= -20.0 then Bracket("-20-0% upside", 8)
    else if upside >= -40.0 then Bracket("-40--20% upside", 6)
    else Bracket("<-40% upside", 4)
  }

  /** The audit bracket of process_ticker: the ladder over the unrounded
      upside computed from calc_graham_value, not over the displayed
      round(upside, 1). */
  function LiveValuationBracket(eps: real, price: real, epsGrowth: real): Bracket
  {
    ValuationBracket(Upside(GrahamValue(eps, epsGrowth), price))
  }

  /** With a positive EPS and price the audit bracket's tier carries
      calc_valuation's score: calc_valuation's inline Graham formula and
      upside agree with calc_graham_value and the unrounded upside. */
  lemma ValuationBracketAgrees(eps: real, price: real, epsGrowth: real)
    requires eps > 0.0 && price > 0.0
    ensures LiveValuationBracket(eps, price, epsGrowth).score == Valuation(eps, price, epsGrowth)
  {
    var g := Clamp(epsGrowth, 0.0, 15.0);
    assert GrahamValue(eps, epsGrowth) == eps * (8.5 + 2.0 * g);
  }

  /** The audit bracket and the score disagree exactly when EPS is not
      positive and the price is: the Graham value is then 0, the upside
      -100%, and the bracket "<-40% upside" (tier 4) is shown beside the
      "can't calculate" score 10. With a non-positive price the upside is 0
      and the "0-10% upside" tier happens to carry 10 as well. */
  lemma ValuationBracketAgreesIff(eps: real, price: real, epsGrowth: real)
    ensures LiveValuationBracket(eps, price, epsGrowth).score == Valuation(eps, price, epsGrowth)
        <==> !(eps <= 0.0 && price > 0.0)
    ensures eps <= 0.0 && price > 0.0 ==> LiveValuationBracket(eps, price, epsGrowth) == Bracket("<-40% upside", 4)
  {
    if eps > 0.0 && price > 0.0 {
      ValuationBracketAgrees(eps, price, epsGrowth);
    } else if price > 0.0 {
      assert (0.0 - price) / price == -1.0;
    }
  }

  /** The bracket reads the unrounded upside: an upside of -0.04% sits in
      the "-20-0% upside" tier although it is displayed as 0.0. */
  lemma BracketReadsUnroundedUpside()
    ensures Upside(99.96, 100.0) == -0.04
    ensures ValuationBracket(Upside(99.96, 100.0)) == Bracket("-20-0% upside", 8)
    ensures RoundTenth(-0.04) == 0.0
    ensures ValuationBracket(RoundTenth(-0.04)) == Bracket("0-10% upside", 10)
  {
    assert (-0.04 * 10.0).Floor == -1;
  }

  /** graham_calc of the valuation audit: the Graham formula written out a
      third time; it equals calc_graham_value. */
  function AuditGraham(eps: real, epsGrowth: real): (v: real)
    ensures v == GrahamValue(eps, epsGrowth)
  {
    var gCapped := Clamp(epsGrowth, 0.0, 15.0);
    if eps > 0.0 then eps * (8.5 + 2.0 * gCapped) else 0.0
  }

  /** The sentiment audit's "Base + Div + Tech + Growth" breakdown. */
  datatype Breakdown = Breakdown(base: int, dividend: int, tech: int, growth: int) {
    function Total(): int {
      base + dividend + tech + growth
    }
  }

  /** The breakdown, from nested conditional expressions separate from
      calc_sentiment; its total is always the sentiment score. */
  function SentimentBreakdown(divYield: real, sector: string, epsGrowth: real): (b: Breakdown)
    ensures b.Total() == SentimentScore(divYield, sector, epsGrowth)
    ensures b.dividend == DividendTerm(divYield) && b.tech == TechBonus(sector) && b.growth == MomentumTerm(epsGrowth)
  {
    var sentDiv := if divYield >= 4.0 then 5 else (if divYield >= 3.0 then 4 else (if divYield >= 2.0 then 3
                   else (if divYield >= 1.0 then 2 else (if divYield > 0.0 then 1 else 0))));
    var sentTech := if Text.IsTechSector(sector) then 2 else 0;
    var sentGrowth := if epsGrowth >= 25.0 then 3 else (if epsGrowth >= 15.0 then 2 else (if epsGrowth >= 5.0 then 1 else 0));
    Breakdown(8, sentDiv, sentTech, sentGrowth)
  }

  datatype FactorAudit = FactorAudit(bracket: string, score: int)
  datatype BalanceAudit = BalanceAudit(rawDebt: real, rawEquity: real, bracket: string, score: int)
  datatype ValuationAudit = ValuationAudit(grahamValue: real, upsidePct: real, bracket: string, score: int)
  /** breakdown is None for sample data, whose audit shows only "Sample". */
  datatype SentimentAudit = SentimentAudit(breakdown: Option<Breakdown>, score: int)

  /** The data-quality warnings of process_ticker and create_stock_from_sample. */
  datatype Warning =
    | DebtEquityZeroOrMissing
    | EpsZeroForLargeCap
    | MarketCapMissing
    | TotalDebtZero
    | MarketCapOutOfRange(marketCap: real, low: real, high: real)
    | UsingSampleData

  /** An expected market-cap range for a known ticker. */
  datatype CapRange = CapRange(low: real, high: real)

  datatype AuditRecord = AuditRecord(
    moat: FactorAudit,
    growth: FactorAudit,
    balance: BalanceAudit,
    valuation: ValuationAudit,
    sentiment: SentimentAudit,
    warnings: seq<Warning>)

  /** The expected-range rule: a wide tolerance of half the low end and
      twice the high end. */
  predicate OutsideExpected(marketCap: real, range: CapRange): (b: bool)
    ensures 0.0 <= range.low <= marketCap <= range.high ==> !b
    ensures 0.0 <= range.low && 0.0 <= range.high && b ==> marketCap < range.low || marketCap > range.high
  {
    marketCap < range.low * 0.5 || marketCap > range.high * 2.0
  }

  /** The one-warning list when the rule fires, else nothing. */
  function When(fires: bool, w: Warning): seq<Warning>
  {
    if fires then [w] else []
  }

  /** The warning list, in the order process_ticker appends it. */
  function WarningsOf(ticker: string, debtEquity: Option<real>, eps: real, marketCap: real,
                      totalDebt: real, totalEquity: real, expectedCaps: map<string, CapRange>): seq<Warning>
  {
    When(debtEquity.None? || debtEquity.value == 0.0, DebtEquityZeroOrMissing)
    + When(eps == 0.0 && marketCap > 50_000_000_000.0, EpsZeroForLargeCap)
    + When(marketCap == 0.0, MarketCapMissing)
    + When(totalDebt == 0.0 && totalEquity > 0.0, TotalDebtZero)
    + RangeWarning(ticker, marketCap, expectedCaps)
  }

  /** The expected-range warning, for known tickers only. */
  function RangeWarning(ticker: string, marketCap: real, expectedCaps: map<string, CapRange>): (r: seq<Warning>)
    ensures |r| <= 1
    ensures r != [] <==> ticker in expectedCaps && OutsideExpected(marketCap, expectedCaps[ticker])
    ensures r != [] ==> r[0] == MarketCapOutOfRange(marketCap, expectedCaps[ticker].low, expectedCaps[ticker].high)
  {
    if ticker in expectedCaps && OutsideExpected(marketCap, expectedCaps[ticker])
    then [MarketCapOutOfRange(marketCap, expectedCaps[ticker].low, expectedCaps[ticker].high)] else []
  }

  /** Each warning is present exactly when its rule fires, the sample-data
      warning never appears on live data, and there are at most five. */
  lemma WarningsCharacterised(ticker: string, debtEquity: Option<real>, eps: real, marketCap: real,
                              totalDebt: real, totalEquity: real, expectedCaps: map<string, CapRange>)
    ensures var w := WarningsOf(ticker, debtEquity, eps, marketCap, totalDebt, totalEquity, expectedCaps);
      && (DebtEquityZeroOrMissing in w <==> debtEquity.None? || debtEquity.value == 0.0)
      && (EpsZeroForLargeCap in w <==> eps == 0.0 && marketCap > 50_000_000_000.0)
      && (MarketCapMissing in w <==> marketCap == 0.0)
      && (TotalDebtZero in w <==> totalDebt == 0.0 && totalEquity > 0.0)
      && (ticker in expectedCaps ==>
            (MarketCapOutOfRange(marketCap, expectedCaps[ticker].low, expectedCaps[ticker].high) in w
             <==> OutsideExpected(marketCap, expectedCaps[ticker])))
      && (ticker !in expectedCaps ==> forall x :: x in w ==> !x.MarketCapOutOfRange?)
      && UsingSampleData !in w
      && |w| <= 5
  {
    var w := WarningsOf(ticker, debtEquity, eps, marketCap, totalDebt, totalEquity, expectedCaps);
    WarningMembership(DebtEquityZeroOrMissing, ticker, debtEquity, eps, marketCap, totalDebt, totalEquity, expectedCaps);
    WarningMembership(EpsZeroForLargeCap, ticker, debtEquity, eps, marketCap, totalDebt, totalEquity, expectedCaps);
    WarningMembership(MarketCapMissing, ticker, debtEquity, eps, marketCap, totalDebt, totalEquity, expectedCaps);
    WarningMembership(TotalDebtZero, ticker, debtEquity, eps, marketCap, totalDebt, totalEquity, expectedCaps);
    WarningMembership(UsingSampleData, ticker, debtEquity, eps, marketCap, totalDebt, totalEquity, expectedCaps);
    if ticker in expectedCaps {
      var range := expectedCaps[ticker];
      WarningMembership(MarketCapOutOfRange(marketCap, range.low, range.high),
                        ticker, debtEquity, eps, marketCap, totalDebt, totalEquity, expectedCaps);
    } else {
      forall x | x in w
        ensures !x.MarketCapOutOfRange?
      {
        WarningMembership(x, ticker, debtEquity, eps, marketCap, totalDebt, totalEquity, expectedCaps);
      }
    }
  }

  /** Membership in the warning list, rule by rule. */
  lemma WarningMembership(x: Warning, ticker: string, debtEquity: Option<real>, eps: real, marketCap: real,
                          totalDebt: real, totalEquity: real, expectedCaps: map<string, CapRange>)
    ensures x in WarningsOf(ticker, debtEquity, eps, marketCap, totalDebt, totalEquity, expectedCaps) <==>
      || (x == DebtEquityZeroOrMissing && (debtEquity.None? || debtEquity.value == 0.0))
      || (x == EpsZeroForLargeCap && eps == 0.0 && marketCap > 50_000_000_000.0)
      || (x == MarketCapMissing && marketCap == 0.0)
      || (x == TotalDebtZero && totalDebt == 0.0 && totalEquity > 0.0)
      || x in RangeWarning(ticker, marketCap, expectedCaps)
    ensures |WarningsOf(ticker, debtEquity, eps, marketCap, totalDebt, totalEquity, expectedCaps)| <= 5
  {
  }

  /** process_ticker's warning list, built by appending. */
  method BuildWarnings(ticker: string, debtEquity: Option<real>, eps: real, marketCap: real,
                       totalDebt: real, totalEquity: real, expectedCaps: map<string, CapRange>)
    returns (warnings: seq<Warning>)
    ensures warnings == WarningsOf(ticker, debtEquity, eps, marketCap, totalDebt, totalEquity, expectedCaps)
  {
    warnings := [];
    if debtEquity.None? || debtEquity.value == 0.0 {
      warnings := warnings + [DebtEquityZeroOrMissing];
    }
    assert warnings == When(debtEquity.None? || debtEquity.value == 0.0, DebtEquityZeroOrMissing);
    if eps == 0.0 && marketCap > 50_000_000_000.0 {
      warnings := warnings + [EpsZeroForLargeCap];
    }
    assert warnings == When(debtEquity.None? || debtEquity.value == 0.0, DebtEquityZeroOrMissing)
                     + When(eps == 0.0 && marketCap > 50_000_000_000.0, EpsZeroForLargeCap);
    if marketCap == 0.0 {
      warnings := warnings + [MarketCapMissing];
    }
    assert warnings == When(debtEquity.None? || debtEquity.value == 0.0, DebtEquityZeroOrMissing)
                     + When(eps == 0.0 && marketCap > 50_000_000_000.0, EpsZeroForLargeCap)
                     + When(marketCap == 0.0, MarketCapMissing);
    if totalDebt == 0.0 && totalEquity > 0.0 {
      warnings := warnings + [TotalDebtZero];
    }
    if ticker in expectedCaps {
      var range := expectedCaps[ticker];
      if marketCap < range.low * 0.5 || marketCap > range.high * 2.0 {
        warnings := warnings + [MarketCapOutOfRange(marketCap, range.low, range.high)];
      }
    }
  }
}
