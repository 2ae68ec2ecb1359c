/** process_ticker, create_stock_from_sample and validate_stock: one ticker
    from fetched provider data to a scored stock record, with the fallback
    to the built-in sample snapshot when the fetched record fails
    validation. The fetches themselves are inputs. */
module Pipeline {
  import opened Common
  import opened Scorers
  import opened Composite
  import opened Activity
  import opened Financials
  import opened Audit

  /** What get_price_data returned (all 0 when the provider failed). */
  datatype PriceData = PriceData(price: real, change: real, changePct: real, volume: real)

  /** What get_ticker_details returned (market cap 0 and sector "Unknown"
      when the provider failed). */
  datatype Details = Details(name: string, marketCap: real, sector: string, sharesOutstanding: real,
                             logoUrl: string, homepage: string)

  /** Everything fetched for one ticker: prices, details, the quarterly
      filings (newest first), the dividend payments and the average volume. */
  datatype TickerInput = TickerInput(
    ticker: string,
    priceData: PriceData,
    details: Details,
    filings: seq<Filing>,
    dividendPayments: seq<real>,
    avgVolume: real)

  /** One entry of the built-in sample snapshot. */
  datatype Sample = Sample(
    name: string,
    price: real,
    change: real,
    volume: real,
    marketCap: real,
    sector: string,
    eps: real,
    epsGrowth: real,
    debtEquity: real,
    dividendYield: real)

  /** The stock record handed to the report; displayed figures are rounded
      as the record rounds them, `volume` and `avgVolume` truncated by int(). */
  datatype Stock = Stock(
    ticker: string,
    name: string,
    price: real,
    change: real,
    changePct: real,
    volume: int,
    avgVolume: int,
    marketCap: real,
    sector: string,
    logoUrl: string,
    homepage: string,
    eps: real,
    epsGrowth: real,
    debtEquity: Option<real>,
    dividendYield: real,
    annualDividend: real,
    totalDebt: real,
    totalEquity: real,
    grahamValue: real,
    upside: real,
    scores: SubScores,
    composites: Composites,
    state: ActivityState,
    audit: AuditRecord)

  /** round(debt_equity, 2) when D/E is known, None otherwise. */
  function RoundedRatio(r: Option<real>): (d: Option<real>)
    ensures d.Some? <==> r.Some?
    ensures r.Some? ==> Abs(d.value - r.value) <= 0.005
  {
    match r
    case None => None
    case Some(v) => Some(RoundCent(v))
  }

  /** The live record process_ticker assembles before validation, from the
      fetched data and the results of the accumulating steps. */
  function LiveRecord(input: TickerInput, fin: Financials, div: Dividends, sentiment: int,
                      state: ActivityState, warnings: seq<Warning>): Stock
  {
    var p := input.priceData;
    var d := input.details;
    var scores := SubScores(Moat(d.marketCap), Growth(fin.epsGrowth), Balance(fin.debtEquity),
                            Valuation(fin.eps, p.price, fin.epsGrowth), sentiment);
    var graham := GrahamValue(fin.eps, fin.epsGrowth);
    var upside := Upside(graham, p.price);
    var audit := AuditRecord(
      FactorAudit(MoatBracket(d.marketCap).name, scores.moat),
      FactorAudit(GrowthBracket(fin.epsGrowth).name, scores.growth),
      BalanceAudit(fin.totalDebt, fin.totalEquity, BalanceBracket(fin.debtEquity).name, scores.balance),
      ValuationAudit(RoundCent(AuditGraham(fin.eps, fin.epsGrowth)), RoundTenth(upside),
                     ValuationBracket(upside).name, scores.valuation),
      SentimentAudit(Some(SentimentBreakdown(div.dividendYield, d.sector, fin.epsGrowth)), scores.sentiment),
      warnings);
    Stock(input.ticker, d.name, RoundCent(p.price), RoundCent(p.change), RoundCent(p.changePct),
          Trunc(p.volume), Trunc(input.avgVolume), d.marketCap, d.sector, d.logoUrl, d.homepage,
          RoundCent(fin.eps), RoundTenth(fin.epsGrowth), RoundedRatio(fin.debtEquity),
          RoundCent(div.dividendYield), RoundCent(div.annualDividend), fin.totalDebt, fin.totalEquity,
          RoundCent(graham), RoundTenth(upside), scores, MfsesScores(scores), state, audit)
  }

  /** process_ticker's record before validation, as a value. */
  function LiveStock(input: TickerInput, expectedCaps: map<string, CapRange>): Stock
  {
    var p := input.priceData;
    var d := input.details;
    var fin := FinancialsOf(input.filings, d.sharesOutstanding);
    var div := DividendsOf(input.dividendPayments, p.price);
    LiveRecord(input, fin, div, SentimentScore(div.dividendYield, d.sector, fin.epsGrowth),
               StateOf(ActivityScore(p.volume, input.avgVolume, p.changePct)),
               WarningsOf(input.ticker, fin.debtEquity, fin.eps, d.marketCap, fin.totalDebt, fin.totalEquity, expectedCaps))
  }

  /** The day's change as a percentage of the previous close, price - change;
      0 when that close would be 0. */
  function SampleChangePct(price: real, change: real): (pct: real)
    ensures price != change ==> pct * (price - change) == change * 100.0
    ensures price == change ==> pct == 0.0
  {
    if price != change then
      change / (price - change) * 100.0
    else 0.0
  }

  /** The record create_stock_from_sample builds from a snapshot entry: the
      average volume is estimated as 90% of the day's volume, debt and
      equity are unknown (0), and every audit bracket reads "Sample". */
  function SampleRecord(ticker: string, s: Sample, sentiment: int, state: ActivityState): Stock
  {
    var changePct := SampleChangePct(s.price, s.change);
    var scores := SubScores(Moat(s.marketCap), Growth(s.epsGrowth), Balance(Some(s.debtEquity)),
                            Valuation(s.eps, s.price, s.epsGrowth), sentiment);
    var graham := GrahamValue(s.eps, s.epsGrowth);
    var upside := Upside(graham, s.price);
    var audit := AuditRecord(
      FactorAudit("Sample", scores.moat),
      FactorAudit("Sample", scores.growth),
      BalanceAudit(0.0, 0.0, "Sample", scores.balance),
      ValuationAudit(RoundCent(graham), RoundTenth(upside), "Sample", scores.valuation),
      SentimentAudit(None, scores.sentiment),
      [UsingSampleData]);
    Stock(ticker, s.name, RoundCent(s.price), RoundCent(s.change), RoundCent(changePct),
          Trunc(s.volume), Trunc(s.volume * 0.9), s.marketCap, s.sector, "", "",
          RoundCent(s.eps), RoundTenth(s.epsGrowth), Some(RoundCent(s.debtEquity)),
          RoundCent(s.dividendYield), RoundCent(s.dividendYield * s.price / 100.0), 0.0, 0.0,
          RoundCent(graham), RoundTenth(upside), scores, MfsesScores(scores), state, audit)
  }

  function SampleStock(ticker: string, s: Sample): Stock
  {
    SampleRecord(ticker, s, SentimentScore(s.dividendYield, s.sector, s.epsGrowth),
                 StateOf(ActivityScore(s.volume, s.volume * 0.9, SampleChangePct(s.price, s.change))))
  }

  /** create_stock_from_sample: None for a ticker without a snapshot entry. */
  function SampleStockOf(ticker: string, samples: map<string, Sample>): (r: Option<Stock>)
    ensures r.Some? <==> ticker in samples
    ensures r.Some? ==> r.value.ticker == ticker && r.value.audit.warnings == [UsingSampleData]
  {
    if ticker in samples then Some(SampleStock(ticker, samples[ticker])) else None
  }

  /** validate_stock: a record is trusted unless its market cap or its
      (rounded) price is 0. */
  predicate IsTrusted(st: Stock)
  {
    st.marketCap != 0.0 && st.price != 0.0
  }

  /** process_ticker as a value: the live record, replaced by the sample
      record when validation fails and a sample exists. */
  function ProcessedStock(input: TickerInput, samples: map<string, Sample>,
                          expectedCaps: map<string, CapRange>): Stock
  {
    var live := LiveStock(input, expectedCaps);
    if !IsTrusted(live) && input.ticker in samples then SampleStock(input.ticker, samples[input.ticker])
    else live
  }

  /** create_stock_from_sample, scoring through the accumulating methods. */
  method CreateStockFromSample(ticker: string, samples: map<string, Sample>) returns (r: Option<Stock>)
    ensures r == SampleStockOf(ticker, samples)
  {
    if ticker !in samples {
      return None;
    }
    var s := samples[ticker];
    var changePct := if s.price != s.change then s.change / (s.price - s.change) * 100.0 else 0.0;
    var sentiment := Sentiment(s.dividendYield, s.sector, s.epsGrowth);
    var avgVolume := s.volume * 0.9;
    var state := MarkovState(s.volume, avgVolume, changePct);
    assert changePct == SampleChangePct(s.price, s.change);
    r := Some(SampleRecord(ticker, s, sentiment, state));
  }

  /** process_ticker: fetch results in, scored record out. The live record is
      scored through the accumulating methods; validate_stock's rejection
      swaps in the sample record when there is one. */
  method ProcessTicker(input: TickerInput, samples: map<string, Sample>, expectedCaps: map<string, CapRange>)
    returns (stock: Stock)
    ensures stock == ProcessedStock(input, samples, expectedCaps)
  {
    var p := input.priceData;
    var d := input.details;
    var fin := GetFinancials(input.filings, d.sharesOutstanding);
    var div := DividendsOf(input.dividendPayments, p.price);
    var sentiment := Sentiment(div.dividendYield, d.sector, fin.epsGrowth);
    var state := MarkovState(p.volume, input.avgVolume, p.changePct);
    var warnings := BuildWarnings(input.ticker, fin.debtEquity, fin.eps, d.marketCap,
                                  fin.totalDebt, fin.totalEquity, expectedCaps);
    stock := LiveRecord(input, fin, div, sentiment, state, warnings);

    if !IsTrusted(stock) {
      var sampleStock := CreateStockFromSample(input.ticker, samples);
      if sampleStock.Some? {
        stock := sampleStock.value;
      }
    }
  }

  /** validate_stock accepts the live record exactly when the market cap is
      non-zero and the price does not round to 0.00. */
  lemma LiveTrustedIff(input: TickerInput, expectedCaps: map<string, CapRange>)
    ensures IsTrusted(LiveStock(input, expectedCaps))
        <==> input.details.marketCap != 0.0 && (input.priceData.price < -0.005 || input.priceData.price > 0.005)
  {
    RoundCentZero(input.priceData.price);
  }

  /** The record of process_ticker is for the requested ticker; it carries
      the sample-data warning exactly when the sample was substituted, which
      happens exactly when validation failed and a sample exists; otherwise
      it is the live record. */
  lemma ProcessedFallsBackToSample(input: TickerInput, samples: map<string, Sample>,
                                   expectedCaps: map<string, CapRange>)
    ensures var st := ProcessedStock(input, samples, expectedCaps);
      var live := LiveStock(input, expectedCaps);
      && st.ticker == input.ticker
      && (UsingSampleData in st.audit.warnings <==> !IsTrusted(live) && input.ticker in samples)
      && (UsingSampleData !in st.audit.warnings ==> st == live)
      && (UsingSampleData in st.audit.warnings ==> st == SampleStock(input.ticker, samples[input.ticker]))
  {
    var fin := FinancialsOf(input.filings, input.details.sharesOutstanding);
    WarningsCharacterised(input.ticker, fin.debtEquity, fin.eps, input.details.marketCap,
                          fin.totalDebt, fin.totalEquity, expectedCaps);
  }

  /** A rejected record without a sample is kept, and a missing market cap
      is then flagged in its warnings. */
  lemma UnvalidatedRecordIsFlagged(input: TickerInput, samples: map<string, Sample>,
                                   expectedCaps: map<string, CapRange>)
    requires input.ticker !in samples
    requires input.details.marketCap == 0.0
    ensures var st := ProcessedStock(input, samples, expectedCaps);
      !IsTrusted(st) && MarketCapMissing in st.audit.warnings
  {
    var fin := FinancialsOf(input.filings, input.details.sharesOutstanding);
    WarningsCharacterised(input.ticker, fin.debtEquity, fin.eps, input.details.marketCap,
                          fin.totalDebt, fin.totalEquity, expectedCaps);
  }

  /** A price that rounds to 0.00 with a non-zero market cap and no sample
      entry: validate_stock rejects the record, yet process_ticker returns it
      unchanged, and none of its warnings speaks of the price, because no
      warning rule looks at the price. */
  lemma ZeroPriceRecordKeptUnflagged(input: TickerInput, samples: map<string, Sample>,
                                     expectedCaps: map<string, CapRange>)
    requires input.ticker !in samples
    requires input.details.marketCap != 0.0 && input.priceData.price == 0.0
    ensures var st := ProcessedStock(input, samples, expectedCaps);
      && st == LiveStock(input, expectedCaps) && !IsTrusted(st)
      && MarketCapMissing !in st.audit.warnings && UsingSampleData !in st.audit.warnings
  {
    var fin := FinancialsOf(input.filings, input.details.sharesOutstanding);
    WarningsCharacterised(input.ticker, fin.debtEquity, fin.eps, input.details.marketCap,
                          fin.totalDebt, fin.totalEquity, expectedCaps);
  }

  /** Each sub-score lies in its scorer's range and every composite in
      [2, 20]. */
  predicate ScoresInRange(st: Stock)
  {
    && 4 <= st.scores.moat <= 20 && 2 <= st.scores.growth <= 20 && 4 <= st.scores.balance <= 20
    && 4 <= st.scores.valuation <= 20 && 8 <= st.scores.sentiment <= 18
    && 2.0 <= st.composites.short <= 20.0 && 2.0 <= st.composites.mid <= 20.0
    && 2.0 <= st.composites.long <= 20.0
  }

  /** Sub-scores within the scorers' ranges blend to composites in [2, 20]. */
  lemma CompositesInRange(scores: SubScores)
    requires 4 <= scores.moat <= 20 && 2 <= scores.growth <= 20 && 4 <= scores.balance <= 20
    requires 4 <= scores.valuation <= 20 && 8 <= scores.sentiment <= 18
    ensures var c := MfsesScores(scores);
      2.0 <= c.short <= 20.0 && 2.0 <= c.mid <= 20.0 && 2.0 <= c.long <= 20.0
  {
    assert 2 <= MinScore(scores) && MaxScore(scores) <= 20;
  }

  lemma LiveScoresInRange(input: TickerInput, expectedCaps: map<string, CapRange>)
    ensures ScoresInRange(LiveStock(input, expectedCaps))
  {
    CompositesInRange(LiveStock(input, expectedCaps).scores);
  }

  lemma SampleScoresInRange(ticker: string, s: Sample)
    ensures ScoresInRange(SampleStock(ticker, s))
  {
    CompositesInRange(SampleStock(ticker, s).scores);
  }

  /** Whichever record process_ticker returns, its scores are in range. */
  lemma ProcessedScoresInRange(input: TickerInput, samples: map<string, Sample>,
                               expectedCaps: map<string, CapRange>)
    ensures ScoresInRange(ProcessedStock(input, samples, expectedCaps))
  {
    LiveScoresInRange(input, expectedCaps);
    if input.ticker in samples {
      SampleScoresInRange(input.ticker, samples[input.ticker]);
    }
  }

  /** The live audit agrees with the scores: the moat, growth and balance
      brackets carry the scorers' tiers, the breakdown adds up to the
      sentiment score, the audit Graham value is the displayed one, and the
      valuation bracket matches the score unless EPS is not positive while
      the price is. */
  lemma LiveAuditAgrees(input: TickerInput, expectedCaps: map<string, CapRange>)
    ensures var st := LiveStock(input, expectedCaps);
      var fin := FinancialsOf(input.filings, input.details.sharesOutstanding);
      && MoatBracket(st.marketCap).score == st.scores.moat == st.audit.moat.score
      && GrowthBracket(fin.epsGrowth).score == st.scores.growth == st.audit.growth.score
      && BalanceBracket(fin.debtEquity).score == st.scores.balance == st.audit.balance.score
      && st.audit.sentiment.breakdown.Some?
      && st.audit.sentiment.breakdown.value.Total() == st.scores.sentiment
      && st.audit.valuation.grahamValue == st.grahamValue
      && (LiveValuationBracket(fin.eps, input.priceData.price, fin.epsGrowth).score == st.scores.valuation
          <==> !(fin.eps <= 0.0 && input.priceData.price > 0.0))
  {
    var fin := FinancialsOf(input.filings, input.details.sharesOutstanding);
    ValuationBracketAgreesIff(fin.eps, input.priceData.price, fin.epsGrowth);
  }

  /** A sample stock with a positive volume is never HOT or FROZEN: the
      estimated average makes the volume term +1, and the price term adds at
      most 3. */
  lemma SampleStateColdOrWarm(ticker: string, s: Sample)
    requires s.volume > 0.0
    ensures SampleStock(ticker, s).state == Cold || SampleStock(ticker, s).state == Warm
  {
    NinetyPercentAverageAddsOne(s.volume);
  }

  /** The Apple entry of the sample snapshot scores moat 20, growth 12,
      balance 8, valuation 8 (Graham value 226.125, shown as 226.12 since the
      cent tie goes to the even digit, against 237.59: upside -4.8%) and
      sentiment 12 (+1 dividend, +2 tech, +1 momentum), composites 12.0,
      12.4 and 12.6, and is COLD. */
  lemma AppleSampleScenario(s: Sample)
    requires s == Sample("Apple Inc.", 237.59, 2.31, 48500000.0, 3_580_000_000_000.0,
                         "Computer & Communications Equipment", 6.75, 12.5, 1.87, 0.44)
    ensures var st := SampleStock("AAPL", s);
      && st.scores == SubScores(20, 12, 8, 8, 12)
      && st.grahamValue == 226.12 && st.upside == -4.8
      && st.composites == Composites(12.0, 12.4, 12.6)
      && st.state == Cold
  {
    AppleSectorIsTech(s.sector);
    AppleValuation();
    AppleComposites();
    NinetyPercentAverageAddsOne(s.volume);
    assert 0.0 < SampleChangePct(s.price, s.change) < 1.5;
  }

  /** "Computer & Communications Equipment" contains COMPUTER once upper-cased. */
  lemma AppleSectorIsTech(sector: string)
    requires sector == "Computer & Communications Equipment"
    ensures SentimentScore(0.44, sector, 12.5) == 12
  {
    var upper := Text.Upper(sector);
    assert sector[..8] == "Computer";
    forall i | 0 <= i < 8
      ensures upper[i] == "COMPUTER"[i]
    {
      assert upper[i] == Text.UpperChar(sector[i]);
    }
    assert upper[..8] == "COMPUTER";
    Text.KeywordPrefixIsTech(sector, 0);
  }

  /** Graham value 226.125 against a price of 237.59: upside -4.83%, score 8;
      the displayed values round the cent tie to even and the upside to -4.8. */
  lemma AppleValuation()
    ensures GrahamValue(6.75, 12.5) == 226.125
    ensures Valuation(6.75, 237.59, 12.5) == 8
    ensures RoundCent(226.125) == 226.12
    ensures RoundTenth(Upside(226.125, 237.59)) == -4.8
  {
    var u := Upside(226.125, 237.59);
    assert -4.83 < u < -4.82;
    assert -48.3 < u * 10.0 < -48.2;
    assert (u * 10.0).Floor == -49;
    assert (226.125 * 100.0).Floor == 22612;
  }

  lemma AppleComposites()
    ensures MfsesScores(SubScores(20, 12, 8, 8, 12)) == Composites(12.0, 12.4, 12.6)
  {
    assert (12.0 * 10.0).Floor == 120;
    assert (12.4 * 10.0).Floor == 124;
    assert (12.6 * 10.0).Floor == 126;
  }
}
