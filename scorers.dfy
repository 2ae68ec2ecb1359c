/** The five factor scorers of the MFSES engine and the Graham estimator.
    Each scorer is a total threshold ladder from numeric inputs to an
    integer sub-score. */
module Scorers {
  import opened Common
  import opened Text

  /** calc_moat: market capitalisation brackets. */
  function Moat(marketCap: real): (r: int)
    ensures r in {4, 6, 8, 10, 12, 14, 16, 17, 18, 19, 20}
    ensures r == 20 <==> marketCap >= 2_000_000_000_000.0
    ensures r == 19 <==> 1_000_000_000_000.0 <= marketCap < 2_000_000_000_000.0
    ensures r == 4 <==> marketCap < 1_000_000_000.0
  {
    if marketCap >= 2_000_000_000_000.0 then 20
    else if marketCap >= 1_000_000_000_000.0 then 19
    else if marketCap >= 500_000_000_000.0 then 18
    else if marketCap >= 200_000_000_000.0 then 17
    else if marketCap >= 100_000_000_000.0 then 16
    else if marketCap >= 50_000_000_000.0 then 14
    else if marketCap >= 20_000_000_000.0 then 12
    else if marketCap >= 10_000_000_000.0 then 10
    else if marketCap >= 5_000_000_000.0 then 8
    else if marketCap >= 1_000_000_000.0 then 6
    else 4
  }

  lemma MoatNonDecreasing(a: real, b: real)
    requires a <= b
    ensures Moat(a) <= Moat(b)
  {
  }

  /** The $2T edge is exact: one dollar below it scores 19. */
  lemma MoatTopEdge()
    ensures Moat(2_000_000_000_000.0) == 20
    ensures Moat(1_999_999_999_999.0) == 19
  {
  }

  /** calc_growth: EPS growth is clamped to [-50, 100] before the ladder. */
  function Growth(epsGrowth: real): (r: int)
    ensures 2 <= r <= 20 && r % 2 == 0
    ensures epsGrowth >= 50.0 ==> r == 20
    ensures epsGrowth < -25.0 ==> r == 2
    ensures r == 8 <==> 0.0 <= epsGrowth < 5.0
  {
    var g := Clamp(epsGrowth, -50.0, 100.0);
    if g >= 50.0 then 20
    else if g >= 35.0 then 18
    else if g >= 25.0 then 16
    else if g >= 15.0 then 14
    else if g >= 10.0 then 12
    else if g >= 5.0 then 10
    else if g >= 0.0 then 8
    else if g >= -10.0 then 6
    else if g >= -25.0 then 4
    else 2
  }

  lemma GrowthNonDecreasing(a: real, b: real)
    requires a <= b
    ensures Growth(a) <= Growth(b)
  {
  }

  /** The pre-clamp is idempotent: clamping again changes nothing. */
  lemma GrowthIgnoresClamp(g: real)
    ensures Growth(Clamp(g, -50.0, 100.0)) == Growth(g)
  {
  }

  /** calc_balance: debt/equity brackets; None or a negative ratio is "unknown". */
  function Balance(debtEquity: Option<real>): (r: int)
    ensures debtEquity.None? || debtEquity.value < 0.0 ==> r == 10
    ensures debtEquity.Some? && debtEquity.value >= 0.0 ==> 4 <= r <= 20 && r % 2 == 0
    ensures debtEquity.Some? && 0.0 <= debtEquity.value < 0.1 ==> r == 20
    ensures debtEquity.Some? && debtEquity.value >= 3.0 ==> r == 4
  {
    match debtEquity
    case None => 10
    case Some(de) =>
      if de < 0.0 then 10
      else if de < 0.1 then 20
      else if de < 0.3 then 18
      else if de < 0.5 then 16
      else if de < 0.7 then 14
      else if de < 1.0 then 12
      else if de < 1.5 then 10
      else if de < 2.0 then 8
      else if de < 3.0 then 6
      else 4
  }

  lemma BalanceNonIncreasing(a: real, b: real)
    requires 0.0 <= a <= b
    ensures Balance(Some(b)) <= Balance(Some(a))
  {
  }

  /** calc_graham_value: EPS x (8.5 + 2g) with g clamped to [0, 15];
      0 for a non-positive EPS. */
  function GrahamValue(eps: real, epsGrowth: real): (v: real)
    ensures eps <= 0.0 ==> v == 0.0
    ensures eps > 0.0 ==> v >= eps * 8.5
  {
    if eps <= 0.0 then 0.0
    else
      GrahamBounds(eps, Clamp(epsGrowth, 0.0, 15.0));
      eps * (8.5 + 2.0 * Clamp(epsGrowth, 0.0, 15.0))
  }

  lemma GrahamBounds(eps: real, g: real)
    requires eps > 0.0 && 0.0 <= g <= 15.0
    ensures eps * 8.5 <= eps * (8.5 + 2.0 * g) <= eps * 38.5
  {
    assert eps * (8.5 + 2.0 * g) == 8.5 * eps + 2.0 * (eps * g);
    assert eps * g >= 0.0;
    assert eps * (15.0 - g) >= 0.0;
    assert eps * (15.0 - g) == 15.0 * eps - eps * g;
  }

  /** A positive EPS is valued between 8.5 and 38.5 times earnings. */
  lemma GrahamValueBounds(eps: real, epsGrowth: real)
    requires eps > 0.0
    ensures eps * 8.5 <= GrahamValue(eps, epsGrowth) <= eps * 38.5
  {
    var g := Clamp(epsGrowth, 0.0, 15.0);
    assert GrahamValue(eps, epsGrowth) == eps * (8.5 + 2.0 * g);
    GrahamBounds(eps, g);
  }

  /** Graham value is non-decreasing in EPS growth and ignores growth
      outside [0, 15]. */
  lemma GrahamNonDecreasingInGrowth(eps: real, g1: real, g2: real)
    requires g1 <= g2
    ensures GrahamValue(eps, g1) <= GrahamValue(eps, g2)
    ensures GrahamValue(eps, Clamp(g1, 0.0, 15.0)) == GrahamValue(eps, g1)
  {
    if eps > 0.0 {
      var c1, c2 := Clamp(g1, 0.0, 15.0), Clamp(g2, 0.0, 15.0);
      assert c1 <= c2;
      assert eps * (8.5 + 2.0 * c2) - eps * (8.5 + 2.0 * c1) == 2.0 * (eps * (c2 - c1));
      assert eps * (c2 - c1) >= 0.0;
    }
  }

  /** Upside percentage of the Graham value over the price, 0 when the price
      is not positive (process_ticker and create_stock_from_sample). */
  function Upside(graham: real, price: real): (u: real)
    ensures price > 0.0 ==> graham == price * (1.0 + u / 100.0)
    ensures price <= 0.0 ==> u == 0.0
  {
    if price > 0.0 then (graham - price) / price * 100.0 else 0.0
  }

  /** calc_valuation: "can't calculate" (10) for non-positive EPS or price,
      otherwise the upside ladder over the Graham value. */
  function Valuation(eps: real, price: real, epsGrowth: real): (r: int)
    ensures eps <= 0.0 || price <= 0.0 ==> r == 10
    ensures 4 <= r <= 20 && r % 2 == 0
  {
    if eps <= 0.0 || price <= 0.0 then 10
    else
      var g := Clamp(epsGrowth, 0.0, 15.0);
      var grahamValue := eps * (8.5 + 2.0 * g);
      var upside := (grahamValue - price) / price * 100.0;
      if upside >= 100.0 then 20
      else if upside >= 60.0 then 18
      else if upside >= 40.0 then 16
      else if upside >= 20.0 then 14
      else if upside >= 10.0 then 12
      else if upside >= 0.0 then 10
      else if upside >= -20.0 then 8
      else if upside >= -40.0 then 6
      else 4
  }

  /** The upside ratio (v - p) / p falls as the price p rises, for v >= 0. */
  lemma UpsideRatioAntitone(v: real, p1: real, p2: real)
    requires v >= 0.0 && 0.0 < p1 <= p2
    ensures (v - p2) / p2 <= (v - p1) / p1
  {
    var a, b := (v - p1) / p1, (v - p2) / p2;
    assert a * p1 == v - p1;
    assert b * p2 == v - p2;
    assert (a + 1.0) * p1 == v;
    assert (b + 1.0) * p2 == v;
    if b + 1.0 < 0.0 {
      assert (b + 1.0) * p2 < 0.0;
    }
    assert (b + 1.0) * (p2 - p1) >= 0.0;
    assert (b + 1.0) * p1 <= (a + 1.0) * p1;
  }

  /** The upside ratio (v - p) / p rises with v, for p > 0. */
  lemma UpsideRatioMonotone(v1: real, v2: real, p: real)
    requires v1 <= v2 && p > 0.0
    ensures (v1 - p) / p <= (v2 - p) / p
  {
    var a, b := (v1 - p) / p, (v2 - p) / p;
    assert a * p == v1 - p;
    assert b * p == v2 - p;
    assert (b - a) * p == v2 - v1;
  }

  /** A higher price never raises the valuation score. */
  lemma ValuationNonIncreasingInPrice(eps: real, p1: real, p2: real, g: real)
    requires eps > 0.0 && 0.0 < p1 <= p2
    ensures Valuation(eps, p2, g) <= Valuation(eps, p1, g)
  {
    var c := Clamp(g, 0.0, 15.0);
    GrahamBounds(eps, c);
    UpsideRatioAntitone(eps * (8.5 + 2.0 * c), p1, p2);
  }

  /** Higher earnings never lower the valuation score. */
  lemma ValuationNonDecreasingInEps(e1: real, e2: real, price: real, g: real)
    requires 0.0 < e1 <= e2 && price > 0.0
    ensures Valuation(e1, price, g) <= Valuation(e2, price, g)
  {
    var k := 8.5 + 2.0 * Clamp(g, 0.0, 15.0);
    assert e2 * k - e1 * k == (e2 - e1) * k;
    assert (e2 - e1) * k >= 0.0;
    UpsideRatioMonotone(e1 * k, e2 * k, price);
  }

  /** Dividend component of calc_sentiment (+0 to +5). */
  function DividendTerm(divYield: real): (r: int)
    ensures 0 <= r <= 5
    ensures r == 0 <==> divYield <= 0.0
    ensures r == 5 <==> divYield >= 4.0
  {
    if divYield >= 4.0 then 5
    else if divYield >= 3.0 then 4
    else if divYield >= 2.0 then 3
    else if divYield >= 1.0 then 2
    else if divYield > 0.0 then 1
    else 0
  }

  /** Tech sector bonus of calc_sentiment (+2). */
  function TechBonus(sector: string): (r: int)
    ensures r == 2 <==> IsTechSector(sector)
    ensures r == 0 <==> !IsTechSector(sector)
  {
    if IsTechSector(sector) then 2 else 0
  }

  /** Growth momentum component of calc_sentiment (+0 to +3), on the
      unclamped EPS growth. */
  function MomentumTerm(epsGrowth: real): (r: int)
    ensures 0 <= r <= 3
    ensures r == 0 <==> epsGrowth < 5.0
    ensures r == 3 <==> epsGrowth >= 25.0
  {
    if epsGrowth >= 25.0 then 3
    else if epsGrowth >= 15.0 then 2
    else if epsGrowth >= 5.0 then 1
    else 0
  }

  /** calc_sentiment as a value: base 8 plus the three components, clamped
      to [1, 20]. The components add at most 10, so the clamp never binds. */
  function SentimentScore(divYield: real, sector: string, epsGrowth: real): (r: int)
    ensures 8 <= r <= 18
    ensures r == 8 + DividendTerm(divYield) + TechBonus(sector) + MomentumTerm(epsGrowth)
  {
    ClampInt(8 + DividendTerm(divYield) + TechBonus(sector) + MomentumTerm(epsGrowth), 1, 20)
  }

  /** calc_sentiment: accumulates into a running score. */
  method Sentiment(divYield: real, sector: string, epsGrowth: real) returns (score: int)
    ensures score == SentimentScore(divYield, sector, epsGrowth)
    ensures 1 <= score <= 20
  {
    score := 8;

    if divYield >= 4.0 {
      score := score + 5;
    } else if divYield >= 3.0 {
      score := score + 4;
    } else if divYield >= 2.0 {
      score := score + 3;
    } else if divYield >= 1.0 {
      score := score + 2;
    } else if divYield > 0.0 {
      score := score + 1;
    }

    if IsTechSector(sector) {
      score := score + 2;
    }

    if epsGrowth >= 25.0 {
      score := score + 3;
    } else if epsGrowth >= 15.0 {
      score := score + 2;
    } else if epsGrowth >= 5.0 {
      score := score + 1;
    }

    score := ClampInt(score, 1, 20);
  }

  /** Growth clamps EPS growth but the momentum term does not; the
      asymmetry is never observable, because the momentum ladder is already
      flat below 5 and above 25. */
  lemma MomentumIgnoresClamp(epsGrowth: real)
    ensures MomentumTerm(Clamp(epsGrowth, -50.0, 100.0)) == MomentumTerm(epsGrowth)
  {
  }

  /** Growth above 100% saturates both the growth score and the momentum term. */
  lemma HighGrowthSaturates(epsGrowth: real)
    requires epsGrowth > 100.0
    ensures Growth(epsGrowth) == 20 && MomentumTerm(epsGrowth) == 3
    ensures Growth(epsGrowth) == Growth(100.0)
  {
  }
}
