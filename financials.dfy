/** The arithmetic of get_financials and get_dividends, over the filing and
    dividend records the market-data provider returned (newest filing
    first). Missing numeric fields arrive as 0. */
module Financials {
  import opened Common

  /** A text field of a provider record: missing, present with a null
      value, or present with a string. */
  datatype TextField = Missing | Null | Text(text: string)

  /** Python's `record.get(key, default)` on a text field, with None for
      Python's None: a null value is returned as None even when a default is
      given. */
  function Lookup(f: TextField, default: Option<string>): (r: Option<string>)
    ensures f.Missing? ==> r == default
    ensures f.Null? ==> r == None
    ensures f.Text? ==> r == Some(f.text)
  {
    match f
    case Missing => default
    case Null => None
    case Text(t) => Some(t)
  }

  /** One quarterly filing. */
  datatype Filing = Filing(
    fiscalPeriod: TextField,
    fiscalYear: int,
    netIncome: real,
    revenue: real,
    liabilities: real,
    longTermDebt: real,
    currentDebt: real,
    noncurrentLiabilities: real,
    equity: real,
    stockholdersEquity: real)

  /** The metrics get_financials returns; debtEquity is None when unknown. */
  datatype Financials = Financials(
    eps: real,
    epsGrowth: real,
    debtEquity: Option<real>,
    totalDebt: real,
    totalEquity: real,
    netIncome: real,
    revenue: real)

  /** The result when the provider returned no filings. */
  const NoFinancials := Financials(0.0, 0.0, None, 0.0, 0.0, 0.0, 0.0)

  /** EPS from a quarter's net income, annualised by four; 0 without a
      positive share count. */
  function AnnualizedEps(netIncome: real, shares: real): (eps: real)
    ensures shares > 0.0 ==> eps * shares == 4.0 * netIncome
    ensures shares <= 0.0 ==> eps == 0.0
    ensures eps > 0.0 <==> shares > 0.0 && netIncome > 0.0
  {
    if shares > 0.0 && netIncome != 0.0 then
      PositiveQuotient(netIncome * 4.0, shares);
      (netIncome * 4.0) / shares
    else 0.0
  }

  lemma PositiveQuotient(a: real, b: real)
    requires b > 0.0
    ensures (a / b) * b == a
    ensures a / b > 0.0 <==> a > 0.0
  {
    var q := a / b;
    if q > 0.0 {
      assert q * b > 0.0;
    } else {
      assert q * b <= 0.0;
    }
  }

  /** Financial debt: long-term plus current debt; when that is 0, an
      estimate from noncurrent liabilities capped at half of all liabilities. */
  function FinancialDebt(f: Filing): (debt: real)
    ensures f.longTermDebt + f.currentDebt != 0.0 ==> debt == f.longTermDebt + f.currentDebt
    ensures f.longTermDebt + f.currentDebt == 0.0 && f.noncurrentLiabilities <= 0.0 ==> debt == 0.0
    ensures f.longTermDebt + f.currentDebt == 0.0 && f.noncurrentLiabilities > 0.0 ==>
      debt <= f.noncurrentLiabilities && debt <= f.liabilities * 0.5
      && (debt == f.noncurrentLiabilities || debt == f.liabilities * 0.5)
  {
    var totalDebt := f.longTermDebt + f.currentDebt;
    if totalDebt != 0.0 then totalDebt
    else if f.noncurrentLiabilities > 0.0 then
      (if f.noncurrentLiabilities <= f.liabilities * 0.5 then f.noncurrentLiabilities else f.liabilities * 0.5)
    else 0.0
  }

  /** Total equity: the equity field, or stockholders' equity when it is 0. */
  function ReportedEquity(f: Filing): (e: real)
    ensures f.equity != 0.0 ==> e == f.equity
    ensures f.equity == 0.0 ==> e == f.stockholdersEquity
  {
    if f.equity != 0.0 then f.equity else f.stockholdersEquity
  }

  /** Debt/equity, defined only for a positive equity. */
  function DebtToEquity(debt: real, equity: real): (r: Option<real>)
    ensures r.Some? <==> equity > 0.0
    ensures r.Some? ==> r.value * equity == debt
    ensures r.Some? ==> (r.value >= 0.0 <==> debt >= 0.0)
  {
    if equity > 0.0 then
      PositiveQuotient(debt, equity);
      PositiveQuotient(-debt, equity);
      assert -debt / equity == -(debt / equity);
      Some(debt / equity)
    else None
  }

  /** The fiscal period of the newest filing as get_financials reads it:
      "" when the field is missing, None when it is null. */
  function CurrentPeriod(filings: seq<Filing>): (r: Option<string>)
    requires |filings| > 0
    ensures filings[0].fiscalPeriod.Missing? ==> r == Some("")
    ensures r.None? <==> filings[0].fiscalPeriod.Null?
  {
    Lookup(filings[0].fiscalPeriod, Some(""))
  }

  /** Filing j has the newest filing's period, compared as Python values,
      one fiscal year before it. A missing or null period reads as None
      here, so it matches a null newest period and never a missing one. */
  predicate IsYearAgo(filings: seq<Filing>, j: int)
    requires |filings| > 0 && 0 <= j < |filings|
  {
    Lookup(filings[j].fiscalPeriod, None) == CurrentPeriod(filings)
    && filings[j].fiscalYear == filings[0].fiscalYear - 1
  }

  /** The first index at or after i holding the year-ago filing. */
  function YearAgoIndexFrom(filings: seq<Filing>, i: nat): (r: Option<nat>)
    requires |filings| > 0 && i <= |filings|
    ensures r.Some? ==> i <= r.value < |filings| && IsYearAgo(filings, r.value)
    ensures r.Some? ==> forall j :: i <= j < r.value ==> !IsYearAgo(filings, j)
    ensures r.None? ==> forall j :: i <= j < |filings| ==> !IsYearAgo(filings, j)
    decreases |filings| - i
  {
    if i == |filings| then None
    else if IsYearAgo(filings, i) then Some(i)
    else YearAgoIndexFrom(filings, i + 1)
  }

  function YearAgoIndex(filings: seq<Filing>): Option<nat>
    requires |filings| > 0
  {
    YearAgoIndexFrom(filings, 0)
  }

  /** Percentage change relative to the magnitude of the old value. */
  function GrowthPct(current: real, yearAgo: real): (g: real)
    ensures yearAgo == 0.0 ==> g == 0.0
    ensures yearAgo != 0.0 ==> g * Abs(yearAgo) == (current - yearAgo) * 100.0
    ensures yearAgo != 0.0 ==> (g > 0.0 <==> current > yearAgo)
  {
    if yearAgo != 0.0 then
      PositiveQuotient(current - yearAgo, Abs(yearAgo));
      (current - yearAgo) / Abs(yearAgo) * 100.0
    else 0.0
  }

  /** EPS growth against the year-ago filing (0 when there is none, when
      there is no positive share count, or when its net income is 0). */
  function EpsGrowthOf(filings: seq<Filing>, shares: real, currentEps: real): (g: real)
    requires |filings| > 0
    ensures YearAgoIndex(filings).None? || shares <= 0.0 ==> g == 0.0
    ensures YearAgoIndex(filings).Some? && filings[YearAgoIndex(filings).value].netIncome == 0.0 ==> g == 0.0
  {
    match YearAgoIndex(filings)
    case None => 0.0
    case Some(j) =>
      var yearAgoNetIncome := filings[j].netIncome;
      if shares > 0.0 && yearAgoNetIncome != 0.0 then
        GrowthPct(currentEps, (yearAgoNetIncome * 4.0) / shares)
      else 0.0
  }

  /** get_financials as a value. */
  function FinancialsOf(filings: seq<Filing>, shares: real): (r: Financials)
    ensures |filings| == 0 ==> r == NoFinancials
    ensures r.debtEquity.Some? <==> r.totalEquity > 0.0
    ensures r.debtEquity.Some? ==> r.debtEquity.value * r.totalEquity == r.totalDebt
    ensures shares <= 0.0 ==> r.eps == 0.0 && r.epsGrowth == 0.0
    ensures |filings| > 0 && shares > 0.0 ==> r.eps * shares == 4.0 * filings[0].netIncome
    ensures |filings| > 0 ==> r.netIncome == filings[0].netIncome && r.revenue == filings[0].revenue
  {
    if |filings| == 0 then NoFinancials
    else
      var latest := filings[0];
      var eps := AnnualizedEps(latest.netIncome, shares);
      var totalDebt := FinancialDebt(latest);
      var totalEquity := ReportedEquity(latest);
      Financials(eps, EpsGrowthOf(filings, shares, eps), DebtToEquity(totalDebt, totalEquity),
                 totalDebt, totalEquity, latest.netIncome, latest.revenue)
  }

  /** get_financials: fills the result from the newest filing, then searches
      the filings in order for the year-ago quarter, stopping at the first. */
  method GetFinancials(filings: seq<Filing>, shares: real) returns (result: Financials)
    ensures result == FinancialsOf(filings, shares)
  {
    result := NoFinancials;
    if |filings| == 0 {
      return;
    }

    var latest := filings[0];
    var netIncome := latest.netIncome;
    var revenue := latest.revenue;

    var eps := 0.0;
    if shares > 0.0 && netIncome != 0.0 {
      eps := (netIncome * 4.0) / shares;
    }

    var totalDebt := latest.longTermDebt + latest.currentDebt;
    if totalDebt == 0.0 {
      if latest.noncurrentLiabilities > 0.0 {
        totalDebt := if latest.noncurrentLiabilities <= latest.liabilities * 0.5
                     then latest.noncurrentLiabilities else latest.liabilities * 0.5;
      } else {
        totalDebt := 0.0;
      }
    }

    var totalEquity := latest.equity;
    if totalEquity == 0.0 {
      totalEquity := latest.stockholdersEquity;
    }

    var debtEquity: Option<real> := None;
    if totalEquity > 0.0 {
      debtEquity := Some(totalDebt / totalEquity);
    }

    result := result.(eps := eps, debtEquity := debtEquity, totalDebt := totalDebt,
                      totalEquity := totalEquity, netIncome := netIncome, revenue := revenue);

    var currentPeriod := Lookup(latest.fiscalPeriod, Some(""));
    var targetYear := latest.fiscalYear - 1;

    var yearAgo: Option<nat> := None;
    var i := 0;
    while i < |filings|
      invariant 0 <= i <= |filings|
      invariant yearAgo == None
      invariant forall j :: 0 <= j < i ==> !IsYearAgo(filings, j)
    {
      if Lookup(filings[i].fiscalPeriod, None) == currentPeriod && filings[i].fiscalYear == targetYear {
        assert IsYearAgo(filings, i);
        FirstYearAgo(filings, i);
        yearAgo := Some(i);
        break;
      }
      i := i + 1;
    }
    assert yearAgo == YearAgoIndex(filings);

    if yearAgo.Some? {
      var yearAgoNetIncome := filings[yearAgo.value].netIncome;
      if shares > 0.0 && yearAgoNetIncome != 0.0 {
        var yearAgoEps := (yearAgoNetIncome * 4.0) / shares;
        var currentEps := result.eps;
        if yearAgoEps != 0.0 {
          result := result.(epsGrowth := ((currentEps - yearAgoEps) / Abs(yearAgoEps)) * 100.0);
        }
      }
    }
  }

  /** A match with no match before it is the one the search returns. */
  lemma FirstYearAgo(filings: seq<Filing>, i: nat)
    requires |filings| > 0 && i < |filings| && IsYearAgo(filings, i)
    requires forall j :: 0 <= j < i ==> !IsYearAgo(filings, j)
    ensures YearAgoIndex(filings) == Some(i)
  {
  }

  /** When the newest filing's period is null, a year-ago filing whose
      period is null or missing is the match: the growth is then computed
      from the two net incomes. */
  lemma NullPeriodMatchesNullOrMissing(newest: Filing, older: Filing, shares: real)
    requires newest.fiscalPeriod.Null? && !older.fiscalPeriod.Text?
    requires older.fiscalYear == newest.fiscalYear - 1
    requires shares > 0.0 && older.netIncome != 0.0
    ensures YearAgoIndex([newest, older]) == Some(1)
    ensures FinancialsOf([newest, older], shares).epsGrowth
      == (newest.netIncome - older.netIncome) / Abs(older.netIncome) * 100.0
  {
    var filings := [newest, older];
    assert !IsYearAgo(filings, 0);
    assert IsYearAgo(filings, 1);
    FirstYearAgo(filings, 1);
    EpsGrowthIsNetIncomeChange(filings, shares);
  }

  /** When the newest filing's period is missing, it reads as "", which no
      missing or null period equals: there is no match and no growth. */
  lemma MissingPeriodMatchesNoPeriodless(newest: Filing, older: Filing, shares: real)
    requires newest.fiscalPeriod.Missing? && !older.fiscalPeriod.Text?
    ensures YearAgoIndex([newest, older]) == None
    ensures FinancialsOf([newest, older], shares).epsGrowth == 0.0
  {
    var filings := [newest, older];
    assert !IsYearAgo(filings, 0);
    assert !IsYearAgo(filings, 1);
  }

  /** Scaling numerator and denominator by the same positive factor leaves
      a quotient unchanged. */
  lemma CancelFactor(k: real, a: real, b: real)
    requires k > 0.0 && b != 0.0
    ensures (k * a) / (k * b) == a / b
  {
    var q := a / b;
    assert q * b == a;
    assert q * (k * b) == k * a;
  }

  /** The share count cancels: EPS growth is the change in quarterly net
      income relative to the magnitude of the year-ago net income. */
  lemma EpsGrowthIsNetIncomeChange(filings: seq<Filing>, shares: real)
    requires |filings| > 0
    ensures shares <= 0.0 || YearAgoIndex(filings).None? ==> FinancialsOf(filings, shares).epsGrowth == 0.0
    ensures shares > 0.0 && YearAgoIndex(filings).Some? ==>
      var y := filings[YearAgoIndex(filings).value].netIncome;
      FinancialsOf(filings, shares).epsGrowth
        == if y == 0.0 then 0.0 else (filings[0].netIncome - y) / Abs(y) * 100.0
  {
    if shares > 0.0 && YearAgoIndex(filings).Some? {
      var j := YearAgoIndex(filings).value;
      var n, y := filings[0].netIncome, filings[j].netIncome;
      if y != 0.0 {
        var k := 4.0 / shares;
        assert k > 0.0;
        var eps := AnnualizedEps(n, shares);
        var ya := (y * 4.0) / shares;
        assert eps == k * n;
        assert ya == k * y;
        assert Abs(ya) == k * Abs(y);
        assert eps - ya == k * (n - y);
        CancelFactor(k, n - y, Abs(y));
      }
    }
  }

  datatype Dividends = Dividends(annualDividend: real, dividendYield: real)

  /** get_dividends: the sum of the returned payments, and that sum as a
      percentage of the price (0 for a non-positive price). */
  function DividendsOf(payments: seq<real>, price: real): (d: Dividends)
    ensures d.annualDividend == Sum(payments)
    ensures price > 0.0 ==> d.dividendYield * price == d.annualDividend * 100.0
    ensures price <= 0.0 ==> d.dividendYield == 0.0
  {
    var annualDividend := Sum(payments);
    if price > 0.0 then
      PositiveQuotient(annualDividend, price);
      Dividends(annualDividend, (annualDividend / price) * 100.0)
    else Dividends(annualDividend, 0.0)
  }

  /** Non-negative payments give a non-negative yield; no payments give 0. */
  lemma DividendYieldNonNegative(payments: seq<real>, price: real)
    requires forall i :: 0 <= i < |payments| ==> payments[i] >= 0.0
    ensures DividendsOf(payments, price).dividendYield >= 0.0
    ensures payments == [] ==> DividendsOf(payments, price) == Dividends(0.0, 0.0)
  {
    SumNonNegative(payments);
    if price > 0.0 {
      PositiveQuotient(Sum(payments), price);
    }
  }
}
