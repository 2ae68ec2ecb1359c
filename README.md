# MFSES scoring engine — a Dafny model

This project models the scoring core of the SEESAW MFSES stock engine
(`mfses_engine.py`). Each ticker gets five factor scores:

- moat (market-cap tiers);
- growth (EPS-growth tiers);
- balance (debt/equity tiers);
- valuation (Graham value against price);
- sentiment (dividend, tech sector and momentum terms).

These are blended into Short, Mid and Long horizon composites rounded to one
decimal. The engine also attaches:

- a Markov "activity" state (HOT, WARM, COLD or FROZEN);
- an audit trail with bracket labels, a sentiment breakdown and data-quality
  warnings.

A record whose market cap or rounded price is 0 fails `validate_stock` and is
replaced by the built-in sample entry when one exists. `main` sorts the
records by mid-term composite, highest first.

The modules follow the program's structure:

| module | file | models |
|---|---|---|
| `Common` | common.dfy | `min`/`max` clamping, `abs`, `sum`, `int()` truncation, and `round` to 1 and 2 decimals (half-even) |
| `Text` | text.dfy | `kw in sector.upper()` for the tech keyword list |
| `Scorers` | scorers.dfy | `calc_moat`, `calc_growth`, `calc_balance`, `calc_valuation`, `calc_sentiment`, `calc_graham_value` |
| `Composite` | composite.dfy | `calc_mfses_scores` |
| `Activity` | activity.dfy | `calc_markov_state` |
| `Financials` | financials.dfy | the arithmetic of `get_financials` and `get_dividends` |
| `Audit` | audit.dfy | the bracket helpers, the sentiment breakdown and the warnings of `process_ticker` |
| `Pipeline` | pipeline.dfy | `process_ticker`, `create_stock_from_sample`, `validate_stock` |
| `Ranking` | ranking.dfy | the processing loop and the `mid_score` sort of `main` |

Some steps in the source accumulate into a variable or a list:

- the sentiment score;
- the activity score;
- the warning list;
- the year-ago filing search;
- the processing loop;
- the sort.

Each of these is a `method` with a loop or a sequence of updates. Each is
proved equal to a specification function, and the properties are proved
about that function.

Some consequences of the code are worth stating:

- `calc_sentiment` adds +1 for any dividend yield in (0, 1)
  (mfses_engine.py:131).
- The Apple sample entry (mfses_engine.py:33) scores growth 12, because
  12.5% lies in the 10–15% tier (mfses_engine.py:74). Its composites are
  12.0 / 12.4 / 12.6. Its Graham value is 6.75 × (8.5 + 2 × 12.5) = 226.125,
  shown as 226.12.
- `process_ticker` never returns None (mfses_engine.py:770-776), so every
  ticker reaches the sort (mfses_engine.py:1520-1527).
- A record whose price rounds to 0.00 fails validation. If the market cap is
  non-zero and there is no sample entry, the record is still returned
  unchanged (mfses_engine.py:770-776), and no warning mentions the price.
  `Pipeline.ZeroPriceRecordKeptUnflagged` states this.

The audit's valuation bracket reads the unrounded upside
(mfses_engine.py:588, 678); the displayed value is `round(upside, 1)`
(mfses_engine.py:712). The bracket disagrees with `calc_valuation` when
EPS ≤ 0 and the price is positive: the bracket is "<-40% upside" (tier 4)
while the score is 10. `Audit.ValuationBracketAgreesIff` states exactly when
the two agree.

## Model

| member | source | states |
|---|---|---|
| Common.Clamp | mfses_engine.py:68 | `max(lo, min(hi, x))` lies in [lo, hi]; it is x inside the range and the nearer bound outside it |
| Common.ClampInt | mfses_engine.py:143 | `min(20, max(1, score))` lies in [lo, hi]; it is the score inside the range and the nearer bound outside it |
| Common.Abs | mfses_engine.py:192 | `abs` is non-negative and equals x or -x |
| Common.Sum | mfses_engine.py:440 | `sum(...)` of the payments, left to right; `Common.SumNonNegative` bounds it |
| Common.SumNonNegative | mfses_engine.py:440 | a sum of non-negative dividend payments is non-negative |
| Common.Trunc | mfses_engine.py:730-731 | `int()` truncates toward zero: the integer part of a non-negative x (on or below it, within 1), and the mirror for a negative x |
| Common.RoundHalfEven | mfses_engine.py:176 | Python's `round` to an integer: within 1/2 of the input, and the even neighbour on a tie |
| Common.RoundHalfEvenMonotone | mfses_engine.py:176 | rounding never reverses the order of two values |
| Common.RoundTenth | mfses_engine.py:176 | `round(x, 1)` is within 0.05 of x |
| Common.RoundCent | mfses_engine.py:727 | `round(x, 2)` is within 0.005 of x |
| Common.RoundTenthOfInt | mfses_engine.py:176 | a whole number is unchanged by `round(x, 1)` |
| Common.RoundCentZero | mfses_engine.py:727 | `round(x, 2)` is 0 exactly when \|x\| ≤ 0.005 |
| Text.UpperChar | mfses_engine.py:135 | `upper()` maps a-z to A-Z, leaves every other character alone, and never yields a lower-case letter |
| Text.Upper | mfses_engine.py:135 | `sector.upper()` keeps the length, upper-cases character by character and leaves no lower-case letter |
| Text.UpperIdempotent | mfses_engine.py:135 | upper-casing twice is the same as once |
| Text.ContainsIff | mfses_engine.py:135 | `kw in s` holds exactly when kw occurs at some index of s |
| Text.Contains | mfses_engine.py:135 | `kw in s`, scanning start positions from the left; `Text.ContainsIff` proves it holds exactly when kw occurs at some index |
| Text.TechSectorIgnoresCase | mfses_engine.py:134-135 | the tech test ignores ASCII letter case; a sector is tech exactly when a keyword occurs in its upper-cased text |
| Text.KeywordPrefixIsTech | mfses_engine.py:134-135 | a sector whose upper-cased text begins with a keyword is tech |
| Text.IsTechSector | mfses_engine.py:134-135 | some keyword occurs in the upper-cased sector; `Text.TechSectorIgnoresCase` and `Text.KeywordPrefixIsTech` are its properties |
| Scorers.Moat | mfses_engine.py:51-63 | the score is one of the eleven tiers; 20 exactly from $2T, 19 exactly in [$1T, $2T), 4 exactly below $1B |
| Scorers.MoatNonDecreasing | mfses_engine.py:51-63 | a larger market cap never scores lower |
| Scorers.MoatTopEdge | mfses_engine.py:53-54 | the $2T boundary is inclusive |
| Scorers.Growth | mfses_engine.py:66-79 | an even score in [2, 20]; 20 from 50% growth, 2 below -25%, 8 exactly in [0, 5) |
| Scorers.GrowthNonDecreasing | mfses_engine.py:66-79 | faster growth never scores lower |
| Scorers.GrowthIgnoresClamp | mfses_engine.py:68 | the clamp to [-50, 100] never changes the growth score |
| Scorers.HighGrowthSaturates | mfses_engine.py:68-70 | growth above 100% scores as 100% does, with full growth and momentum terms |
| Scorers.Balance | mfses_engine.py:82-95 | unknown or negative D/E scores 10; otherwise an even score in [4, 20], 20 below 0.1 and 4 from 3.0 |
| Scorers.BalanceNonIncreasing | mfses_engine.py:87-95 | more leverage never scores higher |
| Scorers.GrahamValue | mfses_engine.py:203-208 | 0 for non-positive EPS; at least 8.5 × EPS otherwise |
| Scorers.GrahamValueBounds | mfses_engine.py:205-208 | for positive EPS the value lies between 8.5 × EPS and 38.5 × EPS, because growth is capped at 15 |
| Scorers.GrahamNonDecreasingInGrowth | mfses_engine.py:205-208 | more growth never lowers the value, and clamping growth to [0, 15] does not change it |
| Scorers.Upside | mfses_engine.py:588 | for a positive price, graham = price × (1 + upside/100); 0 otherwise (the same guarded formula is at line 516) |
| Scorers.Valuation | mfses_engine.py:98-119 | 10 when EPS or price is not positive; always an even score in [4, 20] |
| Scorers.ValuationNonIncreasingInPrice | mfses_engine.py:98-119 | with positive EPS, a higher price never scores higher |
| Scorers.ValuationNonDecreasingInEps | mfses_engine.py:98-119 | at a positive price, higher positive EPS never scores lower |
| Scorers.DividendTerm | mfses_engine.py:126-131 | the dividend term is in [0, 5]; it is 0 exactly for a non-positive yield and 5 exactly from 4% |
| Scorers.TechBonus | mfses_engine.py:133-136 | +2 exactly for a tech sector, else 0 |
| Scorers.MomentumTerm | mfses_engine.py:138-141 | the momentum term is in [0, 3]; it is 0 exactly below 5% growth and 3 exactly from 25% |
| Scorers.SentimentScore | mfses_engine.py:122-143 | the score is 8 plus the three terms and lies in [8, 18], so the final clamp to [1, 20] never acts |
| Scorers.Sentiment | mfses_engine.py:122-143 | the accumulating computation equals SentimentScore and lies in [1, 20] |
| Scorers.MomentumIgnoresClamp | mfses_engine.py:138-141 | momentum reads the unclamped growth, and clamping it would not change the term |
| Composite.HorizonWeightsConvex | mfses_engine.py:146-174 | each horizon's weights are non-negative and sum to 1 |
| Composite.Blend | mfses_engine.py:150-174 | the weighted sum before rounding; `Composite.BlendBetweenMinAndMax` bounds it and `Composite.BlendIsMultipleOfOneTwentieth` gives its twentieths |
| Composite.BlendBetweenMinAndMax | mfses_engine.py:146-174 | each of the three horizons' exact weightings lies between the smallest and the largest sub-score |
| Composite.RoundedBlendBetweenMinAndMax | mfses_engine.py:146-176 | the bounds survive rounding to one decimal |
| Composite.MfsesScores | mfses_engine.py:146-176 | each composite is within 0.05 of its exact weighting and between the smallest and largest sub-score |
| Composite.BlendIsMultipleOfOneTwentieth | mfses_engine.py:146-174 | twenty times each weighting is an integer combination of the sub-scores, so ties at the second decimal occur |
| Activity.VolumeTerm | mfses_engine.py:183-189 | the volume term is in [-1, 3]; it is 0 without a positive average, +3 exactly above a 2.5× ratio and -1 exactly below 0.5× |
| Activity.PriceTerm | mfses_engine.py:191-195 | the price term is in [0, 3]; it is 0 exactly for \|change\| ≤ 1.5% and 3 exactly above 5% |
| Activity.ActivityScore | mfses_engine.py:179-195 | activity lies in [-1, 6] and is 6 exactly for a volume spike with a >5% move |
| Activity.StateOf | mfses_engine.py:197-200 | HOT exactly from 5, WARM exactly for 3–4, COLD exactly for 1–2, FROZEN exactly at or below 0 |
| Activity.MarkovState | mfses_engine.py:179-200 | the accumulating computation equals the state of ActivityScore |
| Activity.VolumeSpikeWithBigMoveIsHot | mfses_engine.py:179-200 | triple volume with a 6% move is HOT |
| Activity.NinetyPercentAverageAddsOne | mfses_engine.py:511-512 | against the sample's 90% average volume, the volume term is +1 |
| Financials.AnnualizedEps | mfses_engine.py:322-325 | EPS × shares = 4 × net income for positive shares, else 0; EPS is positive exactly when both are |
| Financials.FinancialDebt | mfses_engine.py:339-344 | long-term plus current debt, or else the fallback min(noncurrent, 50% of liabilities) when noncurrent is positive, or else 0 |
| Financials.ReportedEquity | mfses_engine.py:346-348 | equity, falling back to stockholders' equity when equity is 0 |
| Financials.DebtToEquity | mfses_engine.py:350-352 | D/E is known exactly for positive equity, and then D/E × equity = debt |
| Financials.Lookup | mfses_engine.py:375 | `record.get(key, default)`: the default for a missing field, None for a null value, the string otherwise |
| Financials.CurrentPeriod | mfses_engine.py:375 | the newest filing's period with default "": "" when missing, and None exactly when null |
| Financials.IsYearAgo | mfses_engine.py:383 | same period as a Python value (missing or null reads as None) and the previous fiscal year; `Financials.NullPeriodMatchesNullOrMissing` and `Financials.MissingPeriodMatchesNoPeriodless` show the null and missing cases |
| Financials.YearAgoIndexFrom | mfses_engine.py:375-385 | the search returns the first filing for the same period one fiscal year back, or None when no filing matches |
| Financials.YearAgoIndex | mfses_engine.py:380-385 | the `for … break` search from the newest filing; `Financials.YearAgoIndexFrom` and `Financials.FirstYearAgo` give its first-match contract |
| Financials.FirstYearAgo | mfses_engine.py:380-385 | the first match is the one the search stops at |
| Financials.NullPeriodMatchesNullOrMissing | mfses_engine.py:375-385 | with a null newest period, an older filing of the previous year whose period is null or missing is the year-ago match; for positive shares and a non-zero older net income the growth is (new − old) / \|old\| × 100 |
| Financials.MissingPeriodMatchesNoPeriodless | mfses_engine.py:375-385 | with a missing newest period (read as ""), no filing without a period matches, and the growth is 0 |
| Financials.GrowthPct | mfses_engine.py:404-408 | growth × \|year-ago\| = (current − year-ago) × 100, positive exactly when EPS rose; 0 for a zero base |
| Financials.EpsGrowthOf | mfses_engine.py:394-408 | the growth is 0 without a year-ago filing, without positive shares, or when the year-ago net income is 0 |
| Financials.GetFinancials | mfses_engine.py:273-422 | the filing-by-filing computation and loop equal FinancialsOf |
| Financials.FinancialsOf | mfses_engine.py:273-422 | no filings give the all-zero result with D/E None; D/E is known exactly for positive equity and then D/E × equity = debt; without positive shares EPS and growth are 0, and otherwise EPS × shares = 4 × the newest net income |
| Financials.EpsGrowthIsNetIncomeChange | mfses_engine.py:375-408 | the share count cancels: EPS growth is the relative change of quarterly net income, and 0 without shares or a year-ago filing |
| Financials.DividendsOf | mfses_engine.py:425-446 | the annual dividend is the sum of the payments; the yield × price = 100 × dividend for a positive price, else the yield is 0 |
| Financials.DividendYieldNonNegative | mfses_engine.py:438-444 | non-negative payments give a non-negative yield; no payments give (0, 0) |
| Audit.MoatBracket | mfses_engine.py:617-629 | the moat bracket's tier is calc_moat's score |
| Audit.GrowthBracket | mfses_engine.py:633-645 | the growth bracket's tier is calc_growth's score |
| Audit.BalanceBracket | mfses_engine.py:649-661 | the balance bracket's tier is calc_balance's score; "Unknown" exactly for a missing or negative D/E |
| Audit.ValuationBracket | mfses_engine.py:667-676 | the tier is in [4, 20]; 10 exactly for upside in [0, 10) and 4 exactly below -40 |
| Audit.ValuationBracketAgrees | mfses_engine.py:663-678 | with positive EPS and price, the bracket's tier is the valuation score |
| Audit.ValuationBracketAgreesIff | mfses_engine.py:663-678 | bracket and score agree exactly unless EPS ≤ 0 with a positive price, where the bracket is "<-40% upside" |
| Audit.LiveValuationBracket | mfses_engine.py:663-678 | the ladder over the unrounded upside; `Audit.ValuationBracketAgreesIff` says when its tier is the valuation score |
| Audit.BracketReadsUnroundedUpside | mfses_engine.py:678 | an upside of -0.04% gets the "-20-0% upside" tier although it is displayed as 0.0, whose tier would be "0-10% upside" |
| Audit.AuditGraham | mfses_engine.py:663-665 | the audit's own Graham formula gives calc_graham_value |
| Audit.SentimentBreakdown | mfses_engine.py:680-685 | the breakdown's terms are calc_sentiment's, so its total is the sentiment score |
| Audit.WarningsCharacterised | mfses_engine.py:591-614 | each warning is present exactly when its rule fires; there is no range warning for an unknown ticker, no sample warning on live data, and at most five warnings |
| Audit.WarningMembership | mfses_engine.py:591-614 | a warning is in the list exactly when its own rule produces it |
| Audit.WarningsOf | mfses_engine.py:591-614 | the warnings in the order the rules append them; `Audit.WarningsCharacterised` and `Audit.WarningMembership` characterise it |
| Audit.OutsideExpected | mfses_engine.py:613 | a cap inside a non-negative expected range never fires; firing implies the cap is outside [low, high] |
| Audit.RangeWarning | mfses_engine.py:611-614 | at most one warning; present exactly for a ticker with an expected range whose rule fires, and then it carries the cap and the range |
| Audit.BuildWarnings | mfses_engine.py:591-614 | the appending computation equals the warning list |
| Pipeline.SampleChangePct | mfses_engine.py:491 | change% × (price − change) = 100 × change; 0 when price equals change |
| Pipeline.SampleRecord | mfses_engine.py:519-559 | the sample record: every bracket reads "Sample", debt and equity are 0, and the only warning is the sample warning; `Pipeline.SampleScoresInRange` and `Pipeline.AppleSampleScenario` are its properties |
| Pipeline.SampleStockOf | mfses_engine.py:483-559 | a sample record exists exactly for a registered ticker, and it carries that ticker and only the sample warning |
| Pipeline.SampleStock | mfses_engine.py:483-559 | the sample record; `Pipeline.SampleScoresInRange`, `Pipeline.SampleStateColdOrWarm` and `Pipeline.AppleSampleScenario` are its properties |
| Pipeline.LiveStock | mfses_engine.py:562-767 | the live record before validation; `Pipeline.LiveTrustedIff`, `Pipeline.LiveScoresInRange` and `Pipeline.LiveAuditAgrees` are its properties |
| Pipeline.LiveRecord | mfses_engine.py:687-767 | the audit and stock dicts; `Pipeline.LiveAuditAgrees` proves the brackets, breakdown and Graham value consistent with the scores |
| Pipeline.RoundedRatio | mfses_engine.py:740 | `round(debt_equity, 2) if … is not None else None`: known exactly when D/E is known, and then within 0.005 of it |
| Pipeline.IsTrusted | mfses_engine.py:468-480 | validate_stock: the market cap and the rounded price are both non-zero; `Pipeline.LiveTrustedIff` restates it on the fetched price |
| Pipeline.ProcessedStock | mfses_engine.py:562-776 | the record process_ticker returns; `Pipeline.ProcessedFallsBackToSample` and `Pipeline.ProcessedScoresInRange` are its properties |
| Pipeline.CreateStockFromSample | mfses_engine.py:483-559 | the step-by-step construction equals SampleStockOf |
| Pipeline.ProcessTicker | mfses_engine.py:562-776 | the step-by-step computation equals ProcessedStock |
| Pipeline.LiveTrustedIff | mfses_engine.py:468-480 | validate_stock accepts the live record exactly when the market cap is non-zero and the price does not round to 0.00 |
| Pipeline.ProcessedFallsBackToSample | mfses_engine.py:768-776 | the record keeps the ticker; it carries the sample warning exactly when validation failed and a sample exists, and is then that sample's record; otherwise it is the live record |
| Pipeline.UnvalidatedRecordIsFlagged | mfses_engine.py:768-776 | with a zero market cap and no sample, the rejected live record is returned flagged "market cap missing" |
| Pipeline.ZeroPriceRecordKeptUnflagged | mfses_engine.py:768-776 | validate_stock (468-480) rejects a zero price; with a non-zero cap and no sample: the rejected live record is returned, with neither the market-cap nor the sample warning |
| Pipeline.CompositesInRange | mfses_engine.py:146-176 | sub-scores in the scorers' ranges give composites in [2, 20] |
| Pipeline.LiveScoresInRange | mfses_engine.py:573-581 | every live record's scores and composites are in range |
| Pipeline.SampleScoresInRange | mfses_engine.py:500-508 | every sample record's scores and composites are in range |
| Pipeline.ProcessedScoresInRange | mfses_engine.py:562-776 | whichever record process_ticker returns, its scores are in range |
| Pipeline.LiveAuditAgrees | mfses_engine.py:687-722 | the live audit's brackets, breakdown and Graham value agree with the scores, with the one valuation exception |
| Pipeline.SampleStateColdOrWarm | mfses_engine.py:510-512 | a sample with positive volume is always COLD or WARM |
| Pipeline.AppleSampleScenario | mfses_engine.py:33 | the Apple entry scores (20, 12, 8, 8, 12), Graham 226.12, upside -4.8%, composites 12.0 / 12.4 / 12.6, COLD |
| Ranking.InsertBy | mfses_engine.py:1527 | an insertion adds one element; it goes first exactly when no existing front key is at least its key |
| Ranking.SortBy | mfses_engine.py:1527 | insertion sort by key; `Ranking.SortBySorted`, `Ranking.SortByPermutes` and `Ranking.SortByStable` make it `sort(key, reverse=True)` |
| Ranking.SortedIsDescending | mfses_engine.py:1527 | neighbour order implies that every earlier key is at least every later one |
| Ranking.InsertByPermutes | mfses_engine.py:1527 | an insertion adds exactly the inserted element |
| Ranking.InsertBySorted | mfses_engine.py:1527 | inserting into a sorted list keeps it sorted |
| Ranking.SortBySorted | mfses_engine.py:1527 | the sort's result is in descending key order |
| Ranking.SortByPermutes | mfses_engine.py:1527 | the sort's result is a permutation of its input |
| Ranking.WithKeyAppend | mfses_engine.py:1527 | filtering by key distributes over concatenation |
| Ranking.NoneWithHigherKey | mfses_engine.py:1527 | a sorted list whose first key is below k holds nothing with key k |
| Ranking.WithKeyInsert | mfses_engine.py:1527 | an insertion puts the new element after all existing elements with its key |
| Ranking.SortByStable | mfses_engine.py:1527 | the sort is stable: the records with any given key keep their input order |
| Ranking.SortStocks | mfses_engine.py:1527 | the insertion loop equals SortBy by mid score |
| Ranking.Key | mfses_engine.py:1527 | the sort key `x["mid_score"]`, the rounded mid composite; `Ranking.RunBatch` sorts by it |
| Ranking.MapInOrder | mfses_engine.py:1520-1523 | the mapped list has the input's length, and its element i is f of input element i |
| Ranking.ProcessAll | mfses_engine.py:1520-1524 | one record per ticker, in order: record i is what process_ticker returns for ticker i |
| Ranking.ProcessTickers | mfses_engine.py:1520-1524 | the processing loop equals ProcessAll |
| Ranking.RunBatch | mfses_engine.py:1518-1527 | the result is the sorted processed list: one record per ticker, descending by mid score, a permutation, and stable among equal scores |

## Left out

- The HTTP fetches are left out. `api_request`, `get_price_data`,
  `get_ticker_details`, `get_avg_volume` and the provider calls inside
  `get_financials` and `get_dividends` become inputs: a `TickerInput` holds
  what they returned.
    - The filings arrive newest first.
    - Missing numeric fields arrive as 0.
    - A text field that is missing is told apart from one that is null
      (`Financials.TextField`), since `.get(key, "")` returns "" for the
      first and None for the second.
- `SAMPLE_DATA` and the `expected_caps` table are parameters
  (`samples`, `expectedCaps`). `Pipeline.AppleSampleScenario` fixes the Apple
  entry, and every property holds for any table.
- Console output, the debug prints, the HTML and JSON report, file writes
  and the UTC timestamp are left out: they do not affect the records.
- The audit's text is left out.
    - The `input` and formula strings are f-strings of display values.
    - The warning messages are constructors of `Audit.Warning`;
      `MarketCapOutOfRange` carries the numbers its message prints.
- Floating point is modelled as exact reals.
    - `Common.RoundHalfEven`, `RoundTenth` and `RoundCent` round the exact
      real half-to-even. Python rounds the binary double, so a value whose
      double lies just off a tie may round the other way.
    - For the composites exact ties are common. Twenty times each exact
      weighting is a whole number (`Composite.BlendIsMultipleOfOneTwentieth`).
      So a weighting is a tie at the second decimal whenever that number is
      odd, for example when moat + sentiment is odd for the mid score. Python's
      result is then decided by the float error of the weighted sum. The model's
      `mid` may then differ from Python's by 0.1, and the mid-score sort
      can order two such records differently.
    - Comparisons and products such as `market_cap > 50e9` and
      `liabilities * 0.5` use the exact decimal constants.
- `Text.UpperChar` and `Text.Upper` upper-case ASCII letters only, one
  character for one. `str.upper()` also maps non-ASCII letters and can change
  the length (`"ß".upper()` is `"SS"`), so `Text.Upper`'s `|r| == |s|` does
  not hold for Python. The keyword test can differ too: `'ſ'` and `'ı'`
  upper-case to ASCII `'S'` and `'I'`, so "ſoftware" is a tech sector in the
  source but not in the model.
- `Pipeline.Sample.debtEquity` is a real, not an optional. Every entry of
  `SAMPLE_DATA` has one, and formatting a missing one would raise in the
  sample audit's f-string.
- `USE_SAMPLE_DATA` is never read by the code, so it is not modelled.
- Only the mid-term sort of `main` is modelled. The report's client-side
  re-sorting is part of the HTML.
- The raw net income and revenue are carried through `Financials` but not
  displayed. The logo URL and homepage are passed through unchanged.
- Provider data is assumed well-formed. Malformed data raises in the source and
  aborts process_ticker and hence `main`, which the model's types cannot
  express; for example:
    - `int(f.get("fiscal_year", 0))` on a null year or a string that does not
      parse (mfses_engine.py:376 and 382);
    - a null `sic_description`: `.get` at mfses_engine.py:264 has no `or`
      guard, so `sector.upper()` at lines 135 and 684 raises
      (`Pipeline.Details.sector` is a `string`);
    - a null `cash_amount`: `sum(...)` at mfses_engine.py:440 raises
      (`Pipeline.TickerInput.dividendPayments` is a `seq<real>`);
    - a null where a nested object is expected, such as the `financials`,
      `income_statement` or `balance_sheet` of a filing: the chained `.get`
      at mfses_engine.py:314-319 raises on None.
