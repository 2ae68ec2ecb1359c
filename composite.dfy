/** calc_mfses_scores: the Short, Mid and Long horizon composites, each a
    fixed weighting of the five sub-scores rounded to one decimal. */
module Composite {
  import opened Common

  datatype SubScores = SubScores(moat: int, growth: int, balance: int, valuation: int, sentiment: int)

  /** One weight per factor. */
  datatype Weights = Weights(moat: real, growth: real, balance: real, valuation: real, sentiment: real)

  datatype Composites = Composites(short: real, mid: real, long: real)

  /** Short term (0-6 months): growth and momentum first. */
  const ShortWeights := Weights(moat := 0.15, growth := 0.30, balance := 0.10, valuation := 0.20, sentiment := 0.25)
  /** Mid term (1-3 years): balanced. */
  const MidWeights := Weights(moat := 0.25, growth := 0.20, balance := 0.15, valuation := 0.25, sentiment := 0.15)
  /** Long term (5+ years): quality and safety first. */
  const LongWeights := Weights(moat := 0.30, growth := 0.15, balance := 0.25, valuation := 0.20, sentiment := 0.10)

  /** Non-negative weights that sum to one. */
  predicate IsConvex(w: Weights)
  {
    && w.moat >= 0.0 && w.growth >= 0.0 && w.balance >= 0.0 && w.valuation >= 0.0 && w.sentiment >= 0.0
    && w.moat + w.growth + w.balance + w.valuation + w.sentiment == 1.0
  }

  lemma HorizonWeightsConvex()
    ensures IsConvex(ShortWeights) && IsConvex(MidWeights) && IsConvex(LongWeights)
  {
  }

  function MinScore(s: SubScores): (m: int)
    ensures m <= s.moat && m <= s.growth && m <= s.balance && m <= s.valuation && m <= s.sentiment
    ensures m in {s.moat, s.growth, s.balance, s.valuation, s.sentiment}
  {
    var a := if s.moat <= s.growth then s.moat else s.growth;
    var b := if a <= s.balance then a else s.balance;
    var c := if b <= s.valuation then b else s.valuation;
    if c <= s.sentiment then c else s.sentiment
  }

  function MaxScore(s: SubScores): (m: int)
    ensures m >= s.moat && m >= s.growth && m >= s.balance && m >= s.valuation && m >= s.sentiment
    ensures m in {s.moat, s.growth, s.balance, s.valuation, s.sentiment}
  {
    var a := if s.moat >= s.growth then s.moat else s.growth;
    var b := if a >= s.balance then a else s.balance;
    var c := if b >= s.valuation then b else s.valuation;
    if c >= s.sentiment then c else s.sentiment
  }

  /** The weighted sum of the five sub-scores, before rounding. */
  function Blend(w: Weights, s: SubScores): real
  {
    s.moat as real * w.moat + s.growth as real * w.growth + s.balance as real * w.balance
    + s.valuation as real * w.valuation + s.sentiment as real * w.sentiment
  }

  /** The three weightings calc_mfses_scores uses. */
  predicate IsHorizon(w: Weights)
  {
    w == ShortWeights || w == MidWeights || w == LongWeights
  }

  /** Each horizon's exact weighting lies between the smallest and the
      largest sub-score. */
  lemma BlendBetweenMinAndMax(w: Weights, s: SubScores)
    requires IsHorizon(w)
    ensures MinScore(s) as real <= Blend(w, s) <= MaxScore(s) as real
  {
    BlendIsMultipleOfOneTwentieth(s);
  }

  /** Rounding a horizon's weighting to a tenth keeps it within the integer
      minimum and maximum of the sub-scores. */
  lemma RoundedBlendBetweenMinAndMax(w: Weights, s: SubScores)
    requires IsHorizon(w)
    ensures MinScore(s) as real <= RoundTenth(Blend(w, s)) <= MaxScore(s) as real
  {
    BlendBetweenMinAndMax(w, s);
    RoundTenthMonotone(MinScore(s) as real, Blend(w, s));
    RoundTenthMonotone(Blend(w, s), MaxScore(s) as real);
    RoundTenthOfInt(MinScore(s));
    RoundTenthOfInt(MaxScore(s));
  }

  /** calc_mfses_scores: each horizon is its weighting rounded to one
      decimal, so it stays within 0.05 of the exact weighted sum and between
      the smallest and largest sub-score. */
  function MfsesScores(s: SubScores): (c: Composites)
    ensures Blend(ShortWeights, s) - 0.05 <= c.short <= Blend(ShortWeights, s) + 0.05
    ensures Blend(MidWeights, s) - 0.05 <= c.mid <= Blend(MidWeights, s) + 0.05
    ensures Blend(LongWeights, s) - 0.05 <= c.long <= Blend(LongWeights, s) + 0.05
    ensures MinScore(s) as real <= c.short <= MaxScore(s) as real
    ensures MinScore(s) as real <= c.mid <= MaxScore(s) as real
    ensures MinScore(s) as real <= c.long <= MaxScore(s) as real
  {
    RoundedBlendBetweenMinAndMax(ShortWeights, s);
    RoundedBlendBetweenMinAndMax(MidWeights, s);
    RoundedBlendBetweenMinAndMax(LongWeights, s);
    Composites(RoundTenth(Blend(ShortWeights, s)), RoundTenth(Blend(MidWeights, s)), RoundTenth(Blend(LongWeights, s)))
  }

  /** Every exact weighting of integer sub-scores is a multiple of 0.05:
      twenty times it is a whole number, so one-decimal halfway cases occur. */
  lemma BlendIsMultipleOfOneTwentieth(s: SubScores)
    ensures Blend(ShortWeights, s) * 20.0 == (3 * s.moat + 6 * s.growth + 2 * s.balance + 4 * s.valuation + 5 * s.sentiment) as real
    ensures Blend(MidWeights, s) * 20.0 == (5 * s.moat + 4 * s.growth + 3 * s.balance + 5 * s.valuation + 3 * s.sentiment) as real
    ensures Blend(LongWeights, s) * 20.0 == (6 * s.moat + 3 * s.growth + 5 * s.balance + 4 * s.valuation + 2 * s.sentiment) as real
  {
  }
}
