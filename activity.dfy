/** calc_markov_state: a qualitative activity label derived from relative
    volume and the size of the day's price move. */
module Activity {
  import opened Common

  datatype ActivityState = Hot | Warm | Cold | Frozen

  /** Volume component: the ratio tiers are tried in priority order;
      nothing is added when there is no average volume. */
  function VolumeTerm(volume: real, avgVolume: real): (t: int)
    ensures -1 <= t <= 3
    ensures avgVolume <= 0.0 ==> t == 0
    ensures avgVolume > 0.0 ==> (t == 3 <==> volume / avgVolume > 2.5)
    ensures avgVolume > 0.0 ==> (t == -1 <==> volume / avgVolume < 0.5)
  {
    if avgVolume > 0.0 then
      var ratio := volume / avgVolume;
      if ratio > 2.5 then 3
      else if ratio > 1.5 then 2
      else if ratio > 1.0 then 1
      else if ratio < 0.5 then -1
      else 0
    else 0
  }

  /** Price movement component on the absolute change percentage. */
  function PriceTerm(changePct: real): (t: int)
    ensures 0 <= t <= 3
    ensures t == 0 <==> Abs(changePct) <= 1.5
    ensures t == 3 <==> Abs(changePct) > 5.0
  {
    var absChange := Abs(changePct);
    if absChange > 5.0 then 3
    else if absChange > 3.0 then 2
    else if absChange > 1.5 then 1
    else 0
  }

  /** The accumulated activity score. */
  function ActivityScore(volume: real, avgVolume: real, changePct: real): (a: int)
    ensures -1 <= a <= 6
    ensures a == 6 <==> avgVolume > 0.0 && volume / avgVolume > 2.5 && Abs(changePct) > 5.0
  {
    VolumeTerm(volume, avgVolume) + PriceTerm(changePct)
  }

  /** The state ladder over the activity score. */
  function StateOf(activity: int): (s: ActivityState)
    ensures s == Hot <==> activity >= 5
    ensures s == Warm <==> 3 <= activity <= 4
    ensures s == Cold <==> 1 <= activity <= 2
    ensures s == Frozen <==> activity <= 0
  {
    if activity >= 5 then Hot
    else if activity >= 3 then Warm
    else if activity >= 1 then Cold
    else Frozen
  }

  /** calc_markov_state: accumulates the two components into `activity`
      and maps the total to a state. */
  method MarkovState(volume: real, avgVolume: real, changePct: real) returns (state: ActivityState)
    ensures state == StateOf(ActivityScore(volume, avgVolume, changePct))
  {
    var activity := 0;

    if avgVolume > 0.0 {
      var volRatio := volume / avgVolume;
      if volRatio > 2.5 {
        activity := activity + 3;
      } else if volRatio > 1.5 {
        activity := activity + 2;
      } else if volRatio > 1.0 {
        activity := activity + 1;
      } else if volRatio < 0.5 {
        activity := activity - 1;
      }
    }

    var absChange := Abs(changePct);
    if absChange > 5.0 {
      activity := activity + 3;
    } else if absChange > 3.0 {
      activity := activity + 2;
    } else if absChange > 1.5 {
      activity := activity + 1;
    }

    if activity >= 5 {
      state := Hot;
    } else if activity >= 3 {
      state := Warm;
    } else if activity >= 1 {
      state := Cold;
    } else {
      state := Frozen;
    }
  }

  /** Three times the usual volume and a 6% move give activity 6: HOT. */
  lemma VolumeSpikeWithBigMoveIsHot(avgVolume: real, changePct: real)
    requires avgVolume > 0.0 && Abs(changePct) == 6.0
    ensures ActivityScore(3.0 * avgVolume, avgVolume, changePct) == 6
    ensures StateOf(ActivityScore(3.0 * avgVolume, avgVolume, changePct)) == Hot
  {
    assert 3.0 * avgVolume / avgVolume == 3.0;
  }

  /** With an average volume of 90% of the day's volume (the estimate used
      for sample data) the ratio is 10/9, so the volume term is +1. */
  lemma NinetyPercentAverageAddsOne(volume: real)
    requires volume > 0.0
    ensures VolumeTerm(volume, volume * 0.9) == 1
  {
    assert volume / (volume * 0.9) * (volume * 0.9) == volume;
    assert volume / (volume * 0.9) == 10.0 / 9.0;
  }
}
