/**
 * The exponential-average strategy (algorithms/exponential.go): select a rung
 * on int(ExpAverage(history, ratio, window)).
 */
module Exponential {
  import opened GoNum
  import opened HelperFunctions

  /** The rung EMWAAverageAlgo selects once the history (with the new sample) is `history`. */
  function EmwaRung(history: seq<int>, exponentialRatio: real, window: int, bandwithList: seq<int>,
                    lowest: int): (r: int)
    requires |history| >= 1
    ensures |history| == 1 ==> r == SelectedRung(history[0], bandwithList, lowest)
    ensures |history| >= 2 ==>
      r == SelectedRung(ToInt(ExpAverageOf(history, exponentialRatio, window)), bandwithList, lowest)
    ensures r == lowest || 0 <= r < |bandwithList| - 1
  {
    if |history| < 2 then SelectedRung(history[|history| - 1], bandwithList, lowest)
    else SelectedRung(ToInt(ExpAverageOf(history, exponentialRatio, window)), bandwithList, lowest)
  }

  /** The state the strategy keeps between calls. */
  class EmwaAbr {
    var thrList: seq<int>
    var repRate: int

    constructor (history: seq<int>, rate: int)
      ensures thrList == history && repRate == rate
    {
      thrList := history;
      repRate := rate;
    }

    /** EMWAAverageAlgo: append the raw sample, then select on it or on the weighted average. */
    method EMWAAverageAlgo(exponentialRatio: real, window: int, newThr: int, bandwithList: seq<int>,
                           lowestMPDrepRateIndex: int)
      modifies this
      ensures thrList == old(thrList) + [newThr]
      ensures repRate == EmwaRung(thrList, exponentialRatio, window, bandwithList, lowestMPDrepRateIndex)
    {
      thrList := thrList + [newThr];
      if |thrList| < 2 {
        repRate := SelectRepRateWithThroughtput(newThr, bandwithList, lowestMPDrepRateIndex);
        return;
      }
      var average := ExpAverage(thrList, exponentialRatio, window);
      repRate := SelectRepRateWithThroughtput(ToInt(average), bandwithList, lowestMPDrepRateIndex);
    }
  }

  /**
   * With a ratio of 0 (the command-line default) every weight is 0/0, so
   * for a history of two or more samples the average over any non-empty
   * window is NaN, and the lowest index is selected unless some rung above
   * the last has a bitrate below -2^63.
   */
  lemma ZeroRatioSelectsFallback(history: seq<int>, window: int, bandwithList: seq<int>, lowest: int)
    requires |history| >= 2 && window != 0
    requires forall i :: 0 <= i < |bandwithList| ==> bandwithList[i] >= MinInt64
    ensures EmwaRung(history, 0.0, window, bandwithList, lowest) == lowest
  {
    var m := ExpWindowSize(window, |history|);
    var samples := NewestFirst(history, m);
    assert m >= 1;
    ZeroRatioNaN(samples, |samples|);
  }

  lemma {:induction false} ZeroRatioNaN(samples: seq<int>, k: nat)
    requires 1 <= k <= |samples|
    ensures WeightedPrefix(samples, 0.0, k) == NaN
  {
    assert WeightSum(0.0, |samples|) == 0.0 by { PowOne(|samples|); }
    assert RawWeight(0.0, |samples|, k - 1) == 0.0;
    if k > 1 {
      ZeroRatioNaN(samples, k - 1);
    }
  }

  lemma {:induction false} PowOne(n: nat)
    ensures Pow(1.0, n) == 1.0
  {
    if n > 0 {
      PowOne(n - 1);
    }
  }
}
