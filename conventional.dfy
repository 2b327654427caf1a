/**
 * The conventional strategy (algorithms/conventional.go): 80/20 integer
 * smoothing of the throughput, seeded by a package variable that starts at -1.
 */
module Conventional {
  import opened GoNum
  import opened HelperFunctions
  import CalcFunctions

  /** The marker value of the package variable `thr` before the first sample. */
  const Unseeded: int := -1

  /**
   * The next smoothed throughput: the raw sample on the first call, otherwise
   * `(8*thr)/10 + (2*newThr)/10` with Go's truncating division on each term.
   */
  function Smoothed(thr: int, newThr: int): int
  {
    if thr == Unseeded then newThr else Quo(8 * thr, 10) + Quo(2 * newThr, 10)
  }

  /** The state the strategy keeps between calls. */
  class ConventionalAbr {
    /** The package variable `thr`. */
    var thr: int
    /** The history `*thrList`, holding smoothed values. */
    var thrList: seq<int>
    /** The rung `*repRate`. */
    var repRate: int

    constructor (history: seq<int>, rate: int)
      ensures thr == Unseeded && thrList == history && repRate == rate
    {
      thr := Unseeded;
      thrList := history;
      repRate := rate;
    }

    /** Conventional: smooth, append the smoothed value, select a rung on it. */
    method Conventional(newThr: int, bandwithList: seq<int>, lowestMPDrepRateIndex: int)
      modifies this
      ensures old(thr) == Unseeded ==> thr == newThr
      ensures old(thr) != Unseeded ==> thr == Quo(8 * old(thr), 10) + Quo(2 * newThr, 10)
      ensures thrList == old(thrList) + [thr]
      ensures repRate == SelectedRung(thr, bandwithList, lowestMPDrepRateIndex)
    {
      if thr == Unseeded {
        thr := newThr;
        thrList := thrList + [thr];
      } else {
        thr := Quo(8 * thr, 10) + Quo(2 * newThr, 10);
        thrList := thrList + [thr];
      }
      repRate := SelectRepRateWithThroughtput(thr, bandwithList, lowestMPDrepRateIndex);
    }
  }

  /**
   * For non-negative inputs after the first call, the smoothed value is the
   * exact 80/20 mix rounded down by less than two units.
   */
  lemma SmoothedMix(thr: int, newThr: int)
    requires thr >= 0 && newThr >= 0
    ensures thr == 0 ==> Smoothed(thr, newThr) == Quo(2 * newThr, 10)
    ensures 10 * Smoothed(thr, newThr) <= 8 * thr + 2 * newThr
    ensures 8 * thr + 2 * newThr < 10 * Smoothed(thr, newThr) + 20
  {
    QuoNonNegative(8 * thr, 10);
    QuoNonNegative(2 * newThr, 10);
  }

  /**
   * Hence the smoothed value never exceeds the larger input and is at most one
   * below the smaller one.
   */
  lemma SmoothedBetween(thr: int, newThr: int)
    requires thr >= 0 && newThr >= 0
    ensures Smoothed(thr, newThr) <= CalcFunctions.Max(thr, newThr)
    ensures CalcFunctions.Min(thr, newThr) - 1 <= Smoothed(thr, newThr)
  {
    SmoothedMix(thr, newThr);
  }

  /**
   * The smoothed value can itself be -1, so a later call treats the strategy
   * as unseeded again and takes the raw sample.
   */
  lemma SentinelReachable()
    ensures Smoothed(0, -5) == Unseeded
    ensures Smoothed(Smoothed(0, -5), 42) == 42
  {
  }
}
