/**
 * The buffer-based strategy (algorithms/bba2.go): a reservoir computed from
 * the sizes of the coming segments, a rate map between the reservoir and 90%
 * of the buffer, and rules for slow and fast downloads.
 *
 * The segment sizes that the source asks the server for with HTTP HEAD
 * requests are an oracle `segmentSize(n)`: the size of segment n at the last
 * rung.
 */
module Bba {
  import opened Wrappers
  import opened GoNum
  import opened HelperFunctions
  import CalcFunctions
  import Average
  import Logistic

  // ---------------------------------------------------------------- reservoir

  /**
   * How the reservoir window's sizes split: (Σ sizes above avgSegSize,
   * Σ sizes at or below it) over segments segmentNumber .. segmentNumber+count-1.
   */
  function WindowSplit(segmentSize: int -> int, segmentNumber: int, avgSegSize: int, count: int): (int, int)
  {
    if count <= 0 then (0, 0)
    else
      var (large, small) := WindowSplit(segmentSize, segmentNumber, avgSegSize, count - 1);
      var size := SizeAt(segmentSize, segmentNumber, count - 1);
      if size > avgSegSize then (large + size, small) else (large, small + size)
  }

  /** The size of the segment `offset` places after `segmentNumber`. */
  function SizeAt(segmentSize: int -> int, segmentNumber: int, offset: int): int
  {
    segmentSize(segmentNumber + offset)
  }

  /** Σ sizes over the same window. */
  function WindowTotal(segmentSize: int -> int, segmentNumber: int, count: int): int
  {
    if count <= 0 then 0 else WindowTotal(segmentSize, segmentNumber, count - 1) + SizeAt(segmentSize, segmentNumber, count - 1)
  }

  /** The two parts of the split add up to the window's total. */
  lemma {:induction false} WindowSplitTotal(segmentSize: int -> int, segmentNumber: int, avgSegSize: int, count: int)
    ensures WindowSplit(segmentSize, segmentNumber, avgSegSize, count).0
          + WindowSplit(segmentSize, segmentNumber, avgSegSize, count).1
         == WindowTotal(segmentSize, segmentNumber, count)
  {
    if count > 0 {
      WindowSplitTotal(segmentSize, segmentNumber, avgSegSize, count - 1);
    }
  }

  /** All sizes above the average: the whole window is "large". */
  lemma {:induction false} AllLarge(segmentSize: int -> int, segmentNumber: int, avgSegSize: int, count: int)
    requires forall i :: 0 <= i < count ==> SizeAt(segmentSize, segmentNumber, i) > avgSegSize
    ensures WindowSplit(segmentSize, segmentNumber, avgSegSize, count)
         == (WindowTotal(segmentSize, segmentNumber, count), 0)
  {
    if count > 0 {
      AllLarge(segmentSize, segmentNumber, avgSegSize, count - 1);
    }
  }

  /**
   * The clamp of the reservoir: raised to 2·lastSegmentDuration when below it,
   * otherwise capped at 0.6·maxBufferLevel·1000 (NaN passes through both tests).
   */
  function ClampReservoir(reservoir: Float64, lastSegmentDuration: int, maxBufferLevel: int): Float64
  {
    if Below(reservoir, (2 * lastSegmentDuration) as real) then Fin((2 * lastSegmentDuration) as real)
    else if Above(reservoir, 0.6 * (maxBufferLevel * 1000) as real) then Fin(0.6 * (maxBufferLevel * 1000) as real)
    else reservoir
  }

  /**
   * The reservoir bba1UpdateReservoir returns, in ms of buffer, or the panic of
   * a zero segment duration or a last rung outside the ladder.
   */
  function Reservoir(lastRate: int, lastRateIndex: int, mpdDuration: int, lastSegmentDuration: int,
                     maxBufferLevel: int, bandwithList: seq<int>, segmentNumber: int,
                     segmentSize: int -> int): (r: Result<int>)
    ensures r.Err? <==> lastSegmentDuration == 0 || !(0 <= lastRate < |bandwithList|)
  {
    if lastSegmentDuration == 0 then Err(DivideByZero)
    else if !(0 <= lastRate < |bandwithList|) then Err(IndexOutOfRange)
    else
      var resvWin := CalcFunctions.Min(Quo(2 * maxBufferLevel * 1000, lastSegmentDuration),
                                       Quo(mpdDuration, lastSegmentDuration) - lastRateIndex);
      var rateKbps := Quo(bandwithList[lastRate], Conversion1000);
      var avgSegSize := Quo(rateKbps * lastSegmentDuration, 8000);
      var (large, small) := WindowSplit(segmentSize, segmentNumber, avgSegSize, resvWin);
      var reservoir := Div((8 * (large - small)) as real, rateKbps as real);
      Ok(ToInt(ClampReservoir(reservoir, lastSegmentDuration, maxBufferLevel)))
  }

  /** bba1UpdateReservoir, with its loop over the reservoir window. */
  method Bba1UpdateReservoir(lastRate: int, lastRateIndex: int, mpdDuration: int, lastSegmentDuration: int,
                             maxBufferLevel: int, bandwithList: seq<int>, segmentNumber: int,
                             segmentSize: int -> int) returns (r: Result<int>)
    ensures r == Reservoir(lastRate, lastRateIndex, mpdDuration, lastSegmentDuration, maxBufferLevel,
                           bandwithList, segmentNumber, segmentSize)
  {
    if lastSegmentDuration == 0 {
      return Err(DivideByZero);
    }
    var resvWin := CalcFunctions.Min(Quo(2 * maxBufferLevel * 1000, lastSegmentDuration),
                                     Quo(mpdDuration, lastSegmentDuration) - lastRateIndex);
    if !(0 <= lastRate < |bandwithList|) {
      return Err(IndexOutOfRange);
    }
    var avgSegSize := Quo(Quo(bandwithList[lastRate], Conversion1000) * lastSegmentDuration, 8000);
    var largeSeg := 0;
    var smallSeg := 0;
    var i := 0;
    while i < resvWin
      invariant resvWin <= 0 ==> i == 0
      invariant resvWin > 0 ==> 0 <= i <= resvWin
      invariant (largeSeg, smallSeg) == WindowSplit(segmentSize, segmentNumber, avgSegSize, i)
    {
      if segmentSize(segmentNumber + i) > avgSegSize {
        largeSeg := largeSeg + segmentSize(segmentNumber + i);
      } else {
        smallSeg := smallSeg + segmentSize(segmentNumber + i);
      }
      i := i + 1;
    }
    var reservoir := Div((8 * (largeSeg - smallSeg)) as real, Quo(bandwithList[lastRate], Conversion1000) as real);
    if Below(reservoir, (2 * lastSegmentDuration) as real) {
      reservoir := Fin((2 * lastSegmentDuration) as real);
    } else {
      if Above(reservoir, 0.6 * (maxBufferLevel * 1000) as real) {
        reservoir := Fin(0.6 * (maxBufferLevel * 1000) as real);
      }
    }
    return Ok(ToInt(reservoir));
  }

  /** int(x) of a value between a non-negative integer and a bound that fits in 64 bits stays between them. */
  lemma ToIntBetween(x: real, lo: int, hi: real)
    requires 0 <= lo && lo as real <= x <= hi <= MaxInt64 as real
    ensures lo <= ToInt(Fin(x)) && ToInt(Fin(x)) as real <= hi
  {
    assert Trunc(x) as real <= x < Trunc(x) as real + 1.0;
  }

  /**
   * For a non-negative segment duration, a finite reservoir estimate ends
   * between 2·lastSegmentDuration and 0.6·maxBufferLevel·1000 (when that
   * range is not empty and fits in 64 bits).
   */
  lemma ClampBounds(reservoir: real, lastSegmentDuration: int, maxBufferLevel: int)
    requires 0 <= lastSegmentDuration
    requires (2 * lastSegmentDuration) as real <= 0.6 * (maxBufferLevel * 1000) as real <= MaxInt64 as real
    ensures 2 * lastSegmentDuration <= ToInt(ClampReservoir(Fin(reservoir), lastSegmentDuration, maxBufferLevel))
    ensures ToInt(ClampReservoir(Fin(reservoir), lastSegmentDuration, maxBufferLevel)) as real
         <= 0.6 * (maxBufferLevel * 1000) as real
  {
    var c := ClampReservoir(Fin(reservoir), lastSegmentDuration, maxBufferLevel);
    assert c.Fin? && (2 * lastSegmentDuration) as real <= c.val <= 0.6 * (maxBufferLevel * 1000) as real;
    ToIntBetween(c.val, 2 * lastSegmentDuration, 0.6 * (maxBufferLevel * 1000) as real);
  }

  /**
   * A last rung below 1000 bit/s with a balanced window divides 0 by 0: the
   * reservoir is int(NaN) = -2^63, so the buffer is never below it.
   */
  lemma ZeroRateReservoir(lastSegmentDuration: int, maxBufferLevel: int)
    ensures ToInt(ClampReservoir(Div(0.0, 0.0), lastSegmentDuration, maxBufferLevel)) == MinInt64
  {
  }

  // ---------------------------------------------------------------- rate map

  /** float64(bufferLevel/1000) >= 0.9·maxBufferLevel, with Go's integer division. */
  predicate BufferAboveCushion(bufferLevel: int, maxBufferLevel: int)
  {
    Quo(bufferLevel, Conversion1000) as real >= 0.9 * maxBufferLevel as real
  }

  /** The throughput handed to rung selection: int((target + 1)·1000), target = (high − low)/(0.9·max − reservoir). */
  function VraaTarget(bandwithList: seq<int>, maxBufferLevel: int, reservoir: int): int
    requires |bandwithList| > 0
  {
    var spread := Logistic.Kbps(Logistic.MaxOf(bandwithList)) - Logistic.Kbps(Logistic.MinOf(bandwithList));
    ToInt(Scale(Plus(Div(spread, 0.9 * maxBufferLevel as real - reservoir as real), 1.0), 1000.0))
  }

  /** optRateIndex of bba1VRAA (a panic for an empty ladder). */
  function VraaOptIndex(bufferLevel: int, maxBufferLevel: int, bandwithList: seq<int>, lowest: int,
                        reservoir: int): (r: Result<int>)
    ensures r.Err? <==> !BufferAboveCushion(bufferLevel, maxBufferLevel) && |bandwithList| == 0
    ensures BufferAboveCushion(bufferLevel, maxBufferLevel) ==> r == Ok(0)
  {
    if BufferAboveCushion(bufferLevel, maxBufferLevel) then Ok(0)
    else if |bandwithList| == 0 then Err(IndexOutOfRange)
    else Ok(SelectedRung(VraaTarget(bandwithList, maxBufferLevel, reservoir), bandwithList, lowest))
  }

  /** The index bba1VRAA returns: optRateIndex remapped as in the logistic strategy. */
  function Vraa(lastRateIndex: int, bufferLevel: int, highest: int, lowest: int, maxBufferLevel: int,
                bandwithList: seq<int>, reservoir: int): (r: Result<int>)
    ensures r.Err? <==> !BufferAboveCushion(bufferLevel, maxBufferLevel) && |bandwithList| == 0
  {
    match VraaOptIndex(bufferLevel, maxBufferLevel, bandwithList, lowest, reservoir)
    case Err(f) => Err(f)
    case Ok(opt) =>
      Ok(Logistic.Remap(opt, lastRateIndex, Logistic.RateU(lastRateIndex, highest),
                        Logistic.RateL(lastRateIndex, lowest), lowest))
  }

  /** The optRateIndex computation of bba1VRAA. */
  method VraaOptRateIndex(bufferLevel: int, maxBufferLevel: int, bandwithList: seq<int>, lowestMPDrepRateIndex: int,
                          reservoir: int) returns (r: Result<int>)
    ensures r == VraaOptIndex(bufferLevel, maxBufferLevel, bandwithList, lowestMPDrepRateIndex, reservoir)
  {
    if Quo(bufferLevel, Conversion1000) as real >= 0.9 * maxBufferLevel as real {
      return Ok(0);
    }
    var lowest := Logistic.LowestBitrate(bandwithList);
    var highest := Logistic.HighestBitrate(bandwithList);
    if lowest.Err? {
      return Err(lowest.failure);
    }
    var low := lowest.value as real / 1024.0;
    var high := highest.value as real / 1024.0;
    var targetRate := Div(high - low, 0.9 * maxBufferLevel as real - reservoir as real);
    assert ToInt(Scale(Plus(targetRate, 1.0), 1000.0)) == VraaTarget(bandwithList, maxBufferLevel, reservoir);
    var opt := SelectRepRateWithThroughtput(ToInt(Scale(Plus(targetRate, 1.0), 1000.0)),
                                            bandwithList, lowestMPDrepRateIndex);
    return Ok(opt);
  }

  /** bba1VRAA. */
  method Bba1VRAA(lastRateIndex: int, thrList: seq<int>, bufferLevel: int, highestMPDrepRateIndex: int,
                  lowestMPDrepRateIndex: int, maxBufferLevel: int, bandwithList: seq<int>, reservoir: int)
    returns (r: Result<int>)
    ensures r == Vraa(lastRateIndex, bufferLevel, highestMPDrepRateIndex, lowestMPDrepRateIndex, maxBufferLevel,
                      bandwithList, reservoir)
  {
    var rateUindex := CalcFunctions.Max(lastRateIndex - 1, highestMPDrepRateIndex);
    var rateLindex := CalcFunctions.Min(lastRateIndex + 1, lowestMPDrepRateIndex);
    var opt := VraaOptRateIndex(bufferLevel, maxBufferLevel, bandwithList, lowestMPDrepRateIndex, reservoir);
    if opt.Err? {
      return Err(opt.failure);
    }
    var optRateIndex := opt.value;
    if optRateIndex == 0 {
      if lastRateIndex <= lowestMPDrepRateIndex {
        return Ok(lowestMPDrepRateIndex);
      }
      return Ok(lastRateIndex - 1);
    } else if optRateIndex <= rateLindex {
      return Ok(optRateIndex);
    } else if optRateIndex >= rateUindex {
      return Ok(optRateIndex - 1);
    }
    return Ok(optRateIndex);
  }

  // ---------------------------------------------------------------- the decision

  /** The download of the last segment took longer than its duration. */
  predicate Slow(downloadTime: int, lastDuration: int)
  {
    downloadTime > lastDuration
  }

  /**
   * The index CalculateSelectedIndexBba returns, given the reservoir:
   * below the reservoir, the last rung (slow), one rung up (very fast) or
   * the same rung; at or above it, the rate map (slow) or the rate map
   * bounded by one rung up (fast) or by the last rung.
   */
  function BbaIndex(bufferLevel: int, reservoir: int, downloadTime: int, lastDuration: int, lastRate: int,
                    highest: int, lowest: int, maxBufferLevel: int, bandwithList: seq<int>): Result<int>
  {
    var lowestBitrateIndex := |bandwithList| - 1;
    if bufferLevel < reservoir then
      if Slow(downloadTime, lastDuration) then Ok(lowestBitrateIndex)
      else if (downloadTime as real) < 0.125 * lastDuration as real then Ok(CalcFunctions.Max(lastRate - 1, 0))
      else Ok(lastRate)
    else
      match Vraa(lastRate, bufferLevel, highest, lowest, maxBufferLevel, bandwithList, reservoir)
      case Err(f) => Err(f)
      case Ok(bba1RateIndex) =>
        if Slow(downloadTime, lastDuration) then Ok(bba1RateIndex)
        else if downloadTime as real <= 0.5 * lastDuration as real then
          Ok(CalcFunctions.Min(bba1RateIndex, CalcFunctions.Max(lastRate - 1, 0)))
        else Ok(CalcFunctions.Min(bba1RateIndex, lowestBitrateIndex))
  }

  /** The state the strategy keeps between calls: the history `*thrList`. */
  class BbaAbr {
    var thrList: seq<int>

    constructor (history: seq<int>)
      ensures thrList == history
    {
      thrList := history;
    }

    /**
     * CalculateSelectedIndexBba. `lastIndex` is what the caller passes as the
     * reservoir's `lastRateIndex` (the player passes the segment number).
     */
    method CalculateSelectedIndexBba(newThr: int, lastDuration: int, lastIndex: int, maxBufferLevel: int,
                                     lastRate: int, mpdDuration: int, segmentNumber: int, downloadTime: int,
                                     bufferLevel: int, highestMPDrepRateIndex: int, lowestMPDrepRateIndex: int,
                                     bandwithList: seq<int>, segmentSize: int -> int)
      returns (retVal: Result<int>)
      modifies this
      ensures thrList == old(thrList) + [newThr]
      ensures var reservoir := Reservoir(lastRate, lastIndex, mpdDuration, lastDuration, maxBufferLevel,
                                        bandwithList, segmentNumber, segmentSize);
        retVal == if reservoir.Err? then Err(reservoir.failure)
                  else BbaIndex(bufferLevel, reservoir.value, downloadTime, lastDuration, lastRate,
                                highestMPDrepRateIndex, lowestMPDrepRateIndex, maxBufferLevel, bandwithList)
    {
      thrList := thrList + [newThr];
      var average := Average.MeanAverage(thrList);
      var lowestBitrateIndex := |bandwithList| - 1;
      var res := Bba1UpdateReservoir(lastRate, lastIndex, mpdDuration, lastDuration, maxBufferLevel,
                                     bandwithList, segmentNumber, segmentSize);
      if res.Err? {
        return Err(res.failure);
      }
      var reservoir := res.value;
      var mStaticAlgPar := 0;
      if downloadTime > lastDuration {
        mStaticAlgPar := 1;
      }
      if bufferLevel < reservoir {
        if mStaticAlgPar != 0 {
          retVal := Ok(lowestBitrateIndex);
        } else if (downloadTime as real) < 0.125 * lastDuration as real {
          retVal := Ok(CalcFunctions.Max(lastRate - 1, 0));
        } else {
          retVal := Ok(lastRate);
        }
      } else {
        var bba1RateIndex := Bba1VRAA(lastRate, thrList, bufferLevel, highestMPDrepRateIndex,
                                      lowestMPDrepRateIndex, maxBufferLevel, bandwithList, reservoir);
        assert bba1RateIndex.Ok?;
        if mStaticAlgPar != 0 {
          retVal := bba1RateIndex;
        } else {
          if downloadTime as real <= 0.5 * lastDuration as real {
            lowestBitrateIndex := CalcFunctions.Max(lastRate - 1, 0);
          }
          retVal := Ok(CalcFunctions.Min(bba1RateIndex.value, lowestBitrateIndex));
        }
      }
    }
  }

  /** Below the reservoir, a slow download drops to the last rung of the ladder. */
  lemma SlowBelowReservoir(bufferLevel: int, reservoir: int, downloadTime: int, lastDuration: int, lastRate: int,
                           highest: int, lowest: int, maxBufferLevel: int, bandwithList: seq<int>)
    requires bufferLevel < reservoir && Slow(downloadTime, lastDuration)
    ensures BbaIndex(bufferLevel, reservoir, downloadTime, lastDuration, lastRate, highest, lowest,
                     maxBufferLevel, bandwithList) == Ok(|bandwithList| - 1)
  {
  }

  /**
   * Below the reservoir and not slow, the rung moves at most one step up
   * (toward index 0) and never down.
   */
  lemma NotSlowBelowReservoir(bufferLevel: int, reservoir: int, downloadTime: int, lastDuration: int,
                              lastRate: int, highest: int, lowest: int, maxBufferLevel: int,
                              bandwithList: seq<int>)
    requires bufferLevel < reservoir && !Slow(downloadTime, lastDuration) && lastRate >= 0
    ensures var r := BbaIndex(bufferLevel, reservoir, downloadTime, lastDuration, lastRate, highest, lowest,
                              maxBufferLevel, bandwithList);
      r.Ok? && (r.value == lastRate || r.value == lastRate - 1 || r.value == 0) && r.value <= lastRate
  {
  }

  /**
   * At or above the reservoir, a fast download (at most half the segment
   * duration) never returns an index above max(lastRate − 1, 0); nor does a
   * download that is neither slow nor fast return one above the last rung.
   */
  lemma FastAboveReservoir(bufferLevel: int, reservoir: int, downloadTime: int, lastDuration: int,
                           lastRate: int, highest: int, lowest: int, maxBufferLevel: int,
                           bandwithList: seq<int>)
    requires bufferLevel >= reservoir && !Slow(downloadTime, lastDuration)
    requires BbaIndex(bufferLevel, reservoir, downloadTime, lastDuration, lastRate, highest, lowest,
                      maxBufferLevel, bandwithList).Ok?
    ensures var r := BbaIndex(bufferLevel, reservoir, downloadTime, lastDuration, lastRate, highest, lowest,
                              maxBufferLevel, bandwithList).value;
      if downloadTime as real <= 0.5 * lastDuration as real then r <= CalcFunctions.Max(lastRate - 1, 0)
      else r <= |bandwithList| - 1
  {
  }

  /** At or above the reservoir, a slow download takes the rate map's index unchanged. */
  lemma SlowAboveReservoir(bufferLevel: int, reservoir: int, downloadTime: int, lastDuration: int,
                           lastRate: int, highest: int, lowest: int, maxBufferLevel: int,
                           bandwithList: seq<int>)
    requires bufferLevel >= reservoir && Slow(downloadTime, lastDuration)
    ensures BbaIndex(bufferLevel, reservoir, downloadTime, lastDuration, lastRate, highest, lowest,
                     maxBufferLevel, bandwithList)
         == Vraa(lastRate, bufferLevel, highest, lowest, maxBufferLevel, bandwithList, reservoir)
  {
  }

  /** With the buffer at 90% of its maximum the rate map returns the lowest rung (from a rung at or above it). */
  lemma CushionSelectsLowest(lastRateIndex: int, bufferLevel: int, highest: int, lowest: int,
                             maxBufferLevel: int, bandwithList: seq<int>, reservoir: int)
    requires BufferAboveCushion(bufferLevel, maxBufferLevel) && lastRateIndex <= lowest
    ensures Vraa(lastRateIndex, bufferLevel, highest, lowest, maxBufferLevel, bandwithList, reservoir) == Ok(lowest)
  {
  }
}
