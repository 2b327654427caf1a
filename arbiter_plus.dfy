/**
 * The ARBITER+ strategy (algorithms/arbiterPlus.go): an exponential average
 * of the throughput scaled by how full the buffer is, a damping of switches,
 * and a lookahead over the sizes of the coming segments that only moves
 * toward lower quality.
 *
 * The package-level variables the source assigns on every call hold the same
 * constants each time; they are the constants below.
 */
module ArbiterPlus {
  import opened Wrappers
  import opened GoNum
  import opened HelperFunctions
  import CalcFunctions

  const DefaultExponent: real := 0.4
  const DefaultMinBufferFactor: real := 0.75
  const DefaultMaxBufferFactor: real := 1.15
  const DefaultHistoricEstimationWindow: int := 10
  const DefaultMaximumSwitch: int := 2
  const DefaultPredictiveEstimationWindow: int := 5

  // ---------------------------------------------------------------- target rate

  /** bufferFullness = FloatMin(1, bufferLevel / (maxBufferLevel·1000)), in float64. */
  function Fullness(bufferLevel: int, maxBufferLevel: int): Float64
  {
    var ratio := Div(bufferLevel as real, (maxBufferLevel * 1000) as real);
    if Above(ratio, 1.0) then Fin(1.0) else ratio
  }

  /** bufferingFactor = minBufferFactor + (maxBufferFactor − minBufferFactor)·fullness. */
  function BufferingFactor(fullness: Float64): Float64
  {
    Plus(TimesF(fullness, DefaultMaxBufferFactor - DefaultMinBufferFactor), DefaultMinBufferFactor)
  }

  /** targetRate: the exponential average (ratio 0.4, window 10) times the buffering factor. */
  function TargetRate(history: seq<int>, bufferLevel: int, maxBufferLevel: int): Float64
  {
    TimesFF(ExpAverageOf(history, DefaultExponent, DefaultHistoricEstimationWindow),
            BufferingFactor(Fullness(bufferLevel, maxBufferLevel)))
  }

  /**
   * For a non-negative buffer and a positive maximum the fullness lies in
   * [0, 1], is 1 from a full buffer on, and the factor lies in [0.75, 1.15].
   */
  lemma FactorBounds(bufferLevel: int, maxBufferLevel: int)
    requires bufferLevel >= 0 && maxBufferLevel > 0
    ensures Fullness(bufferLevel, maxBufferLevel).Fin?
    ensures 0.0 <= Fullness(bufferLevel, maxBufferLevel).val <= 1.0
    ensures bufferLevel >= maxBufferLevel * 1000 ==> Fullness(bufferLevel, maxBufferLevel) == Fin(1.0)
    ensures BufferingFactor(Fullness(bufferLevel, maxBufferLevel)).Fin?
    ensures DefaultMinBufferFactor <= BufferingFactor(Fullness(bufferLevel, maxBufferLevel)).val
                                   <= DefaultMaxBufferFactor
  {
    var b := bufferLevel as real;
    var m := (maxBufferLevel * 1000) as real;
    assert m > 0.0;
    assert b / m >= 0.0;
    if bufferLevel >= maxBufferLevel * 1000 {
      assert b / m * m == b;
      assert b / m >= 1.0;
    }
    var f := Fullness(bufferLevel, maxBufferLevel).val;
    assert 0.0 <= f * 0.4 <= 0.4;
  }

  // ---------------------------------------------------------------- switch damping

  /**
   * The switch control: one rung up from the last one stays on the last rung
   * when the target rate is below a margin over that rung's rate; more than
   * two rungs up is cut to two. bandwithList[targetIndex] is read only in the
   * first test, and panics outside the ladder.
   */
  function Damped(targetIndex: int, lastRate: int, targetRate: Float64, bandwithList: seq<int>): (r: Result<int>)
    ensures r.Err? <==> lastRate - targetIndex == 1 && !(0 <= targetIndex < |bandwithList|)
    ensures r.Ok? ==> targetIndex <= r.value && lastRate - r.value <= DefaultMaximumSwitch
  {
    if lastRate - targetIndex == 1 then
      if !(0 <= targetIndex < |bandwithList|) then Err(IndexOutOfRange)
      else if Below(targetRate, (1.065 - (|bandwithList| - targetIndex) as real * 0.015)
                                * Quo(bandwithList[targetIndex], Conversion1000) as real)
      then Ok(targetIndex + 1)
      else Ok(targetIndex)
    else if lastRate - targetIndex > DefaultMaximumSwitch then Ok(CalcFunctions.Max(lastRate - DefaultMaximumSwitch, 0))
    else Ok(targetIndex)
  }

  /** The `if switchingControl` block. */
  method SwitchControl(targetIndex: int, lastRate: int, targetRate: Float64, bandwithList: seq<int>)
    returns (r: Result<int>)
    ensures r == Damped(targetIndex, lastRate, targetRate, bandwithList)
  {
    var index := targetIndex;
    if lastRate - index == 1 {
      if !(0 <= index < |bandwithList|) {
        return Err(IndexOutOfRange);
      }
      if Below(targetRate, (1.065 - (|bandwithList| - index) as real * 0.015)
                           * Quo(bandwithList[index], Conversion1000) as real) {
        index := index + 1;
      }
    } else if lastRate - index > DefaultMaximumSwitch {
      index := CalcFunctions.Max(lastRate - DefaultMaximumSwitch, 0);
    }
    return Ok(index);
  }

  // ---------------------------------------------------------------- lookahead

  /**
   * The lookahead check for rung q: on the header table from segment
   * segmentNumber − 1 when it is loaded, otherwise on HEAD responses from
   * segment segmentNumber. `sizes(rung, segment)` is whichever of the two
   * the call reads.
   */
  predicate Passes(headerTableLoaded: bool, videoWindow: int, targetRate: Float64, q: int, segmentNumber: int,
                   lastDuration: int, sizes: (int, int) -> int)
  {
    LookaheadPasses(videoWindow, targetRate, q, if headerTableLoaded then segmentNumber - 1 else segmentNumber,
                    lastDuration, sizes)
  }

  /**
   * The lookahead loop: from `targetIndex`, step one rung down until the
   * check passes or the lowest rung is reached. The result is the first
   * passing rung in [targetIndex, lowest), else lowest; it is never above
   * `targetIndex` in quality.
   */
  function Lookahead(targetIndex: int, lowest: int, headerTableLoaded: bool, videoWindow: int,
                     targetRate: Float64, segmentNumber: int, lastDuration: int,
                     sizes: (int, int) -> int): (r: int)
    ensures targetIndex <= r
    ensures targetIndex >= lowest ==> r == targetIndex
    ensures targetIndex < lowest ==> r <= lowest
    ensures r < lowest ==> Passes(headerTableLoaded, videoWindow, targetRate, r, segmentNumber, lastDuration, sizes)
    ensures forall k :: targetIndex <= k < r ==>
      !Passes(headerTableLoaded, videoWindow, targetRate, k, segmentNumber, lastDuration, sizes)
    decreases lowest - targetIndex
  {
    if targetIndex < lowest && !Passes(headerTableLoaded, videoWindow, targetRate, targetIndex, segmentNumber,
                                       lastDuration, sizes)
    then Lookahead(targetIndex + 1, lowest, headerTableLoaded, videoWindow, targetRate, segmentNumber,
                   lastDuration, sizes)
    else targetIndex
  }

  /** The lookahead loop of the `if actualRateQuality` block. */
  method LookaheadLoop(targetIndex: int, lowest: int, headerTableLoaded: bool, videoWindow: int,
                       targetRate: Float64, segmentNumber: int, lastDuration: int, sizes: (int, int) -> int)
    returns (index: int)
    ensures index == Lookahead(targetIndex, lowest, headerTableLoaded, videoWindow, targetRate, segmentNumber,
                               lastDuration, sizes)
  {
    var from := if headerTableLoaded then segmentNumber - 1 else segmentNumber;
    index := targetIndex;
    while index < lowest
      invariant targetIndex <= index
      invariant Lookahead(index, lowest, headerTableLoaded, videoWindow, targetRate, segmentNumber, lastDuration, sizes)
             == Lookahead(targetIndex, lowest, headerTableLoaded, videoWindow, targetRate, segmentNumber,
                          lastDuration, sizes)
      decreases lowest - index
    {
      var ok := SmartConvHelperFromFile(videoWindow, targetRate, index, from, lastDuration, sizes);
      if ok {
        break;
      }
      index := index + 1;
    }
  }

  /** videoWindow = min(mpdDuration/lastDuration − lastIndex, 5), with Go's integer division. */
  function VideoWindow(mpdDuration: int, lastDuration: int, lastIndex: int): int
    requires lastDuration != 0
  {
    CalcFunctions.Min(Quo(mpdDuration, lastDuration) - lastIndex, DefaultPredictiveEstimationWindow)
  }

  // ---------------------------------------------------------------- the decision

  /**
   * The index CalculateSelectedIndexArbiter returns once the history
   * (with the new sample) is `history`, or the panic of indexing outside the
   * ladder or of a zero segment duration.
   */
  function ArbiterIndex(history: seq<int>, lastDuration: int, lastIndex: int, maxBufferLevel: int, lastRate: int,
                        mpdDuration: int, segmentNumber: int, bufferLevel: int, lowest: int,
                        bandwithList: seq<int>, headerTableLoaded: bool, sizes: (int, int) -> int): Result<int>
  {
    var targetRate := TargetRate(history, bufferLevel, maxBufferLevel);
    var targetIndex := SelectedRung(ToInt(targetRate), bandwithList, lowest);
    match Damped(targetIndex, lastRate, targetRate, bandwithList)
    case Err(f) => Err(f)
    case Ok(damped) =>
      if lastDuration == 0 then Err(DivideByZero)
      else Ok(Lookahead(damped, lowest, headerTableLoaded, VideoWindow(mpdDuration, lastDuration, lastIndex),
                        targetRate, segmentNumber, lastDuration, sizes))
  }

  /** The state the strategy keeps between calls: the history `*thrList`. */
  class ArbiterAbr {
    var thrList: seq<int>

    constructor (history: seq<int>)
      ensures thrList == history
    {
      thrList := history;
    }

    /**
     * CalculateSelectedIndexArbiter. `headerTableLoaded` says whether the
     * segment header table is present; `sizes` gives the segment sizes the
     * lookahead reads, from that table or from HEAD requests.
     */
    method CalculateSelectedIndexArbiter(newThr: int, lastDuration: int, lastIndex: int, maxBufferLevel: int,
                                         lastRate: int, mpdDuration: int, segmentNumber: int, bufferLevel: int,
                                         lowestMPDrepRateIndex: int, bandwithList: seq<int>,
                                         headerTableLoaded: bool, sizes: (int, int) -> int)
      returns (r: Result<int>)
      modifies this
      ensures thrList == old(thrList) + [newThr]
      ensures r == ArbiterIndex(thrList, lastDuration, lastIndex, maxBufferLevel, lastRate, mpdDuration,
                                segmentNumber, bufferLevel, lowestMPDrepRateIndex, bandwithList,
                                headerTableLoaded, sizes)
    {
      thrList := thrList + [newThr];
      var bufferFullness := Fullness(bufferLevel, maxBufferLevel);
      var exponentialAverageRate := ExpAverage(thrList, DefaultExponent, DefaultHistoricEstimationWindow);
      var bufferingFactor := Plus(TimesF(bufferFullness, DefaultMaxBufferFactor - DefaultMinBufferFactor),
                                  DefaultMinBufferFactor);
      var targetRate := TimesFF(exponentialAverageRate, bufferingFactor);
      assert targetRate == TargetRate(thrList, bufferLevel, maxBufferLevel);
      var targetIndex := SelectRepRateWithThroughtput(ToInt(targetRate), bandwithList, lowestMPDrepRateIndex);
      var damped := SwitchControl(targetIndex, lastRate, targetRate, bandwithList);
      if damped.Err? {
        return Err(damped.failure);
      }
      if lastDuration == 0 {
        return Err(DivideByZero);
      }
      var videoChunks := Quo(mpdDuration, lastDuration);
      var videoWindow := CalcFunctions.Min(videoChunks - lastIndex, DefaultPredictiveEstimationWindow);
      var selected := LookaheadLoop(damped.value, lowestMPDrepRateIndex, headerTableLoaded, videoWindow,
                                    targetRate, segmentNumber, lastDuration, sizes);
      return Ok(selected);
    }
  }

  /**
   * The damping and the lookahead keep any switch toward higher quality to
   * at most two rungs from the last one, and the lookahead never selects a
   * rung above the damped target.
   */
  lemma SwitchUpBounded(history: seq<int>, lastDuration: int, lastIndex: int, maxBufferLevel: int, lastRate: int,
                        mpdDuration: int, segmentNumber: int, bufferLevel: int, lowest: int,
                        bandwithList: seq<int>, headerTableLoaded: bool, sizes: (int, int) -> int)
    requires ArbiterIndex(history, lastDuration, lastIndex, maxBufferLevel, lastRate, mpdDuration, segmentNumber,
                          bufferLevel, lowest, bandwithList, headerTableLoaded, sizes).Ok?
    ensures var r := ArbiterIndex(history, lastDuration, lastIndex, maxBufferLevel, lastRate, mpdDuration,
                                  segmentNumber, bufferLevel, lowest, bandwithList, headerTableLoaded, sizes).value;
      lastRate - r <= DefaultMaximumSwitch
  {
  }

  /**
   * At the last segment of the stream (an empty lookahead window) every check
   * fails, so the arbiter selects the lowest rung (from any damped target
   * at or above it in quality).
   */
  lemma EmptyWindowSelectsLowest(targetIndex: int, lowest: int, headerTableLoaded: bool, targetRate: Float64,
                                 segmentNumber: int, lastDuration: int, sizes: (int, int) -> int)
    requires targetIndex <= lowest
    ensures Lookahead(targetIndex, lowest, headerTableLoaded, 0, targetRate, segmentNumber, lastDuration, sizes)
         == lowest
  {
    var r := Lookahead(targetIndex, lowest, headerTableLoaded, 0, targetRate, segmentNumber, lastDuration, sizes);
    LookaheadEmptyWindowFails(targetRate, r, if headerTableLoaded then segmentNumber - 1 else segmentNumber,
                              lastDuration, sizes);
  }

  /** The window is empty exactly at the last segment: lastIndex = mpdDuration/lastDuration. */
  lemma LastSegmentWindow(mpdDuration: int, lastDuration: int)
    requires lastDuration != 0
    ensures VideoWindow(mpdDuration, lastDuration, Quo(mpdDuration, lastDuration)) == 0
  {
  }
}
