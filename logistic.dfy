/**
 * The logistic strategy (algorithms/logistic.go): a target rate that follows
 * a logistic curve in the buffer level, from the lowest bitrate of the ladder
 * at an empty buffer toward the highest, followed by a remapping relative to
 * the previous rung.
 *
 * `math.Exp(-0.05*bufferLevel/1000)` is a parameter `expTerm`; the debug
 * logging is not modelled.
 */
module Logistic {
  import opened Wrappers
  import opened GoNum
  import opened HelperFunctions
  import CalcFunctions

  // ---------------------------------------------------------------- ladder extremes

  function MinOf(s: seq<int>): (m: int)
    requires |s| > 0
    ensures m in s && forall k :: 0 <= k < |s| ==> m <= s[k]
  {
    if |s| == 1 then s[0]
    else var m := MinOf(s[1..]); assert s[1..][0] == s[1]; if s[0] < m then s[0] else m
  }

  function MaxOf(s: seq<int>): (m: int)
    requires |s| > 0
    ensures m in s && forall k :: 0 <= k < |s| ==> s[k] <= m
  {
    if |s| == 1 then s[0]
    else var m := MaxOf(s[1..]); assert s[1..][0] == s[1]; if s[0] > m then s[0] else m
  }

  /** LowestBitrate: the smallest entry (a Go panic on an empty list). */
  method LowestBitrate(thrList: seq<int>) returns (r: Result<int>)
    ensures |thrList| == 0 ==> r == Err(IndexOutOfRange)
    ensures |thrList| > 0 ==> r == Ok(MinOf(thrList))
  {
    if |thrList| == 0 {
      return Err(IndexOutOfRange);
    }
    var lowest := thrList[|thrList| - 1];
    var i := 0;
    while i < |thrList|
      invariant 0 <= i <= |thrList|
      invariant lowest in thrList
      invariant forall k :: 0 <= k < i ==> lowest <= thrList[k]
      invariant lowest <= thrList[|thrList| - 1]
    {
      if thrList[i] < lowest {
        lowest := thrList[i];
      }
      i := i + 1;
    }
    return Ok(lowest);
  }

  /** HighestBitrate: the largest entry (a Go panic on an empty list). */
  method HighestBitrate(thrList: seq<int>) returns (r: Result<int>)
    ensures |thrList| == 0 ==> r == Err(IndexOutOfRange)
    ensures |thrList| > 0 ==> r == Ok(MaxOf(thrList))
  {
    if |thrList| == 0 {
      return Err(IndexOutOfRange);
    }
    var highest := thrList[0];
    var i := 0;
    while i < |thrList|
      invariant 0 <= i <= |thrList|
      invariant highest in thrList
      invariant forall k :: 0 <= k < i ==> thrList[k] <= highest
      invariant thrList[0] <= highest
    {
      if thrList[i] > highest {
        highest := thrList[i];
      }
      i := i + 1;
    }
    return Ok(highest);
  }

  /** The extremes are unique: any entry bounding all others is MinOf / MaxOf. */
  lemma ExtremesUnique(s: seq<int>, lo: int, hi: int)
    requires lo in s && hi in s
    requires forall k :: 0 <= k < |s| ==> lo <= s[k] <= hi
    ensures MinOf(s) == lo && MaxOf(s) == hi
  {
  }

  // ---------------------------------------------------------------- target rate

  /**
   * high / (1 + (high/low − 1)·expTerm) in float64, for the ladder extremes
   * `low` and `high` in kbit/s.
   */
  function Curve(low: real, high: real, expTerm: real): Float64
  {
    DivF(high, Plus(TimesF(Plus(Div(high, low), -1.0), expTerm), 1.0))
  }

  /** A bitrate in kbit/s, as the strategy divides it: x / 1024. */
  function Kbps(x: int): real
  {
    x as real / 1024.0
  }

  /**
   * The throughput handed to rung selection: int((ceil(curve) + 1)·1000) for
   * the ladder's extremes in kbit/s.
   */
  function LogisticTarget(bandwithList: seq<int>, expTerm: real): int
    requires |bandwithList| > 0
  {
    ToInt(Scale(Plus(CeilF(Curve(Kbps(MinOf(bandwithList)), Kbps(MaxOf(bandwithList)), expTerm)), 1.0), 1000.0))
  }

  lemma RatioAtLeastOne(h: real, l: real)
    requires 0.0 < l <= h
    ensures h / l >= 1.0 && h / (h / l) == l
  {
    var r := h / l;
    assert r * l == h;
    assert (r - 1.0) * l == h - l;
    assert r > 0.0;
    assert h / r * r == h;
  }
  lemma DivAntitone(e: real, d1: real, d2: real)
    requires e >= 0.0 && d1 >= d2 > 0.0
    ensures e / d1 <= e / d2
  {
    assert e / d1 * d1 == e && e / d2 * d2 == e;
    assert e / d1 * d2 <= e / d1 * d1;
  }
  /** a·e <= a for a >= 0 and e <= 1. */
  lemma ProductAtMost(a: real, e: real)
    requires a >= 0.0 && e <= 1.0
    ensures a * e <= a
  {
    assert a * (1.0 - e) >= 0.0;
  }

  lemma DivAtMostSelf(h: real, d: real)
    requires h >= 0.0 && d >= 1.0
    ensures h / d <= h
  {
    assert h / d * d == h;
    assert h / d * d >= h / d * 1.0;
  }

  /** The slope high/low − 1 of the curve's denominator. */
  function Slope(h: real, l: real): real
    requires l > 0.0
  {
    h / l - 1.0
  }

  /** The curve's denominator 1 + (high/low − 1)·expTerm, in exact arithmetic. */
  function CurveDenominator(h: real, l: real, e: real): real
    requires l > 0.0
  {
    Slope(h, l) * e + 1.0
  }

  /** The denominator runs from 1 (expTerm 0) to high/low (expTerm 1). */
  lemma DenominatorRange(h: real, l: real, e: real)
    requires 0.0 < l <= h && 0.0 <= e <= 1.0
    ensures 1.0 <= CurveDenominator(h, l, e)
    ensures CurveDenominator(h, l, e) <= h / l
  {
    SlopeNonNegative(h, l);
    ProductAtMost(Slope(h, l), e);
  }

  lemma SlopeNonNegative(h: real, l: real)
    requires 0.0 < l <= h
    ensures Slope(h, l) >= 0.0
  {
    RatioAtLeastOne(h, l);
  }

  /** Dividing high by a denominator between 1 and high/low lands between low and high. */
  lemma CurveDivBounds(h: real, l: real, d: real)
    requires 0.0 < l <= h && 1.0 <= d && d <= h / l
    ensures l <= h / d
    ensures h / d <= h
  {
    RatioAtLeastOne(h, l);
    DivAtMostSelf(h, d);
    DivAntitone(h, h / l, d);
  }

  lemma CurveValueBounds(h: real, l: real, e: real)
    requires 0.0 < l <= h && 0.0 <= e <= 1.0
    ensures 1.0 <= CurveDenominator(h, l, e)
    ensures CurveDenominator(h, l, e) <= h / l
    ensures l <= h / CurveDenominator(h, l, e)
    ensures h / CurveDenominator(h, l, e) <= h
  {
    DenominatorRange(h, l, e);
    CurveDivBounds(h, l, CurveDenominator(h, l, e));
  }

  /** For 0 < low <= high and 0 <= expTerm <= 1 the curve is finite and between low and high. */
  lemma CurveBounds(low: real, high: real, expTerm: real)
    requires 0.0 < low <= high && 0.0 <= expTerm <= 1.0
    ensures Curve(low, high, expTerm).Fin?
    ensures low <= Curve(low, high, expTerm).val <= high
    ensures expTerm == 1.0 ==> Curve(low, high, expTerm) == Fin(low)
    ensures expTerm == 0.0 ==> Curve(low, high, expTerm) == Fin(high)
  {
    CurveValueBounds(high, low, expTerm);
    RatioAtLeastOne(high, low);
    var d := CurveDenominator(high, low, expTerm);
    assert Plus(Div(high, low), -1.0) == Fin(Slope(high, low));
    assert Plus(TimesF(Plus(Div(high, low), -1.0), expTerm), 1.0) == Fin(d);
    assert Curve(low, high, expTerm) == Fin(high / d);
  }

  /**
   * For a ladder of positive bitrates the extremes in kbit/s satisfy
   * CurveBounds' precondition, so the curve runs from the lowest bitrate at an
   * empty buffer (expTerm = 1) toward the highest as expTerm falls to 0.
   */
  lemma LadderExtremes(bandwithList: seq<int>)
    requires |bandwithList| > 0 && forall k :: 0 <= k < |bandwithList| ==> bandwithList[k] > 0
    ensures 0.0 < Kbps(MinOf(bandwithList)) <= Kbps(MaxOf(bandwithList))
  {
    var lo, hi := MinOf(bandwithList), MaxOf(bandwithList);
    assert lo <= hi by { assert lo <= bandwithList[0] <= hi; }
  }

  // ---------------------------------------------------------------- remapping

  /**
   * The remapping shared by the logistic and BBA strategies: the "top" index
   * 0 becomes the lowest rung (or one rung up from the last one), an index
   * at or below rateLindex is kept, one at or above rateUindex is moved one
   * rung up, anything else is kept.
   */
  function Remap(optRateIndex: int, lastRateIndex: int, rateUindex: int, rateLindex: int,
                 lowestMPDrepRateIndex: int): (r: int)
    ensures r == lowestMPDrepRateIndex || r == lastRateIndex - 1 || r == optRateIndex || r == optRateIndex - 1
    ensures optRateIndex == 0 && lastRateIndex <= lowestMPDrepRateIndex ==> r == lowestMPDrepRateIndex
    ensures optRateIndex == 0 && lastRateIndex > lowestMPDrepRateIndex ==> r == lastRateIndex - 1
    ensures optRateIndex != 0 ==> r == optRateIndex || r == optRateIndex - 1
  {
    if optRateIndex == 0 then
      if lastRateIndex <= lowestMPDrepRateIndex then lowestMPDrepRateIndex else lastRateIndex - 1
    else if optRateIndex <= rateLindex then optRateIndex
    else if optRateIndex >= rateUindex then optRateIndex - 1
    else optRateIndex
  }

  /** rateUindex = max(last − 1, highest). */
  function RateU(lastRateIndex: int, highest: int): int
  {
    CalcFunctions.Max(lastRateIndex - 1, highest)
  }

  /** rateLindex = min(last + 1, lowest). */
  function RateL(lastRateIndex: int, lowest: int): int
  {
    CalcFunctions.Min(lastRateIndex + 1, lowest)
  }

  /**
   * With indices that lie on the ladder (0 <= highest <= last <= lowest and
   * opt in [0, lowest]), the remapped index lies on the ladder too.
   */
  lemma RemapOnLadder(optRateIndex: int, lastRateIndex: int, highest: int, lowest: int)
    requires 0 <= highest <= lastRateIndex <= lowest && 0 <= optRateIndex <= lowest
    ensures 0 <= Remap(optRateIndex, lastRateIndex, RateU(lastRateIndex, highest),
                       RateL(lastRateIndex, lowest), lowest) <= lowest
  {
  }

  /**
   * The remapping does not limit a change to one rung: from rung 5 of 13 an
   * opt of 1 is returned as is.
   */
  lemma RemapCanJump()
    ensures Remap(1, 5, RateU(5, 0), RateL(5, 12), 12) == 1
  {
  }

  // ---------------------------------------------------------------- the decision

  /** float64(bufferLevel/1000) >= 0.97·maxBufferLevel, with Go's integer division. */
  predicate BufferNearlyFull(bufferLevel: int, maxBufferLevel: int)
  {
    Quo(bufferLevel, Conversion1000) as real >= 0.97 * maxBufferLevel as real
  }

  /**
   * optRateIndex: 0 when the buffer is nearly full, otherwise the rung
   * selected for the logistic target (a panic for an empty ladder).
   */
  function OptimalIndex(bufferLevel: int, maxBufferLevel: int, bandwithList: seq<int>,
                        lowestMPDrepRateIndex: int, expTerm: real): (r: Result<int>)
    ensures r.Err? <==> !BufferNearlyFull(bufferLevel, maxBufferLevel) && |bandwithList| == 0
    ensures BufferNearlyFull(bufferLevel, maxBufferLevel) ==> r == Ok(0)
  {
    if BufferNearlyFull(bufferLevel, maxBufferLevel) then Ok(0)
    else if |bandwithList| == 0 then Err(IndexOutOfRange)
    else Ok(SelectedRung(LogisticTarget(bandwithList, expTerm), bandwithList, lowestMPDrepRateIndex))
  }

  /** The index LogisticFunction returns, or the panic of an empty ladder. */
  function LogisticIndex(lastRateIndex: int, bufferLevel: int, highestMPDrepRateIndex: int,
                         lowestMPDrepRateIndex: int, maxBufferLevel: int, bandwithList: seq<int>,
                         expTerm: real): (r: Result<int>)
    ensures r.Err? <==> !BufferNearlyFull(bufferLevel, maxBufferLevel) && |bandwithList| == 0
  {
    match OptimalIndex(bufferLevel, maxBufferLevel, bandwithList, lowestMPDrepRateIndex, expTerm)
    case Err(f) => Err(f)
    case Ok(opt) =>
      Ok(Remap(opt, lastRateIndex, RateU(lastRateIndex, highestMPDrepRateIndex),
               RateL(lastRateIndex, lowestMPDrepRateIndex), lowestMPDrepRateIndex))
  }

  /** The optRateIndex computation of LogisticFunction. */
  method OptimalRateIndex(bufferLevel: int, maxBufferLevel: int, bandwithList: seq<int>,
                          lowestMPDrepRateIndex: int, expTerm: real) returns (r: Result<int>)
    ensures r == OptimalIndex(bufferLevel, maxBufferLevel, bandwithList, lowestMPDrepRateIndex, expTerm)
  {
    if Quo(bufferLevel, Conversion1000) as real >= 0.97 * maxBufferLevel as real {
      return Ok(0);
    }
    var lowest := LowestBitrate(bandwithList);
    var highest := HighestBitrate(bandwithList);
    if lowest.Err? {
      return Err(lowest.failure);
    }
    var low := lowest.value as real / 1024.0;
    var high := highest.value as real / 1024.0;
    var targetRate := CeilF(DivF(high, Plus(TimesF(Plus(Div(high, low), -1.0), expTerm), 1.0)));
    assert targetRate == CeilF(Curve(Kbps(MinOf(bandwithList)), Kbps(MaxOf(bandwithList)), expTerm));
    var opt := SelectRepRateWithThroughtput(ToInt(Scale(Plus(targetRate, 1.0), 1000.0)),
                                            bandwithList, lowestMPDrepRateIndex);
    return Ok(opt);
  }

  /** LogisticFunction. */
  method LogisticFunction(lastRateIndex: int, bufferLevel: int, highestMPDrepRateIndex: int,
                          lowestMPDrepRateIndex: int, maxBufferLevel: int, bandwithList: seq<int>,
                          expTerm: real) returns (r: Result<int>)
    ensures r == LogisticIndex(lastRateIndex, bufferLevel, highestMPDrepRateIndex, lowestMPDrepRateIndex,
                               maxBufferLevel, bandwithList, expTerm)
  {
    var rateUindex := CalcFunctions.Max(lastRateIndex - 1, highestMPDrepRateIndex);
    var rateLindex := CalcFunctions.Min(lastRateIndex + 1, lowestMPDrepRateIndex);
    var opt := OptimalRateIndex(bufferLevel, maxBufferLevel, bandwithList, lowestMPDrepRateIndex, expTerm);
    if opt.Err? {
      return Err(opt.failure);
    }
    var optRateIndex := opt.value;
    if optRateIndex == 0 {
      if lastRateIndex <= lowestMPDrepRateIndex {
        return Ok(lowestMPDrepRateIndex);
      }
      return Ok(lastRateIndex - 1);
    } else if optRateIndex <= rateLindex {
      return Ok(optRateIndex);
    } else if optRateIndex >= rateUindex {
      return Ok(optRateIndex - 1);
    }
    return Ok(optRateIndex);
  }

  /** calculateSelectedIndex: LogisticFunction with the current rung as the last one. */
  method CalculateSelectedIndex(thrList: seq<int>, newThr: int, bandwithList: seq<int>, bufferLevel: int,
                                repRate: int, highestMPDrepRateIndex: int, lowestMPDrepRateIndex: int,
                                maxBufferLevel: int, expTerm: real) returns (r: Result<int>)
    ensures r == LogisticIndex(repRate, bufferLevel, highestMPDrepRateIndex, lowestMPDrepRateIndex,
                               maxBufferLevel, bandwithList, expTerm)
  {
    var lastRateIndex := repRate;
    r := LogisticFunction(lastRateIndex, bufferLevel, highestMPDrepRateIndex, lowestMPDrepRateIndex,
                          maxBufferLevel, bandwithList, expTerm);
  }

  /**
   * A nearly full buffer sends the player to the lowest rung when the last
   * rung is at or above it (index 0 is the highest quality).
   */
  lemma FullBufferSelectsLowest(lastRateIndex: int, bufferLevel: int, highest: int, lowest: int,
                                maxBufferLevel: int, bandwithList: seq<int>, expTerm: real)
    requires BufferNearlyFull(bufferLevel, maxBufferLevel)
    ensures lastRateIndex <= lowest ==>
      LogisticIndex(lastRateIndex, bufferLevel, highest, lowest, maxBufferLevel, bandwithList, expTerm) == Ok(lowest)
    ensures lastRateIndex > lowest ==>
      LogisticIndex(lastRateIndex, bufferLevel, highest, lowest, maxBufferLevel, bandwithList, expTerm)
        == Ok(lastRateIndex - 1)
  {
  }

  /** With indices on the ladder, the index returned lies on the ladder. */
  lemma LogisticOnLadder(lastRateIndex: int, bufferLevel: int, highest: int, lowest: int,
                         maxBufferLevel: int, bandwithList: seq<int>, expTerm: real)
    requires 0 <= highest <= lastRateIndex <= lowest && lowest == |bandwithList| - 1
    ensures LogisticIndex(lastRateIndex, bufferLevel, highest, lowest, maxBufferLevel, bandwithList, expTerm).Ok?
    ensures 0 <= LogisticIndex(lastRateIndex, bufferLevel, highest, lowest, maxBufferLevel, bandwithList,
                               expTerm).value <= lowest
  {
    var opt := OptimalIndex(bufferLevel, maxBufferLevel, bandwithList, lowest, expTerm);
    RemapOnLadder(opt.value, lastRateIndex, highest, lowest);
  }

  /** The state the strategy keeps between calls. */
  class LogisticAbr {
    var thrList: seq<int>
    var repRate: int

    constructor (history: seq<int>, rate: int)
      ensures thrList == history && repRate == rate
    {
      thrList := history;
      repRate := rate;
    }

    /**
     * Logistic: append the sample and replace the rung by LogisticFunction's
     * answer for the current one; a panic leaves the rung as it was.
     */
    method Logistic(newThr: int, bandwithList: seq<int>, bufferLevel: int, highestMPDrepRateIndex: int,
                    lowestMPDrepRateIndex: int, maxBufferLevel: int, expTerm: real)
      returns (failure: Option<Failure>)
      modifies this
      ensures thrList == old(thrList) + [newThr]
      ensures var r := LogisticIndex(old(repRate), bufferLevel, highestMPDrepRateIndex, lowestMPDrepRateIndex,
                                     maxBufferLevel, bandwithList, expTerm);
        (r.Ok? ==> repRate == r.value && failure == None) &&
        (r.Err? ==> repRate == old(repRate) && failure == Some(r.failure))
    {
      thrList := thrList + [newThr];
      var r := CalculateSelectedIndex(thrList, newThr, bandwithList, bufferLevel, repRate, highestMPDrepRateIndex,
                                      lowestMPDrepRateIndex, maxBufferLevel, expTerm);
      if r.Err? {
        return Some(r.failure);
      }
      repRate := r.value;
      return None;
    }
  }
}
