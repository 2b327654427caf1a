/**
 * The ELASTIC strategy (algorithms/elastic.go): the harmonic mean of the
 * recent throughput, scaled by a proportional-integral buffer controller.
 */
module Elastic {
  import opened GoNum
  import opened HelperFunctions

  /** `harmonicAverageValue`: the number of recent samples the estimate uses. */
  const HarmonicAverageValue: nat := 5

  /** The rate estimate: the harmonic mean of the last five samples (all of them when fewer). */
  function RateEstimate(history: seq<int>): Float64
  {
    Harmonic(LastSamples(HarmonicAverageValue, history))
  }

  /**
   * What one call adds to the integrator:
   * (delTime/1000)·(bufferLevel/1000 − maxBuffer), in real arithmetic.
   */
  function IntegratorStep(delTime: int, bufferLevel: int, maxBuffer: int): real
  {
    (delTime as real / 1000.0) * (bufferLevel as real / 1000.0 - maxBuffer as real)
  }

  /**
   * The controller's denominator 1 − kP·(bufferLevel/1000) − kI·integrator;
   * the buffer term uses Go's integer division.
   */
  function Denominator(integrator: real, bufferLevel: int, kP: real, kI: real): real
  {
    1.0 - kP * Quo(bufferLevel, Conversion1000) as real - kI * integrator
  }

  /** The target rate: estimate / denominator, in float64. */
  function ElasticTarget(history: seq<int>, integrator: real, bufferLevel: int, kP: real, kI: real): Float64
  {
    Quot(RateEstimate(history), Denominator(integrator, bufferLevel, kP, kI))
  }

  /** The state the strategy keeps between calls. */
  class ElasticAbr {
    var thrList: seq<int>
    var repRate: int
    /** The integrator `*staticAlgParameter`. */
    var staticAlgParameter: real

    constructor (history: seq<int>, rate: int, integrator: real)
      ensures thrList == history && repRate == rate && staticAlgParameter == integrator
    {
      thrList := history;
      repRate := rate;
      staticAlgParameter := integrator;
    }

    /** ElasticAlgo: append, estimate, integrate, select on int(target). */
    method ElasticAlgo(newThr: int, delTime: int, maxBuffer: int, bandwithList: seq<int>,
                       bufferLevel: int, kP: real, kI: real, lowestMPDrepRateIndex: int)
      modifies this
      ensures thrList == old(thrList) + [newThr]
      ensures staticAlgParameter == old(staticAlgParameter) + IntegratorStep(delTime, bufferLevel, maxBuffer)
      ensures repRate ==
        SelectedRung(ToInt(ElasticTarget(thrList, staticAlgParameter, bufferLevel, kP, kI)),
                     bandwithList, lowestMPDrepRateIndex)
    {
      thrList := thrList + [newThr];
      var averageRateEstimate := HarmonicAverage(HarmonicAverageValue, thrList);
      staticAlgParameter := staticAlgParameter + IntegratorStep(delTime, bufferLevel, maxBuffer);
      var targetRate := Quot(averageRateEstimate, Denominator(staticAlgParameter, bufferLevel, kP, kI));
      repRate := SelectRepRateWithThroughtput(ToInt(targetRate), bandwithList, lowestMPDrepRateIndex);
    }
  }

  /** With a single sample the estimate is that sample. */
  lemma EstimateOfOneSample(x: int)
    ensures RateEstimate([x]) == Fin(x as real)
  {
    assert LastSamples(HarmonicAverageValue, [x]) == [x];
    HarmonicSingle(x);
  }

  /** The estimate only looks at the last five samples. */
  lemma EstimateIgnoresOlderSamples(older: seq<int>, recent: seq<int>)
    requires |recent| == HarmonicAverageValue
    ensures RateEstimate(older + recent) == RateEstimate(recent)
  {
    var h := older + recent;
    assert h[|h| - HarmonicAverageValue..] == recent;
  }

  /**
   * The integrator grows while the buffer is above its maximum and shrinks
   * while it is below (for a non-negative time step).
   */
  lemma IntegratorDirection(delTime: int, bufferLevel: int, maxBuffer: int)
    requires delTime >= 0
    ensures bufferLevel >= maxBuffer * 1000 ==> IntegratorStep(delTime, bufferLevel, maxBuffer) >= 0.0
    ensures bufferLevel <= maxBuffer * 1000 ==> IntegratorStep(delTime, bufferLevel, maxBuffer) <= 0.0
  {
    var d := delTime as real / 1000.0;
    var e := bufferLevel as real / 1000.0 - maxBuffer as real;
    assert (maxBuffer * 1000) as real == maxBuffer as real * 1000.0;
    if bufferLevel >= maxBuffer * 1000 {
      assert e >= 0.0;
      assert d * e >= 0.0;
    }
    if bufferLevel <= maxBuffer * 1000 {
      assert e <= 0.0;
      assert d * e <= 0.0;
    }
  }

  /**
   * Below one second of buffer and with an empty integrator the controller is
   * neutral: the target is the estimate.
   */
  lemma NeutralController(history: seq<int>, bufferLevel: int, kP: real, kI: real)
    requires 0 <= bufferLevel < 1000
    requires RateEstimate(history).Fin?
    ensures ElasticTarget(history, 0.0, bufferLevel, kP, kI) == RateEstimate(history)
  {
    QuoNonNegative(bufferLevel, Conversion1000);
  }

  lemma QuotientMonotone(e: real, d1: real, d2: real)
    requires e >= 0.0 && d1 >= d2 > 0.0
    ensures e / d1 <= e / d2
  {
    assert e / d1 * d1 == e && e / d2 * d2 == e;
    assert e / d1 * d2 <= e / d1 * d1;
  }

  /** With a non-negative gain kP, the denominator never grows with the buffer. */
  lemma DenominatorFalls(integrator: real, b1: int, b2: int, kP: real, kI: real)
    requires 0 <= b1 <= b2 && kP >= 0.0
    ensures Denominator(integrator, b1, kP, kI) >= Denominator(integrator, b2, kP, kI)
  {
    QuoNonNegative(b1, Conversion1000);
    QuoNonNegative(b2, Conversion1000);
    var q1, q2 := (b1 / 1000) as real, (b2 / 1000) as real;
    assert q1 <= q2;
    ScaleMonotone(kP, q1, q2);
  }

  /**
   * With a non-negative gain kP, a fuller buffer never lowers the target
   * while the denominator stays positive.
   */
  lemma TargetGrowsWithBuffer(history: seq<int>, integrator: real, b1: int, b2: int, kP: real, kI: real)
    requires 0 <= b1 <= b2 && kP >= 0.0
    requires RateEstimate(history).Fin? && RateEstimate(history).val >= 0.0
    requires Denominator(integrator, b2, kP, kI) > 0.0
    ensures ElasticTarget(history, integrator, b1, kP, kI).Fin?
    ensures ElasticTarget(history, integrator, b2, kP, kI).Fin?
    ensures ElasticTarget(history, integrator, b1, kP, kI).val <= ElasticTarget(history, integrator, b2, kP, kI).val
  {
    QuoNonNegative(b1, Conversion1000);
    QuoNonNegative(b2, Conversion1000);
    DenominatorFalls(integrator, b1, b2, kP, kI);
    QuotientMonotone(RateEstimate(history).val, Denominator(integrator, b1, kP, kI),
                     Denominator(integrator, b2, kP, kI));
  }
}
