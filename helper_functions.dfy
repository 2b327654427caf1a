/**
 * The shared primitives of the rate-adaptation strategies
 * (algorithms/helperFunctions.go): throughput of a download, rung selection,
 * recent-sample windows, the lookahead size check and the harmonic and
 * exponentially weighted averages.
 *
 * A bitrate list ("ladder") holds one bitrate per representation, index 0
 * being the highest quality. Throughput histories hold bits per second.
 */
module HelperFunctions {
  import opened Wrappers
  import opened GoNum

  const Conversion1000: int := 1000

  // ---------------------------------------------------------------- throughput

  /**
   * CalculateThroughtput: `segmentSize` bits fetched in `time` ms, in bits
   * per second, converted with Go's `int(...)`.
   */
  function CalculateThroughtput(segmentSize: int, time: int): (thr: int)
    ensures time > 0 && 0 <= segmentSize && segmentSize * Conversion1000 <= MaxInt64 * time ==>
      thr == segmentSize * Conversion1000 / time
    ensures time == 0 ==> thr == MinInt64
  {
    var quotient := Div(segmentSize as real, time as real / Conversion1000 as real);
    if time > 0 && segmentSize >= 0 then
      assert quotient == Fin((segmentSize * Conversion1000) as real / time as real);
      TruncOfQuotient(segmentSize * Conversion1000, time);
      ToInt(quotient)
    else ToInt(quotient)
  }

  /** int(a / b) of two non-negative integers is their integer quotient. */
  lemma TruncOfQuotient(a: int, b: int)
    requires a >= 0 && b > 0
    ensures Trunc(a as real / b as real) == a / b
    ensures a <= MaxInt64 * b ==> a / b <= MaxInt64
  {
    var q, r := a / b, a % b;
    assert a == q * b + r;
    assert a as real / b as real == q as real + r as real / b as real;
    assert 0.0 <= r as real / b as real < 1.0;
  }

  // ---------------------------------------------------------------- rung selection

  /** The first index in [from, |bw|-1) whose bitrate is strictly below thr, or -1. */
  function FirstBelow(thr: int, bw: seq<int>, from: nat): (i: int)
    ensures i == -1 || from <= i < |bw| - 1
    ensures i >= 0 ==> bw[i] < thr && forall j :: from <= j < i ==> bw[j] >= thr
    ensures i == -1 ==> forall j :: from <= j < |bw| - 1 ==> bw[j] >= thr
    decreases |bw| - from
  {
    if from >= |bw| - 1 then -1
    else if bw[from] < thr then from
    else FirstBelow(thr, bw, from + 1)
  }

  /**
   * The rung SelectRepRateWithThroughtput picks: the first of rungs
   * 0..N-2 whose bitrate is strictly below thr, or, when there is none, the
   * `lowest` index the caller passes in.
   */
  function SelectedRung(thr: int, bw: seq<int>, lowest: int): (r: int)
    ensures (exists i :: 0 <= i < |bw| - 1 && bw[i] < thr) ==>
      0 <= r < |bw| - 1 && bw[r] < thr && forall j :: 0 <= j < r ==> bw[j] >= thr
    ensures (forall i :: 0 <= i < |bw| - 1 ==> bw[i] >= thr) ==> r == lowest
    ensures r == lowest || 0 <= r < |bw| - 1
  {
    var i := FirstBelow(thr, bw, 0);
    if i >= 0 then i else lowest
  }

  /** SelectRepRateWithThroughtput, with its loop. */
  method SelectRepRateWithThroughtput(thr: int, bandwithList: seq<int>, lowestMPDrepRateIndex: int)
    returns (repRate: int)
    ensures repRate == SelectedRung(thr, bandwithList, lowestMPDrepRateIndex)
  {
    var selectedBandwith := 0;
    repRate := lowestMPDrepRateIndex;
    var i := 0;
    while i < |bandwithList| - 1
      invariant 0 <= i <= |bandwithList| || |bandwithList| == 0
      invariant selectedBandwith == 0
      invariant repRate == lowestMPDrepRateIndex
      invariant FirstBelow(thr, bandwithList, 0) == FirstBelow(thr, bandwithList, i)
      decreases |bandwithList| - i
    {
      if bandwithList[i] < thr {
        repRate := i;
        break;
      }
      if i == |bandwithList| - 1 && selectedBandwith == 0 {
        // the last rung is never reached inside the loop
        assert false;
      }
      i := i + 1;
    }
  }

  /**
   * A larger throughput never selects a larger index when the fallback is
   * the last rung; this holds for every ladder, decreasing or not.
   */
  lemma SelectionMonotone(thr1: int, thr2: int, bw: seq<int>)
    requires thr1 <= thr2 && |bw| > 0
    ensures SelectedRung(thr2, bw, |bw| - 1) <= SelectedRung(thr1, bw, |bw| - 1)
  {
    var r1 := SelectedRung(thr1, bw, |bw| - 1);
    if r1 < |bw| - 1 {
      assert bw[r1] < thr2;
    }
  }

  /** The thirteen-rung ladder of the averaging fixtures (bits per second). */
  const FixtureLadder: seq<int> := [40276548, 25312752, 15193504, 4354160, 3894826, 3046114,
    2386043, 1826811, 1089489, 767717, 576208, 390172, 247230]

  /** The ten-sample throughput history of the averaging fixtures. */
  const FixtureHistory: seq<int> := [2843157, 6690325, 12242549, 13067956, 15247213, 20917735,
    26063698, 27587342, 26106059, 23265265]

  /** int(17403129.9), the fixture mean, selects rung 2. */
  lemma FixtureSelection()
    ensures RealToInt(17403129.9) == 17403129
    ensures SelectedRung(17403129, FixtureLadder, 12) == 2
  {
    assert FixtureLadder[0] >= 17403129 && FixtureLadder[1] >= 17403129;
  }

  // ---------------------------------------------------------------- sample windows

  /**
   * ThroughputSamples: a slice of `window` entries, the most recent samples
   * first in order, zeros after; a negative window is the panic of `make`.
   */
  method ThroughputSamples(window: int, thrList: seq<int>) returns (r: Result<seq<int>>)
    ensures r.Err? <==> window < 0
    ensures r.Ok? ==> |r.value| == window
    ensures r.Ok? ==> var w := if window < |thrList| then window else |thrList|;
      (forall k :: 0 <= k < w ==> r.value[k] == thrList[|thrList| - w + k])
      && (forall k :: w <= k < window ==> r.value[k] == 0)
  {
    var workingWindow := if window < |thrList| then window else |thrList|;
    var last := |thrList|;
    var first := last - workingWindow;
    if window < 0 {
      return Err(MakeSliceLen);
    }
    var throughputSamples := new int[window](_ => 0);
    var i := first;
    while i < last
      invariant first <= i <= last
      invariant forall k :: 0 <= k < i - first ==> throughputSamples[k] == thrList[first + k]
      invariant forall k :: i - first <= k < window ==> throughputSamples[k] == 0
    {
      var j := i - last + workingWindow;
      throughputSamples[j] := thrList[i];
      i := i + 1;
    }
    return Ok(throughputSamples[..]);
  }

  // ---------------------------------------------------------------- lookahead check

  /** Bits of `count` consecutive segments of rung `qRate` from `segmentNumber`, by the size table. */
  function WindowBits(segmentSize: (int, int) -> int, qRate: int, segmentNumber: int, count: int): int
    decreases count
  {
    if count <= 0 then 0
    else WindowBits(segmentSize, qRate, segmentNumber, count - 1) + segmentSize(qRate, segmentNumber + count - 1) * 8
  }

  /**
   * The check of SmartConvHelperFromFile: the average rate of the next
   * `videoWindow` segments of rung `qRate`, in bit/s, is at most `estRate`
   * (an IEEE comparison, false when either side is NaN).
   */
  predicate LookaheadPasses(videoWindow: int, estRate: Float64, qRate: int, segmentNumber: int,
                            lastDuration: int, segmentSize: (int, int) -> int)
  {
    LessEq(Div(WindowBits(segmentSize, qRate, segmentNumber, videoWindow) as real,
               lastDuration as real / 1000.0 * videoWindow as real), estRate)
  }

  /**
   * SmartConvHelperFromFile, its loop summing the sizes that the header table
   * `segmentSize(rung, segment)` holds.
   */
  method SmartConvHelperFromFile(videoWindow: int, estRate: Float64, qRate: int, segmentNumber: int,
                                 lastDuration: int, segmentSize: (int, int) -> int)
    returns (ok: bool)
    ensures ok == LookaheadPasses(videoWindow, estRate, qRate, segmentNumber, lastDuration, segmentSize)
  {
    var totSegSize := 0;
    var i := 0;
    while i < videoWindow
      invariant videoWindow > 0 ==> 0 <= i <= videoWindow
      invariant videoWindow <= 0 ==> i == 0
      invariant totSegSize == WindowBits(segmentSize, qRate, segmentNumber, i)
    {
      totSegSize := totSegSize + segmentSize(qRate, segmentNumber + i) * 8;
      i := i + 1;
    }
    var actualAvgRate := Div(totSegSize as real, lastDuration as real / 1000.0 * videoWindow as real);
    ok := LessEq(actualAvgRate, estRate);
  }

  /** With a positive window and duration and a finite estimate, the check compares bits per second with it. */
  lemma LookaheadCheckMeaning(videoWindow: int, estRate: real, qRate: int, segmentNumber: int,
                              lastDuration: int, segmentSize: (int, int) -> int)
    requires videoWindow > 0 && lastDuration > 0
    ensures LookaheadPasses(videoWindow, Fin(estRate), qRate, segmentNumber, lastDuration, segmentSize)
      <==> WindowBits(segmentSize, qRate, segmentNumber, videoWindow) as real * 1000.0
           <= estRate * (lastDuration * videoWindow) as real
  {
    var bits := WindowBits(segmentSize, qRate, segmentNumber, videoWindow) as real;
    var den := lastDuration as real / 1000.0 * videoWindow as real;
    WindowSeconds(lastDuration, videoWindow);
    DivAtMostIff(bits, den, estRate);
    MulAtMostIff(bits, estRate * den, 1000.0);
    assert estRate * den * 1000.0 == estRate * (den * 1000.0);
  }

  /** The window's length in seconds, times 1000, is its length in milliseconds. */
  lemma WindowSeconds(lastDuration: int, videoWindow: int)
    requires videoWindow > 0 && lastDuration > 0
    ensures lastDuration as real / 1000.0 * videoWindow as real > 0.0
    ensures lastDuration as real / 1000.0 * videoWindow as real * 1000.0 == (lastDuration * videoWindow) as real
  {
    var d := lastDuration as real / 1000.0;
    assert d * 1000.0 == lastDuration as real;
    assert d * videoWindow as real * 1000.0 == d * 1000.0 * videoWindow as real;
  }

  lemma DivAtMostIff(a: real, d: real, e: real)
    requires d > 0.0
    ensures a / d <= e <==> a <= e * d
  {
    assert a / d * d == a;
    if a / d <= e {
      MulAtMostIff(a / d, e, d);
    } else {
      MulAtMostIff(e, a / d, d);
    }
  }

  lemma MulAtMostIff(x: real, y: real, d: real)
    requires d > 0.0
    ensures x <= y <==> x * d <= y * d
  {
    assert y * d - x * d == (y - x) * d;
  }

  /** An empty window makes the check fail: 0/0 is NaN, and NaN <= x is false. */
  lemma LookaheadEmptyWindowFails(estRate: Float64, qRate: int, segmentNumber: int,
                                  lastDuration: int, segmentSize: (int, int) -> int)
    ensures !LookaheadPasses(0, estRate, qRate, segmentNumber, lastDuration, segmentSize)
  {
  }

  /** FloatMin (NaN operands are not modelled). */
  function FloatMin(a: real, b: real): (m: real)
    ensures m <= a && m <= b
    ensures m == a || m == b
  {
    if a < b then a else b
  }

  // ---------------------------------------------------------------- harmonic mean

  /** The samples harmonicAverage averages: the last `num`, or all when there are fewer. */
  function LastSamples(num: nat, thrList: seq<int>): (w: seq<int>)
    ensures |w| == if |thrList| < num then |thrList| else num
    ensures w == thrList[|thrList| - |w|..]
  {
    if |thrList| < num then thrList else thrList[|thrList| - num..]
  }

  /** Σ 1/x in float64, left to right; a zero sample makes it +Inf. */
  function ReciprocalSum(w: seq<int>): Float64
  {
    if |w| == 0 then Fin(0.0)
    else PlusF(ReciprocalSum(w[..|w| - 1]), Div(1.0, w[|w| - 1] as real))
  }

  /** Σ 1/x over exact reals, for samples that are all non-zero. */
  function SumOfReciprocals(w: seq<int>): real
    requires forall k :: 0 <= k < |w| ==> w[k] != 0
  {
    if |w| == 0 then 0.0 else SumOfReciprocals(w[..|w| - 1]) + 1.0 / w[|w| - 1] as real
  }

  /** The harmonic mean harmonicAverage computes: count / Σ 1/x. */
  function Harmonic(w: seq<int>): Float64
  {
    DivF(|w| as real, ReciprocalSum(w))
  }

  /** harmonicAverage, with its accumulation loop. */
  method HarmonicAverage(num: int, thrList: seq<int>) returns (average: Float64)
    requires num >= 0
    ensures average == Harmonic(LastSamples(num, thrList))
  {
    var window := if |thrList| < num then thrList[|thrList| - |thrList|..] else thrList[|thrList| - num..];
    assert window == LastSamples(num, thrList);
    var acc := Fin(0.0);
    var k := 0;
    while k < |window|
      invariant 0 <= k <= |window|
      invariant acc == ReciprocalSum(window[..k])
    {
      assert window[..k + 1][..k] == window[..k];
      acc := PlusF(acc, Div(1.0, window[k] as real));
      k := k + 1;
    }
    assert window[..|window|] == window;
    average := DivF(|window| as real, acc);
  }

  /** With non-zero samples the float sum is the exact one. */
  lemma {:induction false} ReciprocalSumFinite(w: seq<int>)
    requires forall k :: 0 <= k < |w| ==> w[k] != 0
    ensures ReciprocalSum(w) == Fin(SumOfReciprocals(w))
  {
    if |w| > 0 {
      ReciprocalSumFinite(w[..|w| - 1]);
    }
  }

  /** A zero sample makes the reciprocal sum +Inf (no sample is ever a negative zero). */
  lemma {:induction false} ReciprocalSumZero(w: seq<int>, z: nat)
    requires z < |w| && w[z] == 0
    requires forall k :: 0 <= k < |w| ==> w[k] >= 0
    ensures ReciprocalSum(w) == PosInf
  {
    if z == |w| - 1 {
      NonNegativeReciprocalSum(w[..|w| - 1]);
    } else {
      ReciprocalSumZero(w[..|w| - 1], z);
    }
  }

  lemma {:induction false} NonNegativeReciprocalSum(w: seq<int>)
    requires forall k :: 0 <= k < |w| ==> w[k] >= 0
    ensures ReciprocalSum(w).PosInf? || (ReciprocalSum(w).Fin? && ReciprocalSum(w).val >= 0.0)
  {
    if |w| > 0 {
      NonNegativeReciprocalSum(w[..|w| - 1]);
    }
  }

  /** A window holding a zero sample has harmonic mean 0 (count / +Inf). */
  lemma HarmonicWithZero(w: seq<int>, z: nat)
    requires z < |w| && w[z] == 0
    requires forall k :: 0 <= k < |w| ==> w[k] >= 0
    ensures Harmonic(w) == Fin(0.0)
  {
    ReciprocalSumZero(w, z);
  }

  /** With one sample the harmonic mean is that sample. */
  lemma HarmonicSingle(x: int)
    ensures Harmonic([x]) == Fin(x as real)
  {
    assert [x][..0] == [];
    if x != 0 {
      var y := x as real;
      assert ReciprocalSum([x]) == Fin(1.0 / y);
      assert 1.0 / (1.0 / y) == y;
    }
  }

  /** The harmonic mean of the last five fixture samples is 24544673.17... */
  lemma HarmonicFixture()
    ensures LastSamples(5, FixtureHistory) == [20917735, 26063698, 27587342, 26106059, 23265265]
    ensures Harmonic(LastSamples(5, FixtureHistory)).Fin?
    ensures 24544673.17 < Harmonic(LastSamples(5, FixtureHistory)).val < 24544673.18
  {
    var w := LastSamples(5, FixtureHistory);
    assert w == [20917735, 26063698, 27587342, 26106059, 23265265];
    ReciprocalSumFinite(w);
    var s := 1.0 / 20917735.0 + 1.0 / 26063698.0 + 1.0 / 27587342.0 + 1.0 / 26106059.0 + 1.0 / 23265265.0;
    assert SumOfReciprocals(w) == s by {
      var a, b, c, d, e := 20917735, 26063698, 27587342, 26106059, 23265265;
      assert [a][..0] == [];
      assert [a, b][..1] == [a];
      assert [a, b, c][..2] == [a, b];
      assert [a, b, c, d][..3] == [a, b, c];
      assert w[..4] == [a, b, c, d];
      assert SumOfReciprocals([a]) == 1.0 / a as real;
      assert SumOfReciprocals([a, b]) == 1.0 / a as real + 1.0 / b as real;
      assert SumOfReciprocals([a, b, c]) == 1.0 / a as real + 1.0 / b as real + 1.0 / c as real;
      assert SumOfReciprocals([a, b, c, d]) == 1.0 / a as real + 1.0 / b as real + 1.0 / c as real + 1.0 / d as real;
    }
    assert Harmonic(w) == Fin(5.0 / s);
  }

  /** For positive samples the harmonic mean lies between the smallest and the largest sample. */
  lemma HarmonicBounds(w: seq<int>, lo: int, hi: int)
    requires |w| > 0 && 0 < lo
    requires forall k :: 0 <= k < |w| ==> lo <= w[k] <= hi
    ensures Harmonic(w).Fin?
    ensures lo as real <= Harmonic(w).val <= hi as real
  {
    assert forall k :: 0 <= k < |w| ==> w[k] != 0;
    ReciprocalSumFinite(w);
    ReciprocalsAtLeast(w, hi as real);
    ReciprocalsAtMost(w, lo as real);
    var s := SumOfReciprocals(w);
    var n := |w| as real;
    assert hi >= lo by { assert lo <= w[0] <= hi; }
    QuotientBounds(n, s, lo as real, hi as real);
  }

  lemma QuotientBounds(n: real, s: real, lo: real, hi: real)
    requires n > 0.0 && 0.0 < lo <= hi
    requires CoversCount(s, hi, n) && WithinCount(s, lo, n)
    ensures s > 0.0
    ensures lo <= n / s <= hi
  {
    assert n / s * s == n;
  }

  lemma ReciprocalScale(x: real, c: real)
    requires 0.0 < x
    ensures x <= c ==> c * (1.0 / x) >= 1.0
    ensures c <= x ==> c * (1.0 / x) <= 1.0
  {
    assert c * (1.0 / x) == c / x;
  }

  /** Σ 1/x · hi >= n, kept whole so that the solver does not expand the product. */
  predicate CoversCount(sum: real, hi: real, n: real)
  {
    sum * hi >= n
  }

  /** Σ 1/x · lo <= n. */
  predicate WithinCount(sum: real, lo: real, n: real)
  {
    sum * lo <= n
  }

  lemma StepAtLeast(s: real, x: real, hi: real, m: real)
    requires 0.0 < x <= hi && CoversCount(s, hi, m)
    ensures CoversCount(s + 1.0 / x, hi, m + 1.0)
  {
    ReciprocalScale(x, hi);
    assert (s + 1.0 / x) * hi == s * hi + hi * (1.0 / x);
  }

  lemma StepAtMost(s: real, x: real, lo: real, m: real)
    requires 0.0 < lo <= x && WithinCount(s, lo, m)
    ensures WithinCount(s + 1.0 / x, lo, m + 1.0)
  {
    ReciprocalScale(x, lo);
    assert (s + 1.0 / x) * lo == s * lo + lo * (1.0 / x);
  }

  lemma SumSnoc(w: seq<int>)
    requires |w| > 0 && forall k :: 0 <= k < |w| ==> w[k] != 0
    ensures SumOfReciprocals(w) == SumOfReciprocals(w[..|w| - 1]) + 1.0 / w[|w| - 1] as real
  {
  }

  /** Samples of at most `hi`: Σ 1/x · hi >= count. */
  lemma {:induction false} ReciprocalsAtLeast(w: seq<int>, hi: real)
    requires forall k :: 0 <= k < |w| ==> 0.0 < w[k] as real <= hi
    ensures CoversCount(SumOfReciprocals(w), hi, |w| as real)
  {
    if |w| > 0 {
      var init := w[..|w| - 1];
      ReciprocalsAtLeast(init, hi);
      SumSnoc(w);
      assert |w| as real == |init| as real + 1.0;
      StepAtLeast(SumOfReciprocals(init), w[|w| - 1] as real, hi, |init| as real);
    }
  }

  /** Samples of at least `lo` > 0: Σ 1/x · lo <= count. */
  lemma {:induction false} ReciprocalsAtMost(w: seq<int>, lo: real)
    requires 0.0 < lo
    requires forall k :: 0 <= k < |w| ==> lo <= w[k] as real
    ensures WithinCount(SumOfReciprocals(w), lo, |w| as real)
  {
    if |w| > 0 {
      var init := w[..|w| - 1];
      ReciprocalsAtMost(init, lo);
      SumSnoc(w);
      assert |w| as real == |init| as real + 1.0;
      StepAtMost(SumOfReciprocals(init), w[|w| - 1] as real, lo, |init| as real);
    }
  }

  // ---------------------------------------------------------------- exponential average

  function Pow(x: real, k: nat): real
  {
    if k == 0 then 1.0 else x * Pow(x, k - 1)
  }

  /** How many samples ExpAverage takes: `window` of them (all when fewer, or when window < 0). */
  function ExpWindowSize(window: int, n: nat): (m: nat)
    ensures m <= n
    ensures 0 <= window <= n ==> m == window
    ensures window < 0 || window > n ==> m == n
  {
    if 0 <= window <= n then window else n
  }

  /** The samples ExpAverage weights, newest first. */
  function NewestFirst(thrList: seq<int>, m: nat): (r: seq<int>)
    requires m <= |thrList|
    ensures |r| == m
    ensures forall i :: 0 <= i < m ==> r[i] == thrList[|thrList| - 1 - i]
  {
    if m == 0 then [] else NewestFirst(thrList, m - 1) + [thrList[|thrList| - m]]
  }

  /** 1 - (1 - ratio)^n, the normaliser of the weights. */
  function WeightSum(ratio: real, n: nat): real
  {
    1.0 - Pow(1.0 - ratio, n)
  }

  /** The unnormalised weight of position i of n (newest first): ratio·(1-ratio)^(n-1-i). */
  function RawWeight(ratio: real, n: nat, i: nat): real
    requires i < n
  {
    ratio * Pow(1.0 - ratio, n - 1 - i)
  }

  /** The float64 weight of position i of n: RawWeight / weightSum. */
  function Weight(ratio: real, n: nat, i: nat): Float64
    requires i < n
  {
    Div(RawWeight(ratio, n, i), WeightSum(ratio, n))
  }

  /** The sum of the first k weighted samples of `samples`, as the loop adds them. */
  function WeightedPrefix(samples: seq<int>, ratio: real, k: nat): Float64
    requires k <= |samples|
  {
    if k == 0 then Fin(0.0)
    else PlusF(WeightedPrefix(samples, ratio, k - 1),
               TimesF(Weight(ratio, |samples|, k - 1), samples[k - 1] as real))
  }

  /** The value ExpAverage leaves in `*average`. */
  function ExpAverageOf(thrList: seq<int>, ratio: real, window: int): Float64
  {
    var samples := NewestFirst(thrList, ExpWindowSize(window, |thrList|));
    WeightedPrefix(samples, ratio, |samples|)
  }

  /** ExpAverage, with its two loops. */
  method ExpAverage(thrList: seq<int>, ratio: real, window: int) returns (average: Float64)
    ensures average == ExpAverageOf(thrList, ratio, window)
  {
    var lastThrList: seq<int> := [];
    var j := 0;
    var i := |thrList| - 1;
    while i >= 0
      invariant -1 <= i < |thrList|
      invariant j == |thrList| - 1 - i
      invariant j <= ExpWindowSize(window, |thrList|)
      invariant lastThrList == NewestFirst(thrList, j)
    {
      if j == window {
        break;
      }
      lastThrList := lastThrList + [thrList[i]];
      j := j + 1;
      i := i - 1;
    }
    assert lastThrList == NewestFirst(thrList, ExpWindowSize(window, |thrList|));
    var n := |lastThrList|;
    var weightSum := WeightSum(ratio, n);
    average := Fin(0.0);
    var k := 0;
    while k < n
      invariant 0 <= k <= n
      invariant average == WeightedPrefix(lastThrList, ratio, k)
    {
      var thisWeight := Div(RawWeight(ratio, n, k), weightSum);
      average := PlusF(average, TimesF(thisWeight, lastThrList[k] as real));
      k := k + 1;
    }
  }

  /** Σ_{k<n} ratio·(1-ratio)^k, the geometric series behind the weights. */
  function RawWeightSum(ratio: real, n: nat, k: nat): real
    requires k <= n
  {
    if k == 0 then 0.0 else RawWeightSum(ratio, n, k - 1) + RawWeight(ratio, n, k - 1)
  }

  lemma {:induction false} GeometricSeries(ratio: real, n: nat, k: nat)
    requires k <= n
    ensures RawWeightSum(ratio, n, k) == Pow(1.0 - ratio, n - k) - Pow(1.0 - ratio, n)
  {
    if k > 0 {
      GeometricSeries(ratio, n, k - 1);
      var q := 1.0 - ratio;
      assert Pow(q, n - k + 1) == q * Pow(q, n - k);
    }
  }

  /** The unnormalised weights of all n positions add up to weightSum. */
  lemma WeightsAddUp(ratio: real, n: nat)
    ensures RawWeightSum(ratio, n, n) == WeightSum(ratio, n)
  {
    GeometricSeries(ratio, n, n);
  }

  /**
   * With a non-zero normaliser the weights are finite and sum to 1 (position
   * k - 1 of the loop carries the unnormalised weight ratio·(1-ratio)^(n-k)).
   */
  lemma WeightsSumToOne(ratio: real, n: nat)
    requires n > 0 && WeightSum(ratio, n) != 0.0
    ensures forall i :: 0 <= i < n ==> Weight(ratio, n, i).Fin?
    ensures RawWeightSum(ratio, n, n) / WeightSum(ratio, n) == 1.0
  {
    WeightsAddUp(ratio, n);
  }

  lemma {:induction false} PowBoundedByOne(q: real, k: nat)
    requires 0.0 < q < 1.0
    ensures 0.0 < Pow(q, k) <= 1.0
    ensures k > 0 ==> Pow(q, k) < 1.0
  {
    if k > 0 {
      PowBoundedByOne(q, k - 1);
      ScaleBelowOne(q, Pow(q, k - 1));
    }
  }

  lemma ScaleBelowOne(q: real, p: real)
    requires 0.0 < q < 1.0 && 0.0 < p <= 1.0
    ensures 0.0 < q * p <= p && q * p < 1.0
  {
  }

  lemma DivMonotone(a: real, b: real, c: real)
    requires a <= b && c > 0.0
    ensures a / c <= b / c
  {
  }

  /**
   * For 0 < ratio < 1 the oldest sample in the window (the last position,
   * exponent 0) carries the largest weight.
   */
  lemma OldestWeightLargest(ratio: real, n: nat, i: nat)
    requires 0.0 < ratio < 1.0 && i < n
    ensures WeightSum(ratio, n) > 0.0
    ensures Weight(ratio, n, i).Fin? && Weight(ratio, n, n - 1).Fin?
    ensures Weight(ratio, n, i).val <= Weight(ratio, n, n - 1).val
  {
    var q := 1.0 - ratio;
    PowBoundedByOne(q, n);
    PowBoundedByOne(q, n - 1 - i);
    RawWeightAtMostOldest(ratio, n, i);
    DivMonotone(RawWeight(ratio, n, i), RawWeight(ratio, n, n - 1), WeightSum(ratio, n));
  }

  lemma RawWeightAtMostOldest(ratio: real, n: nat, i: nat)
    requires 0.0 < ratio < 1.0 && i < n
    ensures RawWeight(ratio, n, i) <= RawWeight(ratio, n, n - 1)
  {
    var q := 1.0 - ratio;
    PowBoundedByOne(q, n - 1 - i);
    assert Pow(q, 0) == 1.0;
    ScaleMonotone(ratio, Pow(q, n - 1 - i), 1.0);
  }

  lemma ScaleMonotone(k: real, x: real, y: real)
    requires k >= 0.0 && x <= y
    ensures k * x <= k * y
  {
  }

  /** With one sample and a non-zero ratio, the average is that sample. */
  lemma ExpAverageSingle(x: int, ratio: real)
    requires ratio != 0.0
    ensures ExpAverageOf([x], ratio, 1) == Fin(x as real)
  {
    assert NewestFirst([x], 1) == [x];
    WeightOfOne(ratio);
    assert WeightedPrefix([x], ratio, 1) == PlusF(Fin(0.0), TimesF(Fin(1.0), x as real));
  }

  /** A window of one sample gives it weight 1. */
  lemma WeightOfOne(ratio: real)
    requires ratio != 0.0
    ensures Weight(ratio, 1, 0) == Fin(1.0)
  {
    var q := 1.0 - ratio;
    assert Pow(q, 0) == 1.0;
    assert Pow(q, 1) == q * 1.0;
    assert RawWeight(ratio, 1, 0) == ratio;
    assert WeightSum(ratio, 1) == ratio;
    assert ratio / ratio == 1.0;
  }

  /** The window holds the `window` newest samples, newest first. */
  lemma ExpWindow(thrList: seq<int>, window: int, i: nat)
    requires 0 <= window && i < window && i < |thrList|
    ensures NewestFirst(thrList, ExpWindowSize(window, |thrList|))[i] == thrList[|thrList| - 1 - i]
  {
  }
}
