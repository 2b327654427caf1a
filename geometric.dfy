/**
 * The geometric-average strategy (DashApp/src/goDASH/algorithms/geometric.go):
 * select a rung on int((Π x)^(1/n)) over the whole throughput history.
 *
 * The caller only ever uses int(average), so the model computes that value
 * exactly: the integer n-th root (rounded down) of the exact product.
 * math.Pow's special cases decide the other outcomes: an exponent of 1 returns
 * the base, a base of 1 gives 1 for the exponent +Inf of an empty list, and a
 * negative base with a non-integer exponent gives NaN.
 */
module Geometric {
  import opened GoNum
  import opened HelperFunctions

  /** x^k over the integers. */
  function IPow(x: int, k: nat): int
  {
    if k == 0 then 1 else x * IPow(x, k - 1)
  }

  /** Π s, multiplied left to right as geomAverage's loop multiplies it. */
  function Product(s: seq<int>): int
  {
    if |s| == 0 then 1 else Product(s[..|s| - 1]) * s[|s| - 1]
  }

  predicate IsIntRoot(r: int, p: int, n: nat)
  {
    0 <= r && IPow(r, n) <= p < IPow(r + 1, n)
  }

  lemma {:induction false} IPowNonNegative(x: int, k: nat)
    requires x >= 0
    ensures IPow(x, k) >= 0
    ensures x >= 1 ==> IPow(x, k) >= 1
  {
    if k > 0 {
      IPowNonNegative(x, k - 1);
    }
  }

  lemma IPowOne(x: int)
    ensures IPow(x, 1) == x
  {
    assert IPow(x, 0) == 1;
  }

  lemma MulMonotone(a: int, b: int, x: int, y: int)
    requires 0 <= a < b && 0 <= x <= y && 0 < y
    ensures a * x < b * y
  {
    assert a * x <= a * y;
  }

  /** x^n is strictly increasing in x on the non-negative integers, for n >= 1. */
  lemma {:induction false} IPowStrictlyMonotone(a: int, b: int, n: nat)
    requires 0 <= a < b && n >= 1
    ensures IPow(a, n) < IPow(b, n)
  {
    if n == 1 {
      IPowOne(a);
      IPowOne(b);
    } else {
      IPowStrictlyMonotone(a, b, n - 1);
      IPowNonNegative(a, n - 1);
      MulMonotone(a, b, IPow(a, n - 1), IPow(b, n - 1));
    }
  }

  lemma {:induction false} IPowAtLeastBase(x: int, n: nat)
    requires x >= 1 && n >= 1
    ensures IPow(x, n) >= x
  {
    if n > 1 {
      IPowAtLeastBase(x, n - 1);
      assert x * IPow(x, n - 1) >= x * 1;
    }
  }

  /** Bisection for the n-th root of p between lo (included) and hi (excluded). */
  function RootSearch(p: int, n: nat, lo: int, hi: int): (r: int)
    requires n >= 1 && 0 <= lo < hi
    requires IPow(lo, n) <= p < IPow(hi, n)
    ensures lo <= r < hi && IsIntRoot(r, p, n)
    decreases hi - lo
  {
    if hi - lo == 1 then lo
    else
      var mid := (lo + hi) / 2;
      if IPow(mid, n) <= p then RootSearch(p, n, mid, hi) else RootSearch(p, n, lo, mid)
  }

  /** ⌊p^(1/n)⌋ for p >= 0. */
  function IntRoot(p: int, n: nat): (r: int)
    requires p >= 0 && n >= 1
    ensures IsIntRoot(r, p, n)
  {
    assert IPow(0, n) == 0 by { assert IPow(0, n) == 0 * IPow(0, n - 1); }
    IPowAtLeastBase(p + 1, n);
    RootSearch(p, n, 0, p + 1)
  }

  /** The integer n-th root is unique. */
  lemma IntRootUnique(p: int, n: nat, t: int)
    requires p >= 0 && n >= 1 && IsIntRoot(t, p, n)
    ensures IntRoot(p, n) == t
  {
    var r := IntRoot(p, n);
    if r < t {
      IPowStrictlyMonotone(r, t, n);
      if r + 1 < t {
        IPowStrictlyMonotone(r + 1, t, n);
      }
    } else if r > t {
      if t + 1 < r {
        IPowStrictlyMonotone(t + 1, r, n);
      }
    }
  }

  /**
   * int(average) after geomAverage(s): 1 for no samples, the sample itself for
   * one, -2^63 (int of NaN) for a negative product, otherwise the rounded-down
   * n-th root of the product (-2^63 if it does not fit in 64 bits).
   */
  function GeomAverageInt(s: seq<int>): int
  {
    var p := Product(s);
    if |s| == 0 then 1
    else if |s| == 1 then RealToInt(p as real)
    else if p < 0 then MinInt64
    else
      var r := IntRoot(p, |s|);
      if r <= MaxInt64 then r else MinInt64
  }

  /** geomAverage, with its product loop; `truncated` is int(*average). */
  method GeomAverage(thrList: seq<int>) returns (truncated: int)
    ensures truncated == GeomAverageInt(thrList)
  {
    var product := 1;
    var i := 0;
    while i < |thrList|
      invariant 0 <= i <= |thrList|
      invariant product == Product(thrList[..i])
    {
      assert thrList[..i + 1][..i] == thrList[..i];
      product := product * thrList[i];
      i := i + 1;
    }
    assert thrList[..|thrList|] == thrList;
    if |thrList| == 0 {
      truncated := 1;
    } else if |thrList| == 1 {
      truncated := RealToInt(product as real);
    } else if product < 0 {
      truncated := MinInt64;
    } else {
      var root := IntRoot(product, |thrList|);
      truncated := if root <= MaxInt64 then root else MinInt64;
    }
  }

  /** The rung GeomAverageAlgo selects once the history (with the new sample) is `history`. */
  function GeomAverageRung(history: seq<int>, bandwithList: seq<int>, lowest: int): (r: int)
    requires |history| >= 1
    ensures |history| == 1 ==> r == SelectedRung(history[0], bandwithList, lowest)
    ensures |history| >= 2 ==> r == SelectedRung(GeomAverageInt(history), bandwithList, lowest)
    ensures r == lowest || 0 <= r < |bandwithList| - 1
  {
    if |history| < 2 then SelectedRung(history[|history| - 1], bandwithList, lowest)
    else SelectedRung(GeomAverageInt(history), bandwithList, lowest)
  }

  /** The state the strategy keeps between calls. */
  class GeomAverageAbr {
    var thrList: seq<int>
    var repRate: int

    constructor (history: seq<int>, rate: int)
      ensures thrList == history && repRate == rate
    {
      thrList := history;
      repRate := rate;
    }

    /** GeomAverageAlgo: append the raw sample, then select on it or on the geometric mean. */
    method GeomAverageAlgo(newThr: int, bandwithList: seq<int>, lowestMPDrepRateIndex: int)
      modifies this
      ensures thrList == old(thrList) + [newThr]
      ensures repRate == GeomAverageRung(thrList, bandwithList, lowestMPDrepRateIndex)
    {
      thrList := thrList + [newThr];
      if |thrList| < 2 {
        repRate := SelectRepRateWithThroughtput(newThr, bandwithList, lowestMPDrepRateIndex);
        return;
      }
      var average := GeomAverage(thrList);
      repRate := SelectRepRateWithThroughtput(average, bandwithList, lowestMPDrepRateIndex);
    }
  }

  /** Bounds on a product of non-negative terms by bounds on the terms. */
  lemma {:induction false} ProductBounds(s: seq<int>, lo: int, hi: int)
    requires 0 <= lo
    requires forall k :: 0 <= k < |s| ==> lo <= s[k] <= hi
    ensures IPow(lo, |s|) <= Product(s) <= IPow(hi, |s|)
  {
    if |s| > 0 {
      var init := s[..|s| - 1];
      ProductBounds(init, lo, hi);
      IPowNonNegative(lo, |init|);
      MulBounds(IPow(lo, |init|), Product(init), IPow(hi, |init|), lo, s[|s| - 1], hi);
    }
  }

  lemma MulBounds(a: int, b: int, c: int, x: int, y: int, z: int)
    requires 0 <= a <= b <= c && 0 <= x <= y <= z
    ensures a * x <= b * y <= c * z
  {
    assert a * x <= b * x <= b * y;
    assert b * y <= c * y <= c * z;
  }

  /**
   * For at least two samples in [lo, hi] with lo >= 0, the selected value
   * lies between the smallest and the largest sample.
   */
  lemma GeomBetween(s: seq<int>, lo: int, hi: int)
    requires |s| >= 2 && 0 <= lo && hi <= MaxInt64
    requires forall k :: 0 <= k < |s| ==> lo <= s[k] <= hi
    ensures lo <= GeomAverageInt(s) <= hi
  {
    ProductBounds(s, lo, hi);
    IPowNonNegative(lo, |s|);
    var r := IntRoot(Product(s), |s|);
    if r < lo {
      IPowStrictlyMonotone(r, lo, |s|);
      if r + 1 < lo {
        IPowStrictlyMonotone(r + 1, lo, |s|);
      }
    }
    if r > hi {
      IPowStrictlyMonotone(hi, r, |s|);
    }
  }

  /** A single sample is its own geometric mean. */
  lemma GeomSingle(x: int)
    requires MinInt64 <= x <= MaxInt64
    ensures GeomAverageInt([x]) == x
  {
    assert [x][..0] == [];
    assert Product([x]) == x;
    var t := Trunc(x as real);
    assert t == x;
  }

  /** A negative product (an odd number of negative samples) gives NaN, hence -2^63. */
  lemma GeomNegativeProduct(s: seq<int>)
    requires |s| >= 2 && Product(s) < 0
    ensures GeomAverageInt(s) == MinInt64
  {
  }

  const FixtureProduct: int :=
    423865343293238021749337566859374900808332026075712032502968863628630000

  lemma ProductOfFixture()
    ensures Product(FixtureHistory) == FixtureProduct
  {
    var h := FixtureHistory;
    assert h[..0] == [];
    assert Product(h[..1]) == 2843157 by { assert h[..1][..0] == h[..0]; }
    assert Product(h[..2]) == 19021644356025 by { assert h[..2][..1] == h[..1]; }
    assert Product(h[..3]) == 232873413089209507725 by { assert h[..3][..2] == h[..2]; }
    assert Product(h[..4]) == 3043179515819613921731960100 by { assert h[..4][..3] == h[..3]; }
    assert Product(h[..5]) == 46400006274938523042412524552201300 by { assert h[..5][..4] == h[..4]; }
    assert Product(h[..6]) == 970583035257501166292578949263940460055500 by { assert h[..6][..5] == h[..5]; }
    assert Product(h[..7]) == 25296983114874862632897557374772666440867615239000 by { assert h[..7][..6] == h[..6]; }
    assert Product(h[..8]) == 697876524758278122656765366262475721356137678322704738000 by { assert h[..8][..7] == h[..7]; }
    assert Product(h[..9]) == 18218805730054569408486753400804800667790890242415550929807542000 by { assert h[..9][..8] == h[..8]; }
    assert Product(h[..10]) == 423865343293238021749337566859374900808332026075712032502968863628630000 by { assert h[..10][..9] == h[..9]; }
    assert h[..10] == h;
  }

  lemma FixtureRootLow()
    ensures IPow(14545303, 10) <= FixtureProduct
  {
  }

  lemma FixtureRootHigh()
    ensures FixtureProduct < IPow(14545304, 10)
  {
  }

  lemma GeomFixtureMean()
    ensures GeomAverageInt(FixtureHistory) == 14545303
  {
    ProductOfFixture();
    FixtureRootLow();
    FixtureRootHigh();
    IntRootUnique(FixtureProduct, 10, 14545303);
  }

  /**
   * int of the fixture geometric mean 14545303.609... is 14545303; being below
   * rung 2's 15193504, it selects rung 3.
   */
  lemma GeomFixture()
    ensures GeomAverageInt(FixtureHistory) == 14545303
    ensures GeomAverageRung(FixtureHistory, FixtureLadder, 12) == 3
  {
    GeomFixtureMean();
    assert FixtureLadder[0] >= 14545303 && FixtureLadder[1] >= 14545303 && FixtureLadder[2] >= 14545303;
  }

  lemma AppendedRootBounds()
    ensures IPow(15339647, 11) <= FixtureProduct * 26106059 < IPow(15339648, 11)
  {
  }

  lemma AppendedMean()
    ensures GeomAverageInt(FixtureHistory + [26106059]) == 15339647
  {
    ProductOfFixture();
    var h := FixtureHistory + [26106059];
    assert h[..|h| - 1] == FixtureHistory;
    var p := FixtureProduct * 26106059;
    assert Product(h) == p;
    AppendedRootBounds();
    IntRootUnique(p, 11, 15339647);
  }

  /**
   * Appending 26106059 to the fixture history: the history gains that sample
   * last and rung 2 is selected (the geometric mean becomes 15339647.6...).
   */
  method GeomFixtureAppend() returns (history: seq<int>, repRate: int)
    ensures history == FixtureHistory + [26106059] && history[|history| - 1] == 26106059
    ensures repRate == 2
  {
    var abr := new GeomAverageAbr(FixtureHistory, 0);
    abr.GeomAverageAlgo(26106059, FixtureLadder, 12);
    history, repRate := abr.thrList, abr.repRate;
    AppendedMean();
    assert FixtureLadder[0] >= 15339647 && FixtureLadder[1] >= 15339647;
  }
}
