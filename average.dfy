/**
 * The mean-average strategy (algorithms/average.go): select a rung on the
 * arithmetic mean of the whole throughput history.
 */
module Average {
  import opened GoNum
  import opened HelperFunctions

  /** Σ s, added left to right as meanAverage's loop adds it. */
  function Sum(s: seq<int>): int
  {
    if |s| == 0 then 0 else Sum(s[..|s| - 1]) + s[|s| - 1]
  }

  /** The float64 meanAverage leaves in `*average`: Σ s / len(s) (NaN for no samples). */
  function MeanOf(s: seq<int>): Float64
  {
    Div(Sum(s) as real, |s| as real)
  }

  /** meanAverage, with its accumulation loop. */
  method MeanAverage(thrList: seq<int>) returns (average: Float64)
    ensures average == MeanOf(thrList)
  {
    var acc := 0.0;
    var i := 0;
    while i < |thrList|
      invariant 0 <= i <= |thrList|
      invariant acc == Sum(thrList[..i]) as real
    {
      assert thrList[..i + 1][..i] == thrList[..i];
      acc := acc + thrList[i] as real;
      i := i + 1;
    }
    assert thrList[..|thrList|] == thrList;
    average := Div(acc, |thrList| as real);
  }

  /**
   * The rung MeanAverageAlgo selects once the history (including the new
   * sample) is `history`: the raw sample while it is the only one, otherwise
   * int(mean).
   */
  function MeanAverageRung(history: seq<int>, bandwithList: seq<int>, lowest: int): (r: int)
    requires |history| >= 1
    ensures |history| == 1 ==> r == SelectedRung(history[0], bandwithList, lowest)
    ensures |history| >= 2 ==> r == SelectedRung(ToInt(MeanOf(history)), bandwithList, lowest)
    ensures r == lowest || 0 <= r < |bandwithList| - 1
  {
    if |history| < 2 then SelectedRung(history[|history| - 1], bandwithList, lowest)
    else SelectedRung(ToInt(MeanOf(history)), bandwithList, lowest)
  }

  /** The state the strategy keeps between calls. */
  class MeanAverageAbr {
    var thrList: seq<int>
    var repRate: int

    constructor (history: seq<int>, rate: int)
      ensures thrList == history && repRate == rate
    {
      thrList := history;
      repRate := rate;
    }

    /** MeanAverageAlgo: append the raw sample, then select on it or on the mean. */
    method MeanAverageAlgo(newThr: int, bandwithList: seq<int>, lowestMPDrepRateIndex: int)
      modifies this
      ensures thrList == old(thrList) + [newThr]
      ensures repRate == MeanAverageRung(thrList, bandwithList, lowestMPDrepRateIndex)
    {
      thrList := thrList + [newThr];
      if |thrList| < 2 {
        repRate := SelectRepRateWithThroughtput(newThr, bandwithList, lowestMPDrepRateIndex);
        return;
      }
      var average := MeanAverage(thrList);
      repRate := SelectRepRateWithThroughtput(ToInt(average), bandwithList, lowestMPDrepRateIndex);
    }
  }

  /** Bounds on a sum by bounds on its terms. */
  lemma {:induction false} SumBounds(s: seq<int>, lo: int, hi: int)
    requires forall k :: 0 <= k < |s| ==> lo <= s[k] <= hi
    ensures |s| * lo <= Sum(s) <= |s| * hi
  {
    if |s| > 0 {
      SumBounds(s[..|s| - 1], lo, hi);
      assert |s| * lo == (|s| - 1) * lo + lo;
      assert |s| * hi == (|s| - 1) * hi + hi;
    }
  }

  lemma MeanIn(n: int, total: int, lo: int, hi: int)
    requires n > 0 && n * lo <= total <= n * hi
    ensures lo as real <= total as real / n as real <= hi as real
  {
    assert (n * lo) as real == n as real * lo as real;
    assert (n * hi) as real == n as real * hi as real;
    assert total as real / n as real * n as real == total as real;
  }

  /** The mean of a non-empty history lies between its smallest and largest sample. */
  lemma MeanBetween(s: seq<int>, lo: int, hi: int)
    requires |s| > 0
    requires forall k :: 0 <= k < |s| ==> lo <= s[k] <= hi
    ensures MeanOf(s).Fin?
    ensures lo as real <= MeanOf(s).val <= hi as real
  {
    SumBounds(s, lo, hi);
    MeanIn(|s|, Sum(s), lo, hi);
  }

  /** With no samples the mean is NaN, which int() turns into -2^63. */
  lemma MeanOfNothing()
    ensures MeanOf([]) == NaN
    ensures ToInt(MeanOf([])) == MinInt64
  {
  }

  /** The mean of the ten fixture samples is 17403129.9, and it selects rung 2. */
  lemma MeanFixture()
    ensures MeanOf(FixtureHistory) == Fin(17403129.9)
    ensures MeanAverageRung(FixtureHistory, FixtureLadder, 12) == 2
  {
    assert Sum(FixtureHistory) == 174031299 by { SumOfFixture(); }
    FixtureSelection();
  }

  lemma SumOfFixture()
    ensures Sum(FixtureHistory) == 174031299
  {
    var h := FixtureHistory;
    assert h[..0] == [];
    assert Sum(h[..1]) == 2843157 by { assert h[..1][..0] == h[..0]; }
    assert Sum(h[..2]) == 9533482 by { assert h[..2][..1] == h[..1]; }
    assert Sum(h[..3]) == 21776031 by { assert h[..3][..2] == h[..2]; }
    assert Sum(h[..4]) == 34843987 by { assert h[..4][..3] == h[..3]; }
    assert Sum(h[..5]) == 50091200 by { assert h[..5][..4] == h[..4]; }
    assert Sum(h[..6]) == 71008935 by { assert h[..6][..5] == h[..5]; }
    assert Sum(h[..7]) == 97072633 by { assert h[..7][..6] == h[..6]; }
    assert Sum(h[..8]) == 124659975 by { assert h[..8][..7] == h[..7]; }
    assert Sum(h[..9]) == 150766034 by { assert h[..9][..8] == h[..8]; }
    assert h[..10] == h;
    assert h[..10][..9] == h[..9];
  }

  /**
   * Appending 26106059 to the fixture history: the history gains that sample
   * last, the mean becomes 200137358/11 and rung 2 is selected.
   */
  method MeanFixtureAppend() returns (history: seq<int>, repRate: int)
    ensures history == FixtureHistory + [26106059] && history[|history| - 1] == 26106059
    ensures repRate == 2
  {
    var abr := new MeanAverageAbr(FixtureHistory, 0);
    abr.MeanAverageAlgo(26106059, FixtureLadder, 12);
    history, repRate := abr.thrList, abr.repRate;
    SumOfFixture();
    var h := FixtureHistory + [26106059];
    assert h[..|h| - 1] == FixtureHistory;
    assert MeanOf(h) == Fin(200137358.0 / 11.0);
    assert ToInt(MeanOf(h)) == 18194305;
    assert FixtureLadder[0] >= 18194305 && FixtureLadder[1] >= 18194305;
  }
}
