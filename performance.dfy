/** Summary statistics of the portfolio's daily return series. */
module Performance {
  import opened Records

  function Sum(s: seq<real>): real
  {
    if s == [] then 0.0 else Sum(s[..|s| - 1]) + s[|s| - 1]
  }

  function Mean(s: seq<real>): real
    requires s != []
  {
    Sum(s) / (|s| as real)
  }

  /** The summed squared deviations of `s` from `m`. */
  function SumSqDev(s: seq<real>, m: real): (r: real)
    ensures r >= 0.0
  {
    if s == [] then 0.0
    else
      var d := s[|s| - 1] - m;
      SquareZero(d);
      SumSqDev(s[..|s| - 1], m) + d * d
  }

  /** The population variance: squared deviations divided by the count. */
  function Variance(s: seq<real>): (r: real)
    requires s != []
    ensures r >= 0.0
  {
    SumSqDev(s, Mean(s)) / (|s| as real)
  }

  /** Growth of one unit of capital compounded over `s`. */
  function Compounded(s: seq<real>): real
  {
    if s == [] then 1.0 else Compounded(s[..|s| - 1]) * (1.0 + s[|s| - 1])
  }

  /** The running peak of the compounded value, which starts at 1. */
  function Peak(s: seq<real>): (r: real)
    ensures r >= 1.0 && r >= Compounded(s)
  {
    if s == [] then 1.0
    else
      var c, p := Compounded(s), Peak(s[..|s| - 1]);
      if c > p then c else p
  }

  /** The relative fall from the running peak after the last day of `s`. */
  function Drawdown(s: seq<real>): (r: real)
    requires s != []
    ensures r <= 0.0
  {
    var p := Peak(s);
    assert Compounded(s) - p <= 0.0;
    (Compounded(s) - p) / p
  }

  /** The deepest drawdown seen over `s`, or zero when there is none. */
  function MaxDrawdown(s: seq<real>): (r: real)
    ensures r <= 0.0
  {
    if s == [] then 0.0
    else
      var d, m := Drawdown(s), MaxDrawdown(s[..|s| - 1]);
      if d < m then d else m
  }

  /** What `calculateAndPrintPerformance` reports: nothing for an empty
      series, else the daily mean, the population variance (the square of
      the daily standard deviation), the annualised return and the maximum
      drawdown. */
  datatype Report =
    | NoReturns
    | Report(mean: real, variance: real, annReturn: real, maxDrawdown: real)

  /** The Sharpe ratio, zero when the volatility is zero. */
  function SharpeRatio(annReturn: real, annVolatility: real): (r: real)
    ensures annVolatility == 0.0 ==> r == 0.0
    ensures annVolatility != 0.0 ==> r * annVolatility == annReturn
  {
    if annVolatility == 0.0 then 0.0 else annReturn / annVolatility
  }

  lemma RealPrefixSnoc(s: seq<real>, i: nat)
    requires i < |s|
    ensures s[..i + 1] != [] && s[..i + 1][..i] == s[..i] && s[..i + 1][i] == s[i]
  {
  }

  lemma SumStep(s: seq<real>, i: nat)
    requires i < |s|
    ensures Sum(s[..i + 1]) == Sum(s[..i]) + s[i]
  {
    RealPrefixSnoc(s, i);
  }

  lemma SumSqDevStep(s: seq<real>, i: nat, m: real)
    requires i < |s|
    ensures SumSqDev(s[..i + 1], m) == SumSqDev(s[..i], m) + (s[i] - m) * (s[i] - m)
  {
    RealPrefixSnoc(s, i);
  }

  lemma CompoundedStep(s: seq<real>, i: nat, c: real)
    requires i < |s| && c == Compounded(s[..i])
    ensures c * (1.0 + s[i]) == Compounded(s[..i + 1])
  {
    RealPrefixSnoc(s, i);
  }

  lemma PeakStep(s: seq<real>, i: nat, c: real, p: real)
    requires i < |s| && c == Compounded(s[..i + 1]) && p == Peak(s[..i])
    ensures (if c > p then c else p) == Peak(s[..i + 1])
  {
    RealPrefixSnoc(s, i);
  }

  lemma MaxDrawdownStep(s: seq<real>, i: nat, c: real, p: real, m: real)
    requires i < |s| && c == Compounded(s[..i + 1]) && p == Peak(s[..i + 1]) && m == MaxDrawdown(s[..i])
    ensures p >= 1.0
    ensures (if (c - p) / p < m then (c - p) / p else m) == MaxDrawdown(s[..i + 1])
  {
    RealPrefixSnoc(s, i);
  }

  method CalculatePerformance(dailyReturns: seq<real>) returns (report: Report)
    ensures dailyReturns == [] <==> report.NoReturns?
    ensures dailyReturns != [] ==> report == Report(Mean(dailyReturns), Variance(dailyReturns),
                                                    Mean(dailyReturns) * (TradingDaysPerYear as real), MaxDrawdown(dailyReturns))
  {
    if dailyReturns == [] {
      return NoReturns;
    }
    var sum := 0.0;
    var i := 0;
    while i < |dailyReturns|
      invariant 0 <= i <= |dailyReturns|
      invariant sum == Sum(dailyReturns[..i])
    {
      SumStep(dailyReturns, i);
      sum := sum + dailyReturns[i];
      i := i + 1;
    }
    assert dailyReturns[..i] == dailyReturns;
    var mean := sum / (|dailyReturns| as real);

    var sumSqDev := 0.0;
    i := 0;
    while i < |dailyReturns|
      invariant 0 <= i <= |dailyReturns|
      invariant sumSqDev == SumSqDev(dailyReturns[..i], mean)
    {
      SumSqDevStep(dailyReturns, i, mean);
      sumSqDev := sumSqDev + (dailyReturns[i] - mean) * (dailyReturns[i] - mean);
      i := i + 1;
    }
    assert dailyReturns[..i] == dailyReturns;
    var variance := sumSqDev / (|dailyReturns| as real);
    var annReturn := mean * (TradingDaysPerYear as real);

    var maxDrawdown := 0.0;
    var cumulativeReturn := 1.0;
    var peakReturn := 1.0;
    i := 0;
    while i < |dailyReturns|
      invariant 0 <= i <= |dailyReturns|
      invariant cumulativeReturn == Compounded(dailyReturns[..i])
      invariant peakReturn == Peak(dailyReturns[..i])
      invariant maxDrawdown == MaxDrawdown(dailyReturns[..i])
    {
      CompoundedStep(dailyReturns, i, cumulativeReturn);
      cumulativeReturn := cumulativeReturn * (1.0 + dailyReturns[i]);
      PeakStep(dailyReturns, i, cumulativeReturn, peakReturn);
      if cumulativeReturn > peakReturn {
        peakReturn := cumulativeReturn;
      }
      MaxDrawdownStep(dailyReturns, i, cumulativeReturn, peakReturn, maxDrawdown);
      var drawdown := (cumulativeReturn - peakReturn) / peakReturn;
      if drawdown < maxDrawdown {
        maxDrawdown := drawdown;
      }
      i := i + 1;
    }
    assert dailyReturns[..i] == dailyReturns;
    report := Report(mean, variance, annReturn, maxDrawdown);
  }

  // ----- variance

  lemma SquareZero(d: real)
    ensures d * d >= 0.0
    ensures d != 0.0 ==> d * d > 0.0
  {
    if d < 0.0 {
      var e := -d;
      assert e * e > 0.0;
      assert d * d == e * e;
    }
  }

  /** The squared deviations vanish exactly when every element equals `m`. */
  lemma {:induction false} SumSqDevZeroIff(s: seq<real>, m: real)
    ensures SumSqDev(s, m) == 0.0 <==> forall k :: 0 <= k < |s| ==> s[k] == m
  {
    if s != [] {
      var init, x := s[..|s| - 1], s[|s| - 1];
      SumSqDevZeroIff(init, m);
      var d := x - m;
      SquareZero(d);
      assert SumSqDev(s, m) == SumSqDev(init, m) + d * d;
      assert forall k :: 0 <= k < |init| ==> init[k] == s[k];
      if d != 0.0 {
        calc {
          SumSqDev(s, m);
        ==
          SumSqDev(init, m) + d * d;
        >=
          d * d;
        >
          0.0;
        }
      }
    }
  }

  /** The variance is zero exactly when every return equals the mean. */
  lemma VarianceZeroIff(s: seq<real>)
    requires s != []
    ensures Variance(s) == 0.0 <==> forall k :: 0 <= k < |s| ==> s[k] == Mean(s)
  {
    SumSqDevZeroIff(s, Mean(s));
  }

  lemma {:induction false} SumOfConstant(s: seq<real>, c: real)
    requires forall k :: 0 <= k < |s| ==> s[k] == c
    ensures Sum(s) == (|s| as real) * c
  {
    if s != [] {
      var init := s[..|s| - 1];
      assert forall k :: 0 <= k < |init| ==> init[k] == s[k];
      SumOfConstant(init, c);
    }
  }

  /** A constant series has that constant as its mean and no variance. */
  lemma ConstantSeries(s: seq<real>, c: real)
    requires s != []
    requires forall k :: 0 <= k < |s| ==> s[k] == c
    ensures Mean(s) == c && Variance(s) == 0.0
  {
    SumOfConstant(s, c);
    SumSqDevZeroIff(s, c);
  }

  /** For the non-negative annualised volatility of a non-empty series (whose
      square is 252 times the variance), the Sharpe ratio is zero exactly when
      every return equals the mean or the mean return is zero. */
  lemma SharpeZeroIff(s: seq<real>, annVolatility: real)
    requires s != []
    requires annVolatility >= 0.0
    requires annVolatility * annVolatility == Variance(s) * (TradingDaysPerYear as real)
    ensures SharpeRatio(Mean(s) * (TradingDaysPerYear as real), annVolatility) == 0.0
        <==> (forall k :: 0 <= k < |s| ==> s[k] == Mean(s)) || Mean(s) == 0.0
  {
    VarianceZeroIff(s);
    SquareZero(annVolatility);
    var annReturn := Mean(s) * (TradingDaysPerYear as real);
    if annVolatility != 0.0 {
      var r := SharpeRatio(annReturn, annVolatility);
      if r == 0.0 {
        assert annReturn == 0.0;
      }
    }
  }

  // ----- drawdown

  lemma RealPrefixes(s: seq<real>)
    requires s != []
    ensures forall k :: 0 <= k <= |s| - 1 ==> s[..|s| - 1][..k] == s[..k]
  {
  }

  /** The peak is the largest compounded value seen so far, starting from 1. */
  lemma {:induction false} PeakIsRunningMaximum(s: seq<real>)
    ensures forall k :: 0 <= k <= |s| ==> Compounded(s[..k]) <= Peak(s)
    ensures Peak(s) == 1.0 || exists k :: 1 <= k <= |s| && Peak(s) == Compounded(s[..k])
  {
    if s != [] {
      var init := s[..|s| - 1];
      PeakIsRunningMaximum(init);
      RealPrefixes(s);
      assert s[..|s|] == s;
      if Peak(s) != 1.0 && Peak(s) != Compounded(s) {
        var k :| 1 <= k <= |init| && Peak(init) == Compounded(init[..k]);
        assert Peak(s) == Compounded(s[..k]);
      }
    }
  }

  /** The maximum drawdown is the smallest drawdown over all days, or zero. */
  lemma {:induction false} MaxDrawdownIsMinimum(s: seq<real>)
    ensures forall k :: 1 <= k <= |s| ==> MaxDrawdown(s) <= Drawdown(s[..k])
    ensures MaxDrawdown(s) == 0.0 || exists k :: 1 <= k <= |s| && MaxDrawdown(s) == Drawdown(s[..k])
  {
    if s != [] {
      var init := s[..|s| - 1];
      MaxDrawdownIsMinimum(init);
      RealPrefixes(s);
      assert s[..|s|] == s;
      if MaxDrawdown(s) != 0.0 && MaxDrawdown(s) != Drawdown(s) {
        var k :| 1 <= k <= |init| && MaxDrawdown(init) == Drawdown(init[..k]);
        assert MaxDrawdown(s) == Drawdown(s[..k]);
      }
    }
  }

  /** Day by day the peak never falls and the maximum drawdown never rises. */
  lemma {:induction false} RunningExtremaMonotone(s: seq<real>, j: nat, k: nat)
    requires j <= k <= |s|
    ensures Peak(s[..j]) <= Peak(s[..k])
    ensures MaxDrawdown(s[..k]) <= MaxDrawdown(s[..j])
    decreases k - j
  {
    if j < k {
      RunningExtremaMonotone(s, j, k - 1);
      RealPrefixSnoc(s, k - 1);
    }
  }

  /** Without a losing day the series never falls below its peak. */
  lemma {:induction false} NoLossNoDrawdown(s: seq<real>)
    requires forall k :: 0 <= k < |s| ==> s[k] >= 0.0
    ensures Peak(s) == Compounded(s)
    ensures MaxDrawdown(s) == 0.0
  {
    if s != [] {
      var init, x := s[..|s| - 1], s[|s| - 1];
      assert forall k :: 0 <= k < |init| ==> init[k] == s[k];
      NoLossNoDrawdown(init);
      var c := Compounded(init);
      assert c * (1.0 + x) == c + c * x;
      assert c * x >= 0.0;
    }
  }

  lemma {:induction false} CompoundedNonNegative(s: seq<real>)
    requires forall k :: 0 <= k < |s| ==> s[k] >= -1.0
    ensures Compounded(s) >= 0.0
  {
    if s != [] {
      var init, x := s[..|s| - 1], s[|s| - 1];
      assert forall k :: 0 <= k < |init| ==> init[k] == s[k];
      CompoundedNonNegative(init);
      var c := Compounded(init);
      assert c * (1.0 + x) >= 0.0;
    }
  }

  lemma RelativeFallBounded(c: real, p: real)
    requires c >= 0.0 && p >= 1.0
    ensures (c - p) / p >= -1.0
  {
    var r := (c - p) / p;
    assert r * p == c - p;
  }

  /** As long as no day loses more than everything, no drawdown is deeper
      than -1, a total loss. */
  lemma {:induction false} DrawdownAtLeastTotalLoss(s: seq<real>)
    requires forall k :: 0 <= k < |s| ==> s[k] >= -1.0
    ensures MaxDrawdown(s) >= -1.0
  {
    if s != [] {
      var init := s[..|s| - 1];
      assert forall k :: 0 <= k < |init| ==> init[k] == s[k];
      DrawdownAtLeastTotalLoss(init);
      CompoundedNonNegative(s);
      RelativeFallBounded(Compounded(s), Peak(s));
    }
  }
}
