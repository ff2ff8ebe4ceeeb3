/** The backtest: one equal-weighted portfolio return per trading date. */
module Backtest {
  import opened Records
  import opened Signal
  import opened Grouping

  /** The position a record takes on `date`: none when the cache holds no
      indicators for its ticker on that day, else the strategy's signal. */
  function Position(date: string, stock: StockData, cache: IndicatorCache): (p: int)
    ensures p == -1 || p == 0 || p == 1
    ensures Lookup(cache, stock.ticker, date).None? ==> p == 0
  {
    match Lookup(cache, stock.ticker, date)
    case None => 0
    case Some(indicators) => GetSignal(stock.close, indicators)
  }

  /** The two accumulators of a day: the summed signed returns and the
      number of positions taken. */
  datatype Tally = Tally(total: real, count: int)

  function Plus(a: Tally, b: Tally): Tally
  {
    Tally(a.total + b.total, a.count + b.count)
  }

  /** What one record adds to its day's tally. */
  function One(date: string, stock: StockData, cache: IndicatorCache): Tally
  {
    var signal := Position(date, stock, cache);
    if signal != 0 then Tally((signal as real) * stock.nextDayReturn, 1) else Tally(0.0, 0)
  }

  /** The sum of `f` over `stocks`, accumulated in the order given. */
  function TallyOf(stocks: seq<StockData>, f: StockData -> Tally): Tally
  {
    if stocks == [] then Tally(0.0, 0)
    else Plus(TallyOf(stocks[..|stocks| - 1], f), f(stocks[|stocks| - 1]))
  }

  function OneFor(date: string, cache: IndicatorCache): StockData -> Tally
  {
    stock => One(date, stock, cache)
  }

  /** The tally of a day's records, taken in the order given. */
  function DayTally(date: string, stocks: seq<StockData>, cache: IndicatorCache): Tally
  {
    TallyOf(stocks, OneFor(date, cache))
  }

  /** The portfolio return of one day: the mean signed return over the
      positions taken, and exactly zero when none is taken. */
  function DailyReturn(date: string, stocks: seq<StockData>, cache: IndicatorCache): (r: real)
    ensures DayTally(date, stocks, cache).count == 0 ==> r == 0.0
    ensures DayTally(date, stocks, cache).count > 0 ==>
      r * (DayTally(date, stocks, cache).count as real) == DayTally(date, stocks, cache).total
  {
    var t := DayTally(date, stocks, cache);
    if t.count == 0 then 0.0 else t.total / (t.count as real)
  }

  /** One step of the loop over a day's records. */
  lemma TallyStep(date: string, s: seq<StockData>, j: nat, cache: IndicatorCache)
    requires j < |s|
    ensures DayTally(date, s[..j + 1], cache) == Plus(DayTally(date, s[..j], cache), One(date, s[j], cache))
  {
    PrefixSnoc(s, j);
  }

  method RunBacktest(dataByDate: seq<Cohort>, indicatorCache: IndicatorCache)
      returns (portfolioDailyReturns: seq<real>)
    ensures |portfolioDailyReturns| == |dataByDate|
    ensures forall i :: 0 <= i < |dataByDate| ==>
      portfolioDailyReturns[i] == DailyReturn(dataByDate[i].date, dataByDate[i].stocks, indicatorCache)
  {
    portfolioDailyReturns := [];
    var i := 0;
    while i < |dataByDate|
      invariant 0 <= i <= |dataByDate|
      invariant |portfolioDailyReturns| == i
      invariant forall k :: 0 <= k < i ==>
        portfolioDailyReturns[k] == DailyReturn(dataByDate[k].date, dataByDate[k].stocks, indicatorCache)
    {
      var date := dataByDate[i].date;
      var stocksForDay := dataByDate[i].stocks;
      var totalReturn := 0.0;
      var positionsTaken := 0;
      var j := 0;
      while j < |stocksForDay|
        invariant 0 <= j <= |stocksForDay|
        invariant DayTally(date, stocksForDay[..j], indicatorCache) == Tally(totalReturn, positionsTaken)
      {
        var stock := stocksForDay[j];
        TallyStep(date, stocksForDay, j, indicatorCache);
        var indicators := Lookup(indicatorCache, stock.ticker, date);
        if indicators.Some? {
          var signal := GetSignal(stock.close, indicators.value);
          if signal != 0 {
            totalReturn := totalReturn + (signal as real) * stock.nextDayReturn;
            positionsTaken := positionsTaken + 1;
          }
        }
        j := j + 1;
      }
      assert stocksForDay[..j] == stocksForDay;
      var dailyReturn := if positionsTaken == 0 then 0.0 else totalReturn / (positionsTaken as real);
      portfolioDailyReturns := portfolioDailyReturns + [dailyReturn];
      i := i + 1;
    }
  }

  /** The pipeline from the input rows to the return series: group by date,
      then backtest. There is one return per distinct input date, in
      ascending date order, each that date's equal-weighted return. */
  method BacktestRows(allData: seq<StockData>, indicatorCache: IndicatorCache)
      returns (dataByDate: seq<Cohort>, portfolioDailyReturns: seq<real>)
    ensures IsDateGrouping(allData, dataByDate)
    ensures |portfolioDailyReturns| == |dataByDate| == |KeysOf(allData, ByDate)|
    ensures StrictlyAscending(dataByDate)
    ensures forall i :: 0 <= i < |dataByDate| ==>
      portfolioDailyReturns[i] == DailyReturn(dataByDate[i].date, Members(allData, ByDate, dataByDate[i].date), indicatorCache)
  {
    dataByDate := GroupDataByDate(allData);
    DateGroupingCountsDates(allData, dataByDate);
    portfolioDailyReturns := RunBacktest(dataByDate, indicatorCache);
  }

  // ----- properties of a day's return

  lemma TallyOfEmptyRight(a: seq<StockData>, f: StockData -> Tally)
    ensures TallyOf(a + [], f) == Plus(TallyOf(a, f), TallyOf([], f))
  {
    assert a + [] == a;
    var ta := TallyOf(a, f);
    assert Plus(ta, Tally(0.0, 0)) == ta;
  }

  lemma ConcatSplitLast(a: seq<StockData>, b: seq<StockData>)
    requires b != []
    ensures a + b != [] && (a + b)[..|a + b| - 1] == a + b[..|b| - 1] && (a + b)[|a + b| - 1] == b[|b| - 1]
  {
    assert (a + b)[..|a + b| - 1] == a + b[..|b| - 1];
  }

  lemma TallyOfConcatStep(a: seq<StockData>, b: seq<StockData>, f: StockData -> Tally)
    requires b != []
    requires TallyOf(a + b[..|b| - 1], f) == Plus(TallyOf(a, f), TallyOf(b[..|b| - 1], f))
    ensures TallyOf(a + b, f) == Plus(TallyOf(a, f), TallyOf(b, f))
  {
    ConcatSplitLast(a, b);
  }

  lemma {:induction false} TallyOfConcat(a: seq<StockData>, b: seq<StockData>, f: StockData -> Tally)
    ensures TallyOf(a + b, f) == Plus(TallyOf(a, f), TallyOf(b, f))
  {
    if b == [] {
      TallyOfEmptyRight(a, f);
    } else {
      TallyOfConcat(a, b[..|b| - 1], f);
      TallyOfConcatStep(a, b, f);
    }
  }

  lemma TallyOfSingle(x: StockData, f: StockData -> Tally)
    ensures TallyOf([x], f) == f(x)
  {
    assert [x][..0] == [];
  }

  lemma SplitAround(t: seq<StockData>, k: nat)
    requires k < |t|
    ensures t == t[..k] + [t[k]] + t[k + 1..]
  {
  }

  /** Taking record `k` out and adding its part back gives the same tally. */
  lemma TallyOfRemove(t: seq<StockData>, k: nat, f: StockData -> Tally)
    requires k < |t|
    ensures TallyOf(t, f) == Plus(TallyOf(t[..k] + t[k + 1..], f), f(t[k]))
  {
    var a, x, b := t[..k], t[k], t[k + 1..];
    SplitAround(t, k);
    TallyOfConcat(a + [x], b, f);
    TallyOfConcat(a, [x], f);
    TallyOfConcat(a, b, f);
    TallyOfSingle(x, f);
  }

  lemma MultisetRemove(t: seq<StockData>, k: nat)
    requires k < |t|
    ensures multiset(t[..k] + t[k + 1..]) == multiset(t) - multiset{t[k]}
  {
    SplitAround(t, k);
  }

  /** The order in which the records come does not change their tally. */
  lemma {:induction false} TallyOfPermutation(s: seq<StockData>, t: seq<StockData>, f: StockData -> Tally)
    requires multiset(s) == multiset(t)
    ensures TallyOf(s, f) == TallyOf(t, f)
    decreases |s|
  {
    if s == [] {
      assert |t| == |multiset(t)| == 0;
    } else {
      var x := s[|s| - 1];
      MultisetSplitLast(s);
      assert x in multiset(t);
      var k :| 0 <= k < |t| && t[k] == x;
      MultisetRemove(t, k);
      TallyOfPermutation(s[..|s| - 1], t[..k] + t[k + 1..], f);
      TallyOfRemove(t, k, f);
    }
  }

  /** The daily return does not depend on the order of the day's records. */
  lemma DailyReturnPermutation(date: string, s: seq<StockData>, t: seq<StockData>, cache: IndicatorCache)
    requires multiset(s) == multiset(t)
    ensures DailyReturn(date, s, cache) == DailyReturn(date, t, cache)
  {
    TallyOfPermutation(s, t, OneFor(date, cache));
  }

  /** A record with no indicators for the day, or with a flat signal, can sit
      anywhere in the day without changing its return. */
  lemma IdleRecordIgnored(date: string, a: seq<StockData>, x: StockData, b: seq<StockData>, cache: IndicatorCache)
    requires Position(date, x, cache) == 0
    ensures DailyReturn(date, a + [x] + b, cache) == DailyReturn(date, a + b, cache)
  {
    var f, t := OneFor(date, cache), a + [x] + b;
    assert t[..|a|] + t[|a| + 1..] == a + b;
    TallyOfRemove(t, |a|, f);
  }

  lemma DayTallySnoc(date: string, s: seq<StockData>, cache: IndicatorCache)
    requires s != []
    ensures DayTally(date, s, cache) == Plus(DayTally(date, s[..|s| - 1], cache), One(date, s[|s| - 1], cache))
  {
  }

  lemma PrefixAgrees(s: seq<StockData>)
    requires s != []
    ensures forall k :: 0 <= k < |s| - 1 ==> s[..|s| - 1][k] == s[k]
  {
  }

  /** The positions taken never outnumber the day's records. */
  lemma {:induction false} CountBounded(date: string, s: seq<StockData>, cache: IndicatorCache)
    ensures 0 <= DayTally(date, s, cache).count <= |s|
  {
    if s != [] {
      CountBounded(date, s[..|s| - 1], cache);
      DayTallySnoc(date, s, cache);
    }
  }

  /** No position is taken exactly when every record of the day has no
      indicators or a flat signal; the day's return is then zero. */
  lemma {:induction false} NoPositionIff(date: string, s: seq<StockData>, cache: IndicatorCache)
    ensures DayTally(date, s, cache).count == 0 <==> forall k :: 0 <= k < |s| ==> Position(date, s[k], cache) == 0
    ensures (forall k :: 0 <= k < |s| ==> Position(date, s[k], cache) == 0) ==> DailyReturn(date, s, cache) == 0.0
  {
    if s != [] {
      var init := s[..|s| - 1];
      NoPositionIff(date, init, cache);
      CountBounded(date, init, cache);
      DayTallySnoc(date, s, cache);
      PrefixAgrees(s);
    }
  }

  /** What one record adds lies within b times its position count. */
  lemma OneBounded(date: string, x: StockData, cache: IndicatorCache, b: real)
    requires -b <= x.nextDayReturn <= b
    ensures WithinBound(One(date, x, cache), b)
  {
  }

  /** The summed signed returns lie within b times the number of positions. */
  predicate WithinBound(t: Tally, b: real)
  {
    -b * (t.count as real) <= t.total <= b * (t.count as real)
  }

  lemma BoundStep(ti: Tally, tx: Tally, b: real)
    requires WithinBound(ti, b) && WithinBound(tx, b)
    ensures WithinBound(Plus(ti, tx), b)
  {
    var ni, nx := ti.count as real, tx.count as real;
    assert b * (ni + nx) == b * ni + b * nx;
    assert -b * (ni + nx) == -b * ni + -b * nx;
  }

  /** When every next-day return lies in [-b, b], so does each position's
      signed return, and the day's sum stays within the bound. */
  lemma {:induction false} TotalBounded(date: string, s: seq<StockData>, cache: IndicatorCache, b: real)
    requires forall k :: 0 <= k < |s| ==> -b <= s[k].nextDayReturn <= b
    ensures WithinBound(DayTally(date, s, cache), b)
  {
    if s != [] {
      var init, x := s[..|s| - 1], s[|s| - 1];
      PrefixAgrees(s);
      TotalBounded(date, init, cache, b);
      OneBounded(date, x, cache, b);
      DayTallySnoc(date, s, cache);
      BoundStep(DayTally(date, init, cache), One(date, x, cache), b);
    }
  }

  lemma MeanBounded(total: real, n: real, b: real)
    requires n > 0.0 && -b * n <= total <= b * n
    ensures -b <= total / n <= b
  {
  }

  /** An equal-weighted mean of signed returns stays within the returns' bound. */
  lemma DailyReturnBounded(date: string, s: seq<StockData>, cache: IndicatorCache, b: real)
    requires b >= 0.0
    requires forall k :: 0 <= k < |s| ==> -b <= s[k].nextDayReturn <= b
    ensures -b <= DailyReturn(date, s, cache) <= b
  {
    TotalBounded(date, s, cache, b);
    var t := DayTally(date, s, cache);
    if t.count > 0 {
      MeanBounded(t.total, t.count as real, b);
      assert DailyReturn(date, s, cache) == t.total / (t.count as real);
    }
  }


}
