/**
 * The walk-forward driver of one pair: builds the change-in-spread signal from
 * the merged intraday prices and the previous day's closing ratio, lists the
 * trading dates, and for every date with enough history calibrates each
 * confidence level on the lookback window and runs that level's state machine
 * over the day, appending to the pair's ledger.
 */
module Backtest {
  import opened Wrappers
  import opened Calibration
  import opened Session

  /**
   * `look_back_days`: the window of date index `i` starts `LookBackDays + 1`
   * trading dates back and, ending at midnight of `dates[i - 1]`, holds
   * `LookBackDays` trading dates.
   */
  const LookBackDays: nat := 5
  /** The configured confidence levels, in the order they are simulated. */
  const ConfidenceLevels: seq<real> := [0.9, 0.95]

  /** The first and the last minute of the day that the 09:40 to 16:00 time filter keeps. */
  const SessionOpen: int := 580
  const SessionClose: int := 960

  /** One row of the pair's merged, gap-free intraday price table, inside the trading window. */
  datatype Row = Row(date: int, minute: int, priceA: real, priceB: real)

  /** `r` is stamped strictly before `s`. */
  predicate Earlier(r: Row, s: Row)
  {
    r.date < s.date || (r.date == s.date && r.minute < s.minute)
  }

  /** Rows with positive prices, stamped from 09:40 to 16:00, in strictly increasing time order. */
  predicate ValidRows(rows: seq<Row>)
  {
    (forall i :: 0 <= i < |rows| ==>
       rows[i].priceA > 0.0 && rows[i].priceB > 0.0 && SessionOpen <= rows[i].minute <= SessionClose) &&
    (forall i, j :: 0 <= i < j < |rows| ==> Earlier(rows[i], rows[j]))
  }

  /** Ticks stamped inside the trading window, so never at midnight. */
  predicate InSession(ticks: seq<Tick>)
  {
    forall i :: 0 <= i < |ticks| ==> SessionOpen <= ticks[i].minute <= SessionClose
  }

  /** Previous closing ratios, keyed by calendar date; closing prices are positive. */
  predicate PositiveReferences(prevClose: map<int, real>)
  {
    forall d :: d in prevClose ==> prevClose[d] > 0.0
  }

  /**
   * The change in spread: the intraday ratio over the reference ratio of its
   * date, minus one. It is zero exactly when the ratio is back at the previous
   * close, and it never falls to -1 or below.
   */
  function ChangeInSpread(r: Row, prevClose: map<int, real>): (c: real)
    requires r.priceB > 0.0 && r.date in prevClose && prevClose[r.date] > 0.0
    ensures r.priceA > 0.0 ==> c > -1.0
    ensures c == 0.0 <==> r.priceA / r.priceB == prevClose[r.date]
  {
    (r.priceA / r.priceB) / prevClose[r.date] - 1.0
  }

  /**
   * The signal of every row, or the date of the first row whose date has no
   * reference ratio: the lookup fails loudly rather than defaulting.
   */
  function Signals(rows: seq<Row>, prevClose: map<int, real>): (r: Result<seq<Tick>, int>)
    requires ValidRows(rows) && PositiveReferences(prevClose)
    ensures r.Failure? <==> exists i :: 0 <= i < |rows| && rows[i].date !in prevClose
    ensures r.Failure? ==> exists i :: 0 <= i < |rows| && rows[i].date == r.error && r.error !in prevClose &&
                                       forall k :: 0 <= k < i ==> rows[k].date in prevClose
    ensures r.Success? ==>
      |r.value| == |rows| &&
      forall i :: 0 <= i < |rows| ==>
        r.value[i] == Tick(rows[i].date, rows[i].minute, ChangeInSpread(rows[i], prevClose),
                           rows[i].priceA, rows[i].priceB)
    decreases |rows|
  {
    if rows == [] then Success([])
    else if rows[0].date !in prevClose then Failure(rows[0].date)
    else
      var head := Tick(rows[0].date, rows[0].minute, ChangeInSpread(rows[0], prevClose),
                       rows[0].priceA, rows[0].priceB);
      match Signals(rows[1..], prevClose)
      case Failure(d) =>
        assert forall i :: 0 <= i < |rows| - 1 ==> rows[1..][i] == rows[i + 1];
        Failure(d)
      case Success(rest) => Success([head] + rest)
  }

  predicate DatesOrdered(ticks: seq<Tick>)
  {
    forall i, j :: 0 <= i <= j < |ticks| ==> ticks[i].date <= ticks[j].date
  }

  /** The distinct dates of time-ordered ticks, ascending. */
  function TradingDates(ticks: seq<Tick>): (ds: seq<int>)
    requires DatesOrdered(ticks)
    ensures forall i, j :: 0 <= i < j < |ds| ==> ds[i] < ds[j]
    ensures forall d :: d in ds <==> exists i :: 0 <= i < |ticks| && ticks[i].date == d
    ensures forall i :: 0 <= i < |ticks| ==> ticks[i].date in ds
    decreases |ticks|
  {
    if ticks == [] then []
    else
      var rest := TradingDates(ticks[1..]);
      assert forall i :: 0 <= i < |ticks| - 1 ==> ticks[1..][i] == ticks[i + 1];
      if rest != [] && rest[0] == ticks[0].date then rest
      else
        assert forall k :: 0 <= k < |rest| ==> ticks[0].date < rest[k] by {
          forall k | 0 <= k < |rest| ensures ticks[0].date < rest[k] {
            assert rest[0] in rest;
            var i :| 0 <= i < |ticks[1..]| && ticks[1..][i].date == rest[0];
            assert ticks[0].date < rest[0] <= rest[k];
          }
        }
        [ticks[0].date] + rest
  }

  /** The ticks dated from `start` to `end` inclusive, in their order. */
  function Between(ticks: seq<Tick>, start: int, end: int): (w: seq<Tick>)
    ensures forall k :: 0 <= k < |w| ==> start <= w[k].date <= end
    ensures |w| <= |ticks|
    ensures AllPositive(ticks) ==> AllPositive(w)
    decreases |ticks|
  {
    if ticks == [] then []
    else
      var rest := Between(ticks[1..], start, end);
      if start <= ticks[0].date <= end then [ticks[0]] + rest else rest
  }

  /**
   * `w` is the block `ticks[lo..hi]`, and every tick before the block is dated
   * before `start` and every tick after it after `end`.
   */
  predicate Block(w: seq<Tick>, ticks: seq<Tick>, start: int, end: int, lo: int, hi: int)
  {
    0 <= lo <= hi <= |ticks| && w == ticks[lo..hi] &&
    (forall k :: 0 <= k < lo ==> ticks[k].date < start) &&
    (forall k :: hi <= k < |ticks| ==> ticks[k].date > end)
  }

  /**
   * Over date-ordered ticks the selection is one contiguous block of the input,
   * in its order and with its repetitions: every tick before the block is dated
   * before `start`, and every tick after it is dated after `end`.
   */
  lemma {:induction false} BetweenBlock(ticks: seq<Tick>, start: int, end: int)
    requires DatesOrdered(ticks)
    ensures exists lo, hi :: Block(Between(ticks, start, end), ticks, start, end, lo, hi)
  {
    var lo, hi := BlockBounds(ticks, start, end);
  }

  /** The bounds of the block that `BetweenBlock` promises. */
  lemma {:induction false} BlockBounds(ticks: seq<Tick>, start: int, end: int) returns (lo: int, hi: int)
    requires DatesOrdered(ticks)
    ensures Block(Between(ticks, start, end), ticks, start, end, lo, hi)
    decreases |ticks|
  {
    if ticks == [] {
      lo, hi := 0, 0;
      assert Between(ticks, start, end) == ticks[0..0];
    } else {
      var tail := ticks[1..];
      assert DatesOrdered(tail) by {
        forall a, b | 0 <= a <= b < |tail| ensures tail[a].date <= tail[b].date {
          assert tail[a] == ticks[a + 1] && tail[b] == ticks[b + 1];
        }
      }
      var tlo, thi := BlockBounds(tail, start, end);
      if ticks[0].date < start {
        BlockBelow(ticks, start, end, tlo, thi);
        lo, hi := tlo + 1, thi + 1;
      } else if ticks[0].date <= end {
        BlockInside(ticks, start, end, tlo, thi);
        lo, hi := 0, thi + 1;
      } else {
        BlockAbove(ticks, start, end);
        lo, hi := 0, 0;
      }
    }
  }

  /** A first tick dated before `start` shifts the block of the tail by one. */
  lemma BlockBelow(ticks: seq<Tick>, start: int, end: int, lo: int, hi: int)
    requires ticks != [] && ticks[0].date < start
    requires Block(Between(ticks[1..], start, end), ticks[1..], start, end, lo, hi)
    ensures Block(Between(ticks, start, end), ticks, start, end, lo + 1, hi + 1)
  {
    var tail := ticks[1..];
    assert forall k :: 0 <= k < |tail| ==> tail[k] == ticks[k + 1];
    assert tail[lo..hi] == ticks[lo + 1..hi + 1];
  }

  /** A first tick dated within the bounds starts the block, so the tail's block starts at its front. */
  lemma BlockInside(ticks: seq<Tick>, start: int, end: int, lo: int, hi: int)
    requires DatesOrdered(ticks) && ticks != [] && start <= ticks[0].date <= end
    requires Block(Between(ticks[1..], start, end), ticks[1..], start, end, lo, hi)
    ensures Block(Between(ticks, start, end), ticks, start, end, 0, hi + 1)
  {
    var tail := ticks[1..];
    assert forall k :: 0 <= k < |tail| ==> tail[k] == ticks[k + 1];
    assert |tail| > 0 ==> ticks[0].date <= tail[0].date;
    assert lo == 0;
    assert [ticks[0]] + tail[0..hi] == ticks[0..hi + 1];
  }

  /** A first tick dated after `end` leaves every tick after `end`, so the block is empty. */
  lemma BlockAbove(ticks: seq<Tick>, start: int, end: int)
    requires DatesOrdered(ticks) && ticks != [] && end < ticks[0].date
    ensures Block(Between(ticks, start, end), ticks, start, end, 0, 0)
  {
    assert forall k :: 0 <= k < |ticks| ==> ticks[0].date <= ticks[k].date;
    NoneAfter(ticks, start, end);
  }

  /** Nothing is selected from ticks all dated after `end`. */
  lemma {:induction false} NoneAfter(ticks: seq<Tick>, start: int, end: int)
    requires forall k :: 0 <= k < |ticks| ==> ticks[k].date > end
    ensures Between(ticks, start, end) == []
    decreases |ticks|
  {
    if ticks != [] {
      assert forall k :: 0 <= k < |ticks| - 1 ==> ticks[1..][k] == ticks[k + 1];
      NoneAfter(ticks[1..], start, end);
    }
  }

  /**
   * The `.loc[start:end]` slice of the tick index by calendar dates: pandas
   * reads each date bound as midnight at the start of that date, and keeps
   * both bounds.
   */
  function LocSlice(ticks: seq<Tick>, start: int, end: int): (w: seq<Tick>)
    ensures forall k :: 0 <= k < |w| ==>
              (start < w[k].date || (start == w[k].date && 0 <= w[k].minute)) &&
              (w[k].date < end || (w[k].date == end && w[k].minute <= 0))
    decreases |ticks|
  {
    if ticks == [] then []
    else
      var t := ticks[0];
      var rest := LocSlice(ticks[1..], start, end);
      if (start < t.date || (start == t.date && 0 <= t.minute)) && (t.date < end || (t.date == end && t.minute <= 0))
      then [t] + rest else rest
  }

  /**
   * No tick of the trading window is stamped at midnight, so the slice holds
   * the ticks dated from `start` up to the day before `end`: none of `end`'s own.
   */
  lemma {:induction false} LocSliceByDate(ticks: seq<Tick>, start: int, end: int)
    requires InSession(ticks)
    ensures LocSlice(ticks, start, end) == Between(ticks, start, end - 1)
    decreases |ticks|
  {
    if ticks != [] {
      assert InSession(ticks[1..]) by {
        forall k | 0 <= k < |ticks| - 1 ensures SessionOpen <= ticks[1..][k].minute <= SessionClose {
          assert ticks[1..][k] == ticks[k + 1];
        }
      }
      LocSliceByDate(ticks[1..], start, end);
      assert SessionOpen <= ticks[0].minute;
    }
  }

  /** The signal column of a window. */
  function SignalValues(w: seq<Tick>): (v: seq<real>)
    ensures |v| == |w| && forall k :: 0 <= k < |w| ==> v[k] == w[k].signal
  {
    seq(|w|, k requires 0 <= k < |w| => w[k].signal)
  }

  /** The quantile curve of a window's values under the quantile function `quantile`. */
  function WindowQuantile(quantile: (seq<real>, real) -> real, values: seq<real>): real -> real
  {
    p => quantile(values, p)
  }

  /** The records of one day, over the configured levels `levels` in order. */
  function LevelsTrades(day: seq<Tick>, q: real -> real, levels: seq<real>): seq<TradeRecord>
    requires AllPositive(day)
    decreases |levels|
  {
    if levels == [] then []
    else LevelsTrades(day, q, levels[..|levels| - 1]) + DayTrades(day, Thresholds(q, levels[|levels| - 1]))
  }

  /** The first date of the lookback window of simulated date index `i`. */
  function WindowStart(i: int): int
  {
    i - LookBackDays - 1
  }

  /**
   * The records of simulated date index `i`: every level calibrated on the
   * `.loc` slice from `dates[i - LookBackDays - 1]` to `dates[i - 1]`, then run
   * over the ticks of `dates[i]`.
   */
  function DateTrades(ticks: seq<Tick>, dates: seq<int>, i: int, quantile: (seq<real>, real) -> real, levels: seq<real>): seq<TradeRecord>
    requires AllPositive(ticks) && LookBackDays + 1 <= i < |dates|
  {
    var window := LocSlice(ticks, dates[WindowStart(i)], dates[i - 1]);
    LevelsTrades(Between(ticks, dates[i], dates[i]), WindowQuantile(quantile, SignalValues(window)),
                 levels)
  }

  /** The ledger after the walk-forward loop has simulated the date indexes below `n`. */
  function WalkTrades(ticks: seq<Tick>, dates: seq<int>, n: int, quantile: (seq<real>, real) -> real, levels: seq<real>): seq<TradeRecord>
    requires AllPositive(ticks) && (n <= |dates| || n <= LookBackDays + 1)
    decreases n
  {
    if n <= LookBackDays + 1 then []
    else WalkTrades(ticks, dates, n - 1, quantile, levels) + DateTrades(ticks, dates, n - 1, quantile, levels)
  }

  /** The outcome of backtesting one pair: its ledger, or the date that had no reference ratio. */
  function PairBacktest(rows: seq<Row>, prevClose: map<int, real>, quantile: (seq<real>, real) -> real)
    : Result<seq<TradeRecord>, int>
    requires ValidRows(rows) && PositiveReferences(prevClose)
  {
    match Signals(rows, prevClose)
    case Failure(d) => Failure(d)
    case Success(ticks) =>
      TicksFromRows(rows, ticks, prevClose);
      var dates := TradingDates(ticks);
      Success(WalkTrades(ticks, dates, |dates|, quantile, ConfidenceLevels))
  }

  /** Ticks built from valid rows keep their prices, their date order and their minutes inside the trading window. */
  lemma TicksFromRows(rows: seq<Row>, ticks: seq<Tick>, prevClose: map<int, real>)
    requires ValidRows(rows) && PositiveReferences(prevClose)
    requires Signals(rows, prevClose) == Success(ticks)
    ensures AllPositive(ticks) && DatesOrdered(ticks) && InSession(ticks)
  {
  }

  /** Every tick of `w` is dated by one of `ds`. */
  predicate DatedBy(w: seq<Tick>, ds: seq<int>)
  {
    forall k :: 0 <= k < |w| ==> w[k].date in ds
  }

  /**
   * `w` holds the ticks of trading dates `dates[s..e]`: every tick of `w` is
   * dated by one of them, and `w` is one contiguous block of `ticks`, in order,
   * after every tick dated before `dates[s]` and before every tick dated on or
   * after `dates[e]`.
   */
  predicate BlockOfDates(w: seq<Tick>, ticks: seq<Tick>, dates: seq<int>, s: int, e: int)
  {
    0 <= s <= e < |dates| && DatedBy(w, dates[s..e]) &&
    (exists lo, hi :: 0 <= lo <= hi <= |ticks| && w == ticks[lo..hi] &&
       (forall k :: 0 <= k < lo ==> ticks[k].date < dates[s]) &&
       (forall k :: hi <= k < |ticks| ==> ticks[k].date >= dates[e]))
  }

  /**
   * Lookback window of simulated date index `i`: the `.loc` slice from
   * `dates[i - LookBackDays - 1]` to `dates[i - 1]`. Its end bound is midnight
   * before the first tick of `dates[i - 1]`, so the window holds exactly the
   * ticks of the `LookBackDays` trading dates `dates[i - LookBackDays - 1..i - 1]`.
   */
  lemma {:induction false} LookbackWindow(ticks: seq<Tick>, i: int)
    requires DatesOrdered(ticks) && InSession(ticks)
    requires LookBackDays + 1 <= i < |TradingDates(ticks)|
    ensures var dates := TradingDates(ticks);
            |dates[WindowStart(i)..i - 1]| == LookBackDays &&
            BlockOfDates(LocSlice(ticks, dates[WindowStart(i)], dates[i - 1]), ticks, dates, WindowStart(i), i - 1)
  {
    WindowBlock(ticks, TradingDates(ticks), WindowStart(i), i - 1);
  }

  /** Over increasing `dates` that date every tick, the `.loc` slice from `dates[s]` to `dates[e]` is their block. */
  lemma {:induction false} WindowBlock(ticks: seq<Tick>, dates: seq<int>, s: int, e: int)
    requires DatesOrdered(ticks) && InSession(ticks)
    requires forall a, b :: 0 <= a < b < |dates| ==> dates[a] < dates[b]
    requires 0 <= s < e < |dates|
    requires forall k :: 0 <= k < |ticks| ==> ticks[k].date in dates
    ensures BlockOfDates(LocSlice(ticks, dates[s], dates[e]), ticks, dates, s, e)
  {
    LocSliceByDate(ticks, dates[s], dates[e]);
    BetweenWindow(ticks, dates, s, e);
  }

  /** `WindowBlock` for the selection of the ticks dated from `dates[s]` up to the day before `dates[e]`. */
  lemma {:induction false} BetweenWindow(ticks: seq<Tick>, dates: seq<int>, s: int, e: int)
    requires DatesOrdered(ticks)
    requires forall a, b :: 0 <= a < b < |dates| ==> dates[a] < dates[b]
    requires 0 <= s < e < |dates|
    requires forall k :: 0 <= k < |ticks| ==> ticks[k].date in dates
    ensures BlockOfDates(Between(ticks, dates[s], dates[e] - 1), ticks, dates, s, e)
  {
    var lo, hi := BlockBounds(ticks, dates[s], dates[e] - 1);
    WindowInDates(ticks, dates, s, e);
  }

  /** The ticks dated from `dates[s]` up to the day before `dates[e]` are dated by `dates[s..e]`. */
  lemma {:induction false} WindowInDates(ticks: seq<Tick>, dates: seq<int>, s: int, e: int)
    requires forall a, b :: 0 <= a < b < |dates| ==> dates[a] < dates[b]
    requires 0 <= s < e < |dates|
    requires forall k :: 0 <= k < |ticks| ==> ticks[k].date in dates
    ensures DatedBy(Between(ticks, dates[s], dates[e] - 1), dates[s..e])
  {
    var w := Between(ticks, dates[s], dates[e] - 1);
    BetweenDatesIn(ticks, dates[s], dates[e] - 1, dates);
    forall k | 0 <= k < |w| ensures w[k].date in dates[s..e] {
      WindowDate(dates, s, e, w[k].date);
    }
  }

  /** A selection is dated by any dates that date all of its input. */
  lemma {:induction false} BetweenDatesIn(ticks: seq<Tick>, start: int, end: int, dates: seq<int>)
    requires forall k :: 0 <= k < |ticks| ==> ticks[k].date in dates
    ensures DatedBy(Between(ticks, start, end), dates)
    decreases |ticks|
  {
    if ticks != [] {
      var tail := ticks[1..];
      assert forall k :: 0 <= k < |tail| ==> tail[k] == ticks[k + 1];
      BetweenDatesIn(tail, start, end, dates);
      var rest := Between(tail, start, end);
      var w := Between(ticks, start, end);
      forall k | 0 <= k < |w| ensures w[k].date in dates {
        if start <= ticks[0].date <= end {
          if k == 0 { assert w[0] == ticks[0]; } else { assert w[k] == rest[k - 1]; }
        } else {
          assert w[k] == rest[k];
        }
      }
    }
  }

  /** A trading date from `dates[s]` on and before `dates[e]` is one of `dates[s..e]`. */
  lemma WindowDate(dates: seq<int>, s: int, e: int, d: int)
    requires forall a, b :: 0 <= a < b < |dates| ==> dates[a] < dates[b]
    requires 0 <= s < e < |dates|
    requires d in dates && dates[s] <= d < dates[e]
    ensures d in dates[s..e]
  {
    var j :| 0 <= j < |dates| && dates[j] == d;
    assert dates[s..e][j - s] == d;
  }

  predicate AllDated(recs: seq<TradeRecord>, date: int)
  {
    forall k :: 0 <= k < |recs| ==> recs[k].date == date
  }

  /** Every record is dated by one of `dates[LookBackDays + 1..n]`. */
  predicate DatedBySimulatedIndex(recs: seq<TradeRecord>, dates: seq<int>, n: int)
  {
    forall k :: 0 <= k < |recs| ==> exists i :: LookBackDays + 1 <= i < n && i < |dates| && recs[k].date == dates[i]
  }

  /** Every record of a day's levels carries the day's date. */
  lemma {:induction false} LevelsDated(day: seq<Tick>, q: real -> real, levels: seq<real>, date: int)
    requires AllPositive(day)
    requires forall k :: 0 <= k < |day| ==> day[k].date == date
    ensures AllDated(LevelsTrades(day, q, levels), date)
    decreases |levels|
  {
    if levels != [] {
      var th := Thresholds(q, levels[|levels| - 1]);
      LevelsDated(day, q, levels[..|levels| - 1], date);
      RecordsOfTheDay(day, th, Flat, date);
      DatedAppend(LevelsTrades(day, q, levels[..|levels| - 1]), DayTrades(day, th), date);
    }
  }

  /** Two ledgers dated by `date` concatenate to one. */
  lemma DatedAppend(a: seq<TradeRecord>, b: seq<TradeRecord>, date: int)
    requires AllDated(a, date) && AllDated(b, date)
    ensures AllDated(a + b, date)
  {
    forall k | 0 <= k < |a + b| ensures (a + b)[k].date == date {
      if k < |a| { assert (a + b)[k] == a[k]; } else { assert (a + b)[k] == b[k - |a|]; }
    }
  }


  /** Every record of simulated date index `i` carries `dates[i]`. */
  lemma {:induction false} DateTradesDated(ticks: seq<Tick>, dates: seq<int>, i: int, quantile: (seq<real>, real) -> real, levels: seq<real>)
    requires AllPositive(ticks) && LookBackDays + 1 <= i < |dates|
    ensures AllDated(DateTrades(ticks, dates, i, quantile, levels), dates[i])
  {
    var day := Between(ticks, dates[i], dates[i]);
    var window := LocSlice(ticks, dates[WindowStart(i)], dates[i - 1]);
    LevelsDated(day, WindowQuantile(quantile, SignalValues(window)), levels, dates[i]);
  }

  /** Every record of the walk up to index `n` is dated by a simulated date index below `n`. */
  lemma {:induction false} WalkDated(ticks: seq<Tick>, dates: seq<int>, n: int, quantile: (seq<real>, real) -> real, levels: seq<real>)
    requires AllPositive(ticks) && (n <= |dates| || n <= LookBackDays + 1)
    ensures DatedBySimulatedIndex(WalkTrades(ticks, dates, n, quantile, levels), dates, n)
    decreases n
  {
    if n > LookBackDays + 1 {
      WalkDated(ticks, dates, n - 1, quantile, levels);
      DateTradesDated(ticks, dates, n - 1, quantile, levels);
      var prev := WalkTrades(ticks, dates, n - 1, quantile, levels);
      var today := DateTrades(ticks, dates, n - 1, quantile, levels);
      var recs := prev + today;
      assert recs == WalkTrades(ticks, dates, n, quantile, levels);
      forall k | 0 <= k < |recs|
        ensures exists i :: LookBackDays + 1 <= i < n && i < |dates| && recs[k].date == dates[i]
      {
        if k < |prev| {
          assert recs[k] == prev[k];
        } else {
          assert recs[k] == today[k - |prev|];
          assert recs[k].date == dates[n - 1];
        }
      }
    }
  }

  /**
   * The first `LookBackDays + 1` trading dates are never traded: every record
   * of a pair's ledger is dated by a later trading date.
   */
  lemma {:induction false} WarmUpNeverTraded(ticks: seq<Tick>, quantile: (seq<real>, real) -> real, levels: seq<real>)
    requires AllPositive(ticks) && DatesOrdered(ticks)
    ensures var dates := TradingDates(ticks);
            var recs := WalkTrades(ticks, dates, |dates|, quantile, levels);
            forall k :: 0 <= k < |recs| ==>
              recs[k].date in dates && recs[k].date !in dates[..LookBackDays + 1]
  {
    var dates := TradingDates(ticks);
    var recs := WalkTrades(ticks, dates, |dates|, quantile, levels);
    WalkDated(ticks, dates, |dates|, quantile, levels);
    forall k | 0 <= k < |recs|
      ensures recs[k].date in dates && recs[k].date !in dates[..LookBackDays + 1]
    {
      var i :| LookBackDays + 1 <= i < |dates| && recs[k].date == dates[i];
    }
  }

  /**
   * For the configured confidence levels every quantile level calibration
   * evaluates lies in [0, 1], and over a monotone window quantile no position
   * is closed by the exit rule on the tick that opened it.
   */
  lemma ConfiguredLevelsCalibrate(q: real -> real)
    ensures forall k :: 0 <= k < |ConfidenceLevels| ==> 0.4 <= ConfidenceLevels[k] <= 1.0
    ensures Monotone(q) ==>
            forall k :: 0 <= k < |ConfidenceLevels| ==> ExitsInsideEntries(Thresholds(q, ConfidenceLevels[k]))
  {
    if Monotone(q) {
      CalibratedExitsInside(q, 0.9);
      CalibratedExitsInside(q, 0.95);
    }
  }

  /** The loop over the configured levels for one day: calibrate, then run the day. */
  method SimulateLevels(currentDay: seq<Tick>, q: real -> real, levels: seq<real>, ledger: Ledger)
    requires AllPositive(currentDay)
    modifies ledger
    ensures ledger.records == old(ledger.records) + LevelsTrades(currentDay, q, levels)
  {
    var k := 0;
    while k < |levels|
      invariant 0 <= k <= |levels|
      invariant ledger.records == old(ledger.records) + LevelsTrades(currentDay, q, levels[..k])
    {
      var x := levels[k];
      var th := Calibrate(q, x);
      SimulateLevelDay(currentDay, th, ledger);
      assert levels[..k + 1][..k] == levels[..k];
      assert LevelsTrades(currentDay, q, levels[..k + 1])
             == LevelsTrades(currentDay, q, levels[..k]) + DayTrades(currentDay, th);
      AppendAssoc(old(ledger.records), LevelsTrades(currentDay, q, levels[..k]), DayTrades(currentDay, th));
      k := k + 1;
    }
    assert levels[..|levels|] == levels;
  }

  /**
   * One iteration of the date loop: the `.loc` lookback window from
   * `dates[i - LookBackDays - 1]` to `dates[i - 1]`, the ticks of `dates[i]`,
   * then every configured level over that day.
   */
  method SimulateDate(ticks: seq<Tick>, dates: seq<int>, i: int, quantile: (seq<real>, real) -> real, levels: seq<real>,
                      ledger: Ledger)
    requires AllPositive(ticks) && LookBackDays + 1 <= i < |dates|
    modifies ledger
    ensures ledger.records == old(ledger.records) + DateTrades(ticks, dates, i, quantile, levels)
  {
    var start := dates[i - LookBackDays - 1];
    var end := dates[i - 1];
    var dfQuantile := SignalValues(LocSlice(ticks, start, end));
    var currentDay := Between(ticks, dates[i], dates[i]);
    SimulateLevels(currentDay, WindowQuantile(quantile, dfQuantile), levels, ledger);
  }

  /** Appending the records of date index `i` to a ledger holding the walk below `i` gives the walk below `i + 1`. */
  lemma {:induction false} WalkStep(ticks: seq<Tick>, dates: seq<int>, i: int, quantile: (seq<real>, real) -> real, levels: seq<real>,
                 start: seq<TradeRecord>, before: seq<TradeRecord>, after: seq<TradeRecord>, next: int)
    requires AllPositive(ticks) && LookBackDays + 1 <= i < |dates| && next == i + 1
    requires before == start + WalkTrades(ticks, dates, i, quantile, levels)
    requires after == before + DateTrades(ticks, dates, i, quantile, levels)
    ensures after == start + WalkTrades(ticks, dates, next, quantile, levels)
  {
    WalkUnfold(ticks, dates, i, quantile, levels);
    ConcatStep(start, WalkTrades(ticks, dates, i, quantile, levels), DateTrades(ticks, dates, i, quantile, levels),
               before, after, WalkTrades(ticks, dates, next, quantile, levels));
  }

  /** The walk below `i + 1` is the walk below `i` followed by the records of date index `i`. */
  lemma {:induction false} WalkUnfold(ticks: seq<Tick>, dates: seq<int>, i: int, quantile: (seq<real>, real) -> real, levels: seq<real>)
    requires AllPositive(ticks) && LookBackDays + 1 <= i < |dates|
    ensures WalkTrades(ticks, dates, i + 1, quantile, levels)
            == WalkTrades(ticks, dates, i, quantile, levels) + DateTrades(ticks, dates, i, quantile, levels)
  {
  }

  /** A ledger grown by a day's records, from one holding a walk, holds the extended walk. */
  lemma ConcatStep<T>(start: seq<T>, walk: seq<T>, day: seq<T>, before: seq<T>, after: seq<T>, extended: seq<T>)
    requires before == start + walk && after == before + day && extended == walk + day
    ensures after == start + extended
  {
    AppendAssoc(start, walk, day);
  }

  /** The date loop: every date index from `LookBackDays + 1` on, in order. */
  method WalkForward(ticks: seq<Tick>, dates: seq<int>, quantile: (seq<real>, real) -> real, levels: seq<real>, ledger: Ledger)
    requires AllPositive(ticks)
    modifies ledger
    ensures ledger.records == old(ledger.records) + WalkTrades(ticks, dates, |dates|, quantile, levels)
  {
    ghost var initial := ledger.records;
    if |dates| <= LookBackDays + 1 {
      return;
    }
    var i := LookBackDays + 1;
    while i < |dates|
      invariant LookBackDays + 1 <= i <= |dates|
      invariant ledger.records == initial + WalkTrades(ticks, dates, i, quantile, levels)
    {
      i := WalkOneDate(ticks, dates, i, quantile, levels, ledger, initial);
    }
  }

  /**
   * One iteration of the date loop with its proof: a ledger holding the walk
   * below `i` holds the walk below `i + 1` afterwards; returns the next index.
   */
  method WalkOneDate(ticks: seq<Tick>, dates: seq<int>, i: int, quantile: (seq<real>, real) -> real, levels: seq<real>,
                     ledger: Ledger, ghost initial: seq<TradeRecord>) returns (next: int)
    requires AllPositive(ticks) && LookBackDays + 1 <= i < |dates|
    requires ledger.records == initial + WalkTrades(ticks, dates, i, quantile, levels)
    modifies ledger
    ensures next == i + 1 && ledger.records == initial + WalkTrades(ticks, dates, next, quantile, levels)
  {
    ghost var before := ledger.records;
    SimulateDate(ticks, dates, i, quantile, levels, ledger);
    next := i + 1;
    WalkStep(ticks, dates, i, quantile, levels, initial, before, ledger.records, next);
  }

  /**
   * The backtest of one pair: the signal, the trading dates, and the
   * walk-forward loop over the dates with enough history, appending every
   * closed trade to the pair's fresh ledger.
   */
  method BacktestPair(rows: seq<Row>, prevClose: map<int, real>, quantile: (seq<real>, real) -> real)
    returns (outcome: Result<seq<TradeRecord>, int>)
    requires ValidRows(rows) && PositiveReferences(prevClose)
    ensures outcome == PairBacktest(rows, prevClose, quantile)
    ensures outcome.Failure? <==> exists i :: 0 <= i < |rows| && rows[i].date !in prevClose
  {
    var signals := Signals(rows, prevClose);
    if signals.Failure? {
      return Failure(signals.error);
    }
    var ticks := signals.value;
    TicksFromRows(rows, ticks, prevClose);
    var dates := TradingDates(ticks);
    var ledger := new Ledger();
    WalkForward(ticks, dates, quantile, ConfidenceLevels, ledger);
    assert ledger.records == WalkTrades(ticks, dates, |dates|, quantile, ConfidenceLevels);
    assert PairBacktest(rows, prevClose, quantile) == Success(WalkTrades(ticks, dates, |dates|, quantile, ConfidenceLevels));
    outcome := Success(ledger.records);
  }
}
