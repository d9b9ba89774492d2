/**
 * Threshold calibration for one confidence level: the entry levels are window
 * quantiles, the exit levels come from an adaptive search that walks the exit
 * quantile toward the median until the entry/exit gap is economically worth
 * trading (`get_exit_spred`), and the stop-losses reflect entry across exit.
 *
 * `df_quantile.quantile(p)` is modelled as a function `quantile: real -> real`
 * of the quantile level: the quantile curve of the lookback window.
 */
module Calibration {
  import opened Wrappers

  /** Minimum entry/exit gap for a worthwhile exit, in basis points. */
  const MinEntryExitSpreadDiff: real := 30.0
  /** Offset between the entry quantile and the first exit quantile tried. */
  const SqThreshDiff: real := 0.4
  /** How far the exit quantile moves per attempt. */
  const QuantileStep: real := 0.05
  /** Default bound on how far toward the median the exit quantile may move. */
  const MinSpreadThresh: real := 0.45

  function Abs(x: real): (a: real)
    ensures a >= 0.0 && (a == x || a == -x)
  {
    if x < 0.0 then -x else x
  }

  /** The gap test: entry and exit are at least the minimum number of bps apart. */
  predicate ClearsMinGap(entry: real, exit: real)
  {
    Abs(entry - exit) * 10000.0 >= MinEntryExitSpreadDiff
  }

  /**
   * Whether the search gives up after level `p` failed the gap test: the upper
   * search once `p` is below `floor`, the lower one once `p` is above `1 - floor`.
   */
  predicate GivesUp(p: real, floor: real, upper: bool)
  {
    if upper then p < floor else p > 1.0 - floor
  }

  /** The next level tried: one step toward the median. */
  function NextLevel(p: real, upper: bool): real
  {
    if upper then p - QuantileStep else p + QuantileStep
  }

  /** How many further steps the search can take from level `p` before it gives up. */
  function Budget(p: real, floor: real, upper: bool): (n: nat)
    ensures GivesUp(p, floor, upper) <==> n == 0
  {
    var room := if upper then p - floor else (1.0 - floor) - p;
    if room < 0.0 then 0 else (room / QuantileStep).Floor + 1
  }

  /** The result of the exit search started at level `p`. */
  function ExitSearch(quantile: real -> real, p: real, entry: real, floor: real, upper: bool): Option<real>
    decreases Budget(p, floor, upper)
  {
    var exit := quantile(p);
    if ClearsMinGap(entry, exit) then Some(exit)
    else if GivesUp(p, floor, upper) then None
    else
      ExitSearch(quantile, NextLevel(p, upper), entry, floor, upper)
  }

  /** The quantile levels the search started at `p` evaluates, in order. */
  function Tried(quantile: real -> real, p: real, entry: real, floor: real, upper: bool): seq<real>
    decreases Budget(p, floor, upper)
  {
    if ClearsMinGap(entry, quantile(p)) || GivesUp(p, floor, upper) then [p]
    else
      [p] + Tried(quantile, NextLevel(p, upper), entry, floor, upper)
  }

  /** The `i`-th level tried from `p`: `i` steps toward the median. */
  function LevelAt(p: real, i: nat, upper: bool): real
  {
    if upper then p - (i as real) * QuantileStep else p + (i as real) * QuantileStep
  }

  /**
   * The search method: the loop of `get_exit_spred`, which reassigns the exit
   * quantile step by step until an exit clears the gap or the search gives up.
   */
  method GetExitSpread(quantile: real -> real, exitQuantile: real, entrySpread: real,
                       minSpreadThresh: real, upper: bool)
    returns (r: Option<real>)
    ensures r == ExitSearch(quantile, exitQuantile, entrySpread, minSpreadThresh, upper)
    ensures r.Some? ==> ClearsMinGap(entrySpread, r.value)
  {
    var q := exitQuantile;
    while true
      invariant ExitSearch(quantile, q, entrySpread, minSpreadThresh, upper)
                == ExitSearch(quantile, exitQuantile, entrySpread, minSpreadThresh, upper)
      decreases Budget(q, minSpreadThresh, upper)
    {
      var exitSpread := quantile(q);
      var spreadReturn := Abs(entrySpread - exitSpread);
      if upper {
        if spreadReturn * 10000.0 >= MinEntryExitSpreadDiff {
          return Some(exitSpread);
        } else if q < minSpreadThresh {
          return None;
        } else {
          q := q - QuantileStep;
        }
      } else {
        if spreadReturn * 10000.0 >= MinEntryExitSpreadDiff {
          return Some(exitSpread);
        } else if q > 1.0 - minSpreadThresh {
          return None;
        } else {
          q := q + QuantileStep;
        }
      }
    }
  }

  /**
   * What the search returns, in terms of the levels it tried: every level but
   * the last failed the gap test without giving up; the result is the exit at
   * the last level if that one clears the gap, and "no exit" exactly when it
   * fails the gap test and the search gives up there.
   */
  lemma {:induction false} SearchOutcome(quantile: real -> real, p: real, entry: real, floor: real, upper: bool)
    ensures var ts := Tried(quantile, p, entry, floor, upper);
            var last := ts[|ts| - 1];
            |ts| >= 1 && ts[0] == p &&
            (forall i :: 0 <= i < |ts| - 1 ==>
               !ClearsMinGap(entry, quantile(ts[i])) && !GivesUp(ts[i], floor, upper)) &&
            (ClearsMinGap(entry, quantile(last)) ==>
               ExitSearch(quantile, p, entry, floor, upper) == Some(quantile(last))) &&
            (!ClearsMinGap(entry, quantile(last)) ==>
               GivesUp(last, floor, upper) && ExitSearch(quantile, p, entry, floor, upper) == None)
    decreases Budget(p, floor, upper)
  {
    var ts := Tried(quantile, p, entry, floor, upper);
    if ClearsMinGap(entry, quantile(p)) || GivesUp(p, floor, upper) {
      assert ts == [p];
    } else {
      var next := NextLevel(p, upper);
      SearchOutcome(quantile, next, entry, floor, upper);
      var rest := Tried(quantile, next, entry, floor, upper);
      assert ts == [p] + rest;
      assert ts[|ts| - 1] == rest[|rest| - 1];
      forall i | 1 <= i < |ts| - 1
        ensures !ClearsMinGap(entry, quantile(ts[i])) && !GivesUp(ts[i], floor, upper)
      {
        assert ts[i] == rest[i - 1];
      }
    }
  }

  /**
   * Gap guarantee: a search returns a numeric exit only if that exit is at
   * least the minimum number of bps away from the entry.
   */
  lemma GapGuarantee(quantile: real -> real, p: real, entry: real, floor: real, upper: bool)
    ensures ExitSearch(quantile, p, entry, floor, upper).Some? ==>
            ClearsMinGap(entry, ExitSearch(quantile, p, entry, floor, upper).value)
  {
    SearchOutcome(quantile, p, entry, floor, upper);
  }

  /**
   * The levels tried form an arithmetic progression of step 0.05 moving toward
   * the median, and there are at most one more of them than the budget: the
   * search always terminates within a bounded range.
   */
  lemma {:induction false} TriedShape(quantile: real -> real, p: real, entry: real, floor: real, upper: bool)
    ensures var ts := Tried(quantile, p, entry, floor, upper);
            1 <= |ts| <= Budget(p, floor, upper) + 1 &&
            forall i :: 0 <= i < |ts| ==> ts[i] == LevelAt(p, i, upper)
    decreases Budget(p, floor, upper)
  {
    var ts := Tried(quantile, p, entry, floor, upper);
    if !(ClearsMinGap(entry, quantile(p)) || GivesUp(p, floor, upper)) {
      var next := NextLevel(p, upper);
      TriedShape(quantile, next, entry, floor, upper);
      var rest := Tried(quantile, next, entry, floor, upper);
      assert ts == [p] + rest;
      forall i | 0 <= i < |ts|
        ensures ts[i] == LevelAt(p, i, upper)
      {
        if i > 0 {
          assert ts[i] == rest[i - 1] == LevelAt(next, i - 1, upper);
        }
      }
    }
  }

  /**
   * Starting from the median with the default bound, the upper search tries at
   * most 0.5, 0.45 and 0.40, and the lower search at most 0.5, 0.55 and 0.60.
   */
  lemma FromMedian(quantile: real -> real, entry: real)
    ensures var ts := Tried(quantile, 0.5, entry, MinSpreadThresh, true);
            |ts| <= 3 && ts == [0.5, 0.45, 0.40][..|ts|]
    ensures var ts := Tried(quantile, 0.5, entry, MinSpreadThresh, false);
            |ts| <= 3 && ts == [0.5, 0.55, 0.60][..|ts|]
  {
    TriedShape(quantile, 0.5, entry, MinSpreadThresh, true);
    TriedShape(quantile, 0.5, entry, MinSpreadThresh, false);
    assert Budget(0.5, MinSpreadThresh, true) == 2;
    assert Budget(0.5, MinSpreadThresh, false) == 2;
  }

  /**
   * Every level the search tries stays within `[lo, hi]` when it starts there
   * and one step beyond its give-up bound is still inside.
   */
  lemma {:induction false} TriedWithin(quantile: real -> real, p: real, entry: real, floor: real, upper: bool,
                                       lo: real, hi: real)
    requires lo <= p <= hi
    requires upper ==> lo <= floor - QuantileStep
    requires !upper ==> 1.0 - floor + QuantileStep <= hi
    ensures forall t :: t in Tried(quantile, p, entry, floor, upper) ==> lo <= t <= hi
    decreases Budget(p, floor, upper)
  {
    if !(ClearsMinGap(entry, quantile(p)) || GivesUp(p, floor, upper)) {
      TriedWithin(quantile, NextLevel(p, upper), entry, floor, upper, lo, hi);
    }
  }

  /** A numeric exit is the window quantile at one of the levels tried. */
  lemma ExitIsTriedQuantile(quantile: real -> real, p: real, entry: real, floor: real, upper: bool)
    ensures var r := ExitSearch(quantile, p, entry, floor, upper);
            r.Some? ==> exists t :: t in Tried(quantile, p, entry, floor, upper) && r.value == quantile(t)
  {
    SearchOutcome(quantile, p, entry, floor, upper);
    var ts := Tried(quantile, p, entry, floor, upper);
    assert ts[|ts| - 1] in ts;
  }

  /** The quantile curve of the window reflected through the median and negated. */
  function Reflect(quantile: real -> real): real -> real
  {
    t => -quantile(1.0 - t)
  }

  function Negate(r: Option<real>): Option<real>
  {
    match r
    case None => None
    case Some(v) => Some(-v)
  }

  /**
   * Upper/lower mirror: the lower search over a window is the upper search over
   * the reflected window, started at the reflected level, with the entry and
   * the result negated.
   */
  lemma {:induction false} SearchMirror(quantile: real -> real, p: real, entry: real, floor: real)
    ensures ExitSearch(quantile, p, entry, floor, false)
            == Negate(ExitSearch(Reflect(quantile), 1.0 - p, -entry, floor, true))
    decreases Budget(p, floor, false)
  {
    var rq := Reflect(quantile);
    assert rq(1.0 - p) == -quantile(p);
    assert ClearsMinGap(-entry, rq(1.0 - p)) == ClearsMinGap(entry, quantile(p));
    if !(ClearsMinGap(entry, quantile(p)) || GivesUp(p, floor, false)) {
      SearchMirror(quantile, p + QuantileStep, entry, floor);
      assert 1.0 - (p + QuantileStep) == (1.0 - p) - QuantileStep;
    }
  }

  /** Entry, exit and stop-loss levels of both tails for one confidence level. */
  datatype LevelThresholds = LevelThresholds(
    upperEntry: real, upperExit: Option<real>, upperStopLoss: Option<real>,
    lowerEntry: real, lowerExit: Option<real>, lowerStopLoss: Option<real>)

  /** Entry reflected across exit; there is no stop-loss when there is no exit. */
  function StopLoss(entry: real, exit: Option<real>): Option<real>
  {
    match exit
    case None => None
    case Some(e) => Some(entry + (entry - e))
  }

  /**
   * The thresholds of confidence level `x`: upper entry at quantile `x`, its
   * exit searched downward from `x - 0.4`; lower entry at quantile `1 - x`, its
   * exit searched upward from `1 - (x - 0.4)`.
   */
  function Thresholds(quantile: real -> real, x: real): LevelThresholds
  {
    var upperEntry := quantile(x);
    var upperExit := ExitSearch(quantile, x - SqThreshDiff, upperEntry, MinSpreadThresh, true);
    var lowerEntry := quantile(1.0 - x);
    var lowerExit := ExitSearch(quantile, 1.0 - (x - SqThreshDiff), lowerEntry, MinSpreadThresh, false);
    LevelThresholds(upperEntry, upperExit, StopLoss(upperEntry, upperExit),
                    lowerEntry, lowerExit, StopLoss(lowerEntry, lowerExit))
  }

  /** Threshold assembly for one confidence level, calling the search method twice. */
  method Calibrate(quantile: real -> real, x: real) returns (th: LevelThresholds)
    ensures th == Thresholds(quantile, x)
    ensures th.upperExit.Some? ==> ClearsMinGap(th.upperEntry, th.upperExit.value)
    ensures th.lowerExit.Some? ==> ClearsMinGap(th.lowerEntry, th.lowerExit.value)
  {
    var upperEntry := quantile(x);
    var upperExit := GetExitSpread(quantile, x - SqThreshDiff, upperEntry, MinSpreadThresh, true);
    var upperStopLoss := StopLoss(upperEntry, upperExit);
    var lowerEntry := quantile(1.0 - x);
    var lowerExit := GetExitSpread(quantile, 1.0 - (x - SqThreshDiff), lowerEntry, MinSpreadThresh, false);
    var lowerStopLoss := StopLoss(lowerEntry, lowerExit);
    th := LevelThresholds(upperEntry, upperExit, upperStopLoss, lowerEntry, lowerExit, lowerStopLoss);
  }

  /**
   * Stop-loss reflection: a stop-loss exists exactly when the exit does, and it
   * lies beyond the entry by exactly the entry-exit distance, on both tails.
   */
  lemma StopLossReflection(quantile: real -> real, x: real)
    ensures var th := Thresholds(quantile, x);
            (th.upperStopLoss.Some? <==> th.upperExit.Some?) &&
            (th.lowerStopLoss.Some? <==> th.lowerExit.Some?) &&
            (th.upperExit.Some? ==>
               th.upperStopLoss.value - th.upperEntry == th.upperEntry - th.upperExit.value) &&
            (th.lowerExit.Some? ==>
               th.lowerEntry - th.lowerStopLoss.value == th.lowerExit.value - th.lowerEntry)
  {
  }

  /** The lower tail of a window is the negated upper tail of the reflected window. */
  lemma ThresholdsMirror(quantile: real -> real, x: real)
    ensures var th := Thresholds(quantile, x);
            var rth := Thresholds(Reflect(quantile), x);
            th.lowerEntry == -rth.upperEntry &&
            th.lowerExit == Negate(rth.upperExit) &&
            th.lowerStopLoss == Negate(rth.upperStopLoss)
  {
    var th := Thresholds(quantile, x);
    var rq := Reflect(quantile);
    SearchMirror(quantile, 1.0 - (x - SqThreshDiff), th.lowerEntry, MinSpreadThresh);
    assert 1.0 - (1.0 - (x - SqThreshDiff)) == x - SqThreshDiff;
    assert rq(x) == -th.lowerEntry;
  }

  /** A quantile curve that never decreases over the levels 0 to 1. */
  ghost predicate Monotone(quantile: real -> real)
  {
    forall a, b :: 0.0 <= a <= b <= 1.0 ==> quantile(a) <= quantile(b)
  }

  /**
   * For a confidence level between 0.4 and 1, every quantile level the
   * calibration evaluates lies in [0, 1] (the only levels a quantile accepts),
   * and with a monotone window quantile each numeric exit lies on the median
   * side of its entry by at least the minimum gap: the upper exit at least
   * 30 bps below the upper entry, the lower exit at least 30 bps above the lower
   * entry.
   */
  lemma CalibratedOrdering(quantile: real -> real, x: real)
    requires 0.4 <= x <= 1.0
    ensures var ts := Tried(quantile, x - SqThreshDiff, quantile(x), MinSpreadThresh, true);
            forall i :: 0 <= i < |ts| ==> 0.0 <= ts[i] <= x - SqThreshDiff
    ensures var ts := Tried(quantile, 1.0 - (x - SqThreshDiff), quantile(1.0 - x), MinSpreadThresh, false);
            forall i :: 0 <= i < |ts| ==> 1.0 - (x - SqThreshDiff) <= ts[i] <= 1.0
    ensures var th := Thresholds(quantile, x);
            Monotone(quantile) ==>
              (th.upperExit.Some? ==> th.upperExit.value * 10000.0 + MinEntryExitSpreadDiff <= th.upperEntry * 10000.0) &&
              (th.lowerExit.Some? ==> th.lowerEntry * 10000.0 + MinEntryExitSpreadDiff <= th.lowerExit.value * 10000.0)
  {
    var th := Thresholds(quantile, x);
    var up := x - SqThreshDiff;
    var down := 1.0 - (x - SqThreshDiff);
    TriedWithin(quantile, up, th.upperEntry, MinSpreadThresh, true, 0.0, up);
    TriedWithin(quantile, down, th.lowerEntry, MinSpreadThresh, false, down, 1.0);
    var ups := Tried(quantile, up, th.upperEntry, MinSpreadThresh, true);
    var downs := Tried(quantile, down, th.lowerEntry, MinSpreadThresh, false);
    assert forall i :: 0 <= i < |ups| ==> ups[i] in ups;
    assert forall i :: 0 <= i < |downs| ==> downs[i] in downs;
    if Monotone(quantile) {
      if th.upperExit.Some? {
        ExitIsTriedQuantile(quantile, up, th.upperEntry, MinSpreadThresh, true);
        GapGuarantee(quantile, up, th.upperEntry, MinSpreadThresh, true);
        var t :| t in Tried(quantile, up, th.upperEntry, MinSpreadThresh, true) && th.upperExit.value == quantile(t);
        assert quantile(t) <= quantile(x);
      }
      if th.lowerExit.Some? {
        ExitIsTriedQuantile(quantile, down, th.lowerEntry, MinSpreadThresh, false);
        GapGuarantee(quantile, down, th.lowerEntry, MinSpreadThresh, false);
        var t :| t in Tried(quantile, down, th.lowerEntry, MinSpreadThresh, false) && th.lowerExit.value == quantile(t);
        assert quantile(1.0 - x) <= quantile(t);
      }
    }
  }
}
