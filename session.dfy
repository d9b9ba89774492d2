/**
 * The per-day, per-confidence-level position state machine. Each tick is handled
 * in a fixed order: entry check (only when flat), exit check, then a forced
 * square-off of any position still open after 15:50, which also ends the day's
 * simulation for that level. Closed trades are appended to the pair's ledger.
 */
module Session {
  import opened Wrappers
  import opened Pricing
  import opened Calibration

  /** The square-off time, 15:50, as minutes since midnight. */
  const SqMinute: int := 950

  /** One aligned intraday observation: its time, the trading signal and both raw prices. */
  datatype Tick = Tick(date: int, minute: int, signal: real, priceA: real, priceB: real)

  /** A closed trade: the timestamp of the closing tick and the trade's return. */
  datatype TradeRecord = TradeRecord(date: int, minute: int, pnl: real)

  /** Flat, or holding a "short" or "long" spread position with its entry fills. */
  datatype Position = Flat | Open(side: Side, fill: Fill)

  predicate PositivePrices(t: Tick)
  {
    t.priceA > 0.0 && t.priceB > 0.0
  }

  predicate AllPositive(ticks: seq<Tick>)
  {
    forall i :: 0 <= i < |ticks| ==> PositivePrices(ticks[i])
  }

  /** An open position committed positive capital, so its return is defined. */
  predicate Sound(pos: Position)
  {
    pos.Open? ==> TotalCapital(pos.fill) > 0.0
  }

  /**
   * Entry check: only when flat; a "short" if the signal is above the upper
   * entry and the upper tail has an exit, else a "long" if it is below the
   * lower entry and the lower tail has an exit.
   */
  function Enter(pos: Position, t: Tick, th: LevelThresholds): (p: Position)
    requires Sound(pos) && PositivePrices(t)
    ensures Sound(p)
  {
    if t.signal > th.upperEntry && pos.Flat? && th.upperExit.Some? then
      Open(ShortSpread, EntryTrade(ShortSpread, t.priceA, t.priceB, SlippagePerLeg))
    else if t.signal < th.lowerEntry && pos.Flat? && th.lowerExit.Some? then
      Open(LongSpread, EntryTrade(LongSpread, t.priceA, t.priceB, SlippagePerLeg))
    else
      pos
  }

  /** `signal <= exit`, false against the "no exit" sentinel as against NaN. */
  predicate AtOrBelow(signal: real, exit: Option<real>)
  {
    exit.Some? && signal <= exit.value
  }

  /** `signal >= exit`, false against the "no exit" sentinel as against NaN. */
  predicate AtOrAbove(signal: real, exit: Option<real>)
  {
    exit.Some? && signal >= exit.value
  }

  /** Exit check: a "short" closes at or below the upper exit, a "long" at or above the lower exit. */
  predicate ExitHit(pos: Position, t: Tick, th: LevelThresholds)
  {
    pos.Open? &&
    ((pos.side == ShortSpread && AtOrBelow(t.signal, th.upperExit)) ||
     (pos.side == LongSpread && AtOrAbove(t.signal, th.lowerExit)))
  }

  /** The ledger record of closing a position with entry fills `f` at tick `t`. */
  function Close(f: Fill, t: Tick): (r: TradeRecord)
    requires TotalCapital(f) > 0.0
    ensures r.date == t.date && r.minute == t.minute
    ensures r.pnl == M2M(f, t.priceA, t.priceB, SlippagePerLeg)
  {
    TradeRecord(t.date, t.minute, M2M(f, t.priceA, t.priceB, SlippagePerLeg))
  }

  /** What one tick does: the new position, the records it closes, and whether the day stops. */
  datatype StepResult = StepResult(pos: Position, records: seq<TradeRecord>, halt: bool)

  /**
   * One tick of the state machine. At most one trade closes per tick; the day
   * stops only with a square-off record at a tick after 15:50; an open position
   * is either kept unchanged or closed, never turned into the opposite one.
   */
  function Step(pos: Position, t: Tick, th: LevelThresholds): (s: StepResult)
    requires Sound(pos) && PositivePrices(t)
    ensures Sound(s.pos)
    ensures |s.records| <= 1
    ensures forall k :: 0 <= k < |s.records| ==> s.records[k].date == t.date && s.records[k].minute == t.minute
    ensures s.halt ==> |s.records| == 1 && t.minute > SqMinute
    ensures pos.Open? ==> s.pos == Flat || s.pos == pos
    ensures !s.halt && t.minute > SqMinute ==> s.pos == Flat
  {
    var entered := Enter(pos, t, th);
    var afterExit := if ExitHit(entered, t, th) then Flat else entered;
    var closed := if ExitHit(entered, t, th) then [Close(entered.fill, t)] else [];
    if afterExit.Open? && t.minute > SqMinute then
      StepResult(afterExit, closed + [Close(afterExit.fill, t)], true)
    else
      StepResult(afterExit, closed, false)
  }

  /** The outcome of a day for one level: its records, the last position, whether it was squared off. */
  datatype RunResult = RunResult(records: seq<TradeRecord>, final: Position, halted: bool)

  /** The state machine run over a day's ticks from position `pos`. */
  function Run(ticks: seq<Tick>, th: LevelThresholds, pos: Position): (r: RunResult)
    requires AllPositive(ticks) && Sound(pos)
    ensures Sound(r.final)
    decreases |ticks|
  {
    if ticks == [] then RunResult([], pos, false)
    else
      var s := Step(pos, ticks[0], th);
      if s.halt then RunResult(s.records, s.pos, true)
      else
        var rest := Run(ticks[1..], th, s.pos);
        RunResult(s.records + rest.records, rest.final, rest.halted)
  }

  /** The records one level appends to the ledger for one day; each day starts flat. */
  function DayTrades(ticks: seq<Tick>, th: LevelThresholds): seq<TradeRecord>
    requires AllPositive(ticks)
  {
    Run(ticks, th, Flat).records
  }

  /** The number of positions opened during a run (up to and including a square-off tick). */
  function Opens(ticks: seq<Tick>, th: LevelThresholds, pos: Position): nat
    requires AllPositive(ticks) && Sound(pos)
    decreases |ticks|
  {
    if ticks == [] then 0
    else
      var entered := Enter(pos, ticks[0], th);
      var entry := if pos.Flat? && entered.Open? then 1 else 0;
      var s := Step(pos, ticks[0], th);
      if s.halt then entry else entry + Opens(ticks[1..], th, s.pos)
  }

  /**
   * Entry rule: a position is opened only from flat, at most one per tick, with
   * "short" checked first: a "short" needs the signal above the upper entry and
   * an upper exit; a "long" needs the signal below the lower entry, a lower exit,
   * and the "short" condition to fail. A new position holds the entry fills
   * of its side at the prices of the tick that opened it.
   */
  lemma EntryRule(pos: Position, t: Tick, th: LevelThresholds)
    requires Sound(pos) && PositivePrices(t)
    ensures var p := Enter(pos, t, th);
            (p != pos ==> pos.Flat? && p.Open?) &&
            (p != pos ==> p.fill == EntryTrade(p.side, t.priceA, t.priceB, SlippagePerLeg)) &&
            (pos.Flat? && p.Open? && p.side == ShortSpread <==>
               pos.Flat? && t.signal > th.upperEntry && th.upperExit.Some?) &&
            (pos.Flat? && p.Open? && p.side == LongSpread <==>
               pos.Flat? && t.signal < th.lowerEntry && th.lowerExit.Some? &&
               !(t.signal > th.upperEntry && th.upperExit.Some?))
  {
  }

  /**
   * Exit rule for a position held before the tick: it closes with exactly one
   * record, stamped at the tick, exactly when the signal reaches its tail's
   * exit; otherwise it is kept, and squared off with exactly one record only if
   * the tick is after 15:50.
   */
  lemma ExitRule(pos: Position, t: Tick, th: LevelThresholds)
    requires Sound(pos) && PositivePrices(t) && pos.Open?
    ensures var s := Step(pos, t, th);
            (ExitHit(pos, t, th) ==> s.pos == Flat && !s.halt && s.records == [Close(pos.fill, t)]) &&
            (!ExitHit(pos, t, th) ==>
               s.pos == pos && (s.halt <==> t.minute > SqMinute) &&
               s.records == (if s.halt then [Close(pos.fill, t)] else []))
  {
  }

  /**
   * Forced square-off of a position opened on a late tick: a position that
   * the entry rule opens after 15:50 and that the exit rule leaves open is
   * closed on that same tick with one record, and the day stops. Entered and
   * closed at the same prices, that trade loses twice the slippage on both legs.
   */
  lemma LateEntrySquaredOff(pos: Position, t: Tick, th: LevelThresholds)
    requires Sound(pos) && PositivePrices(t) && pos.Flat? && t.minute > SqMinute
    requires Enter(pos, t, th).Open? && !ExitHit(Enter(pos, t, th), t, th)
    ensures Step(pos, t, th).halt
    ensures Step(pos, t, th).records == [Close(Enter(pos, t, th).fill, t)]
    ensures Step(pos, t, th).records[0].pnl < 0.0
  {
    var p := Enter(pos, t, th);
    RoundTripCost(p.side, t.priceA, t.priceB, SlippagePerLeg);
  }

  /** Each tail's exit lies on the median side of its entry. */
  predicate ExitsInsideEntries(th: LevelThresholds)
  {
    (th.upperExit.Some? ==> th.upperExit.value <= th.upperEntry) &&
    (th.lowerExit.Some? ==> th.lowerExit.value >= th.lowerEntry)
  }

  /**
   * When exits lie inside the entries, a position opened on a tick is not closed
   * by the exit rule on that same tick.
   */
  lemma SameTickHold(pos: Position, t: Tick, th: LevelThresholds)
    requires Sound(pos) && PositivePrices(t) && ExitsInsideEntries(th)
    requires pos.Flat? && Enter(pos, t, th).Open?
    ensures !ExitHit(Enter(pos, t, th), t, th)
  {
  }

  /** Calibrated thresholds of a monotone window always have their exits inside their entries. */
  lemma CalibratedExitsInside(quantile: real -> real, x: real)
    requires 0.4 <= x <= 1.0 && Monotone(quantile)
    ensures ExitsInsideEntries(Thresholds(quantile, x))
  {
    CalibratedOrdering(quantile, x);
  }

  /**
   * Record accounting: every position opened during a run is closed exactly
   * once, by the exit rule or the square-off, except a position still open when
   * the ticks run out without a square-off, which is dropped with no record.
   */
  lemma {:induction false} RecordAccounting(ticks: seq<Tick>, th: LevelThresholds, pos: Position)
    requires AllPositive(ticks) && Sound(pos)
    ensures var r := Run(ticks, th, pos);
            |r.records| + (if !r.halted && r.final.Open? then 1 else 0)
            == Opens(ticks, th, pos) + (if pos.Open? then 1 else 0)
    decreases |ticks|
  {
    if ticks != [] {
      var s := Step(pos, ticks[0], th);
      if !s.halt {
        RecordAccounting(ticks[1..], th, s.pos);
      }
    }
  }

  /** Without a tick after 15:50 the day is never squared off. */
  lemma {:induction false} NoLateTickNoSquareOff(ticks: seq<Tick>, th: LevelThresholds, pos: Position)
    requires AllPositive(ticks) && Sound(pos)
    requires forall i :: 0 <= i < |ticks| ==> ticks[i].minute <= SqMinute
    ensures !Run(ticks, th, pos).halted
    decreases |ticks|
  {
    if ticks != [] {
      var s := Step(pos, ticks[0], th);
      NoLateTickNoSquareOff(ticks[1..], th, s.pos);
    }
  }

  /**
   * A squared-off run ends with the square-off record, stamped after 15:50, and
   * ticks after the square-off tick add nothing: appending any further ticks to
   * the day leaves the run unchanged.
   */
  lemma {:induction false} SquareOffStops(ticks: seq<Tick>, more: seq<Tick>, th: LevelThresholds, pos: Position)
    requires AllPositive(ticks) && AllPositive(more) && Sound(pos)
    requires Run(ticks, th, pos).halted
    ensures AllPositive(ticks + more)
    ensures Run(ticks + more, th, pos) == Run(ticks, th, pos)
    ensures var recs := Run(ticks, th, pos).records;
            |recs| > 0 && recs[|recs| - 1].minute > SqMinute
    decreases |ticks|
  {
    var all := ticks + more;
    assert AllPositive(all) by {
      forall i | 0 <= i < |all| ensures PositivePrices(all[i]) {
        if i < |ticks| { assert all[i] == ticks[i]; } else { assert all[i] == more[i - |ticks|]; }
      }
    }
    assert all[0] == ticks[0];
    var s := Step(pos, ticks[0], th);
    if !s.halt {
      assert all[1..] == ticks[1..] + more;
      SquareOffStops(ticks[1..], more, th, s.pos);
    }
  }

  /** A run records at most one trade per tick, each stamped with the day's date. */
  lemma {:induction false} RecordsOfTheDay(ticks: seq<Tick>, th: LevelThresholds, pos: Position, date: int)
    requires AllPositive(ticks) && Sound(pos)
    requires forall i :: 0 <= i < |ticks| ==> ticks[i].date == date
    ensures var recs := Run(ticks, th, pos).records;
            |recs| <= |ticks| && forall k :: 0 <= k < |recs| ==> recs[k].date == date
    decreases |ticks|
  {
    if ticks != [] {
      var s := Step(pos, ticks[0], th);
      if !s.halt {
        RecordsOfTheDay(ticks[1..], th, s.pos, date);
      }
    }
  }

  /** A ledger: the list of closed trades of one pair, appended in place. */
  class Ledger {
    var records: seq<TradeRecord>

    constructor ()
      ensures records == []
    {
      records := [];
    }

    method Append(r: TradeRecord)
      modifies this
      ensures records == old(records) + [r]
    {
      records := records + [r];
    }
  }

  lemma AppendAssoc<T>(a: seq<T>, b: seq<T>, c: seq<T>)
    ensures (a + b) + c == a + (b + c)
  {
  }

  /** Unfolding the run at index `j`: the step at `ticks[j]`, then the rest unless it halted. */
  lemma RunAt(ticks: seq<Tick>, j: nat, th: LevelThresholds, pos: Position)
    requires AllPositive(ticks) && Sound(pos) && j < |ticks|
    ensures var s := Step(pos, ticks[j], th);
            Run(ticks[j..], th, pos).records
            == s.records + (if s.halt then [] else Run(ticks[j + 1..], th, s.pos).records)
  {
    assert ticks[j..][0] == ticks[j] && ticks[j..][1..] == ticks[j + 1..];
  }

  /** The entry check of one tick: opens a position only when flat and the level has that exit. */
  method EntryCheck(pos: Position, t: Tick, th: LevelThresholds) returns (p: Position)
    requires Sound(pos) && PositivePrices(t)
    ensures p == Enter(pos, t, th)
  {
    p := pos;
    if t.signal > th.upperEntry && pos.Flat? && th.upperExit.Some? {
      p := Open(ShortSpread, EntryTrade(ShortSpread, t.priceA, t.priceB, SlippagePerLeg));
    } else if t.signal < th.lowerEntry && pos.Flat? && th.lowerExit.Some? {
      p := Open(LongSpread, EntryTrade(LongSpread, t.priceA, t.priceB, SlippagePerLeg));
    }
  }

  /** The exit checks of one tick: a position whose exit threshold is reached is closed and recorded. */
  method ExitCheck(pos: Position, t: Tick, th: LevelThresholds, ledger: Ledger) returns (p: Position)
    requires Sound(pos)
    modifies ledger
    ensures p == if ExitHit(pos, t, th) then Flat else pos
    ensures ledger.records == old(ledger.records) + (if ExitHit(pos, t, th) then [Close(pos.fill, t)] else [])
  {
    p := pos;
    if p.Open? && p.side == ShortSpread {
      if AtOrBelow(t.signal, th.upperExit) {
        ledger.Append(Close(p.fill, t));
        p := Flat;
      }
    }
    if p.Open? && p.side == LongSpread {
      if AtOrAbove(t.signal, th.lowerExit) {
        ledger.Append(Close(p.fill, t));
        p := Flat;
      }
    }
  }

  /**
   * One tick of the loop: entry check, exit checks, then the square-off of a
   * position still open after 15:50, which ends the level's day.
   */
  method HandleTick(pos: Position, t: Tick, th: LevelThresholds, ledger: Ledger) returns (p: Position, halt: bool)
    requires Sound(pos) && PositivePrices(t)
    modifies ledger
    ensures var s := Step(pos, t, th);
            p == s.pos && halt == s.halt && ledger.records == old(ledger.records) + s.records
  {
    var entered := EntryCheck(pos, t, th);
    p := ExitCheck(entered, t, th, ledger);
    halt := false;
    if p.Open? && t.minute > SqMinute {
      ledger.Append(Close(p.fill, t));
      halt := true;
    }
  }

  /**
   * The tick loop of one confidence level over one day: mutates the position
   * tick by tick, appends every closed trade to the shared ledger, and stops at
   * the first square-off.
   */
  method SimulateLevelDay(ticks: seq<Tick>, th: LevelThresholds, ledger: Ledger)
    requires AllPositive(ticks)
    modifies ledger
    ensures ledger.records == old(ledger.records) + DayTrades(ticks, th)
  {
    var openPosition := Flat;
    var j := 0;
    while j < |ticks|
      invariant 0 <= j <= |ticks| && Sound(openPosition)
      invariant ledger.records + Run(ticks[j..], th, openPosition).records
                == old(ledger.records) + DayTrades(ticks, th)
    {
      ghost var before := ledger.records;
      ghost var s := Step(openPosition, ticks[j], th);
      RunAt(ticks, j, th, openPosition);
      var halt;
      openPosition, halt := HandleTick(openPosition, ticks[j], th, ledger);
      if halt {
        break;
      }
      AppendAssoc(before, s.records, Run(ticks[j + 1..], th, openPosition).records);
      j := j + 1;
    }
  }
}
