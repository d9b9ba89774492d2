/**
 * Fill pricing and mark-to-market of one pairs trade (`entry_trade` and `m2m`).
 * Every quantity is an exact real; a trade is two legs of the pair, one held
 * long and one held short, each filled with a fixed adverse slippage fraction.
 */
module Pricing {

  /** Slippage charged on every leg of every fill: 2.5 basis points. */
  const SlippagePerLeg: real := 0.00025

  /** The two legs of a pair: `pair[0]` (the ratio's numerator) and `pair[1]`. */
  datatype Leg = LegA | LegB

  /**
   * The two trade types. `ShortSpread` ("short") bets that the ratio A/B falls:
   * long B, short A. `LongSpread` ("long") bets that it rises: long A, short B.
   */
  datatype Side = ShortSpread | LongSpread

  /** Slippage-adjusted entry prices and the symbols they belong to. */
  datatype Fill = Fill(longPrice: real, shortPrice: real, longLeg: Leg, shortLeg: Leg)

  /** The raw price of `leg` in a row of the merged price table. */
  function RawPrice(leg: Leg, priceA: real, priceB: real): real
  {
    match leg
    case LegA => priceA
    case LegB => priceB
  }

  /**
   * Entry fills at one tick: the long leg is bought at the raw price raised by
   * the slippage, the short leg sold at the raw price lowered by it.
   */
  function EntryTrade(side: Side, priceA: real, priceB: real, slippage: real): (f: Fill)
    ensures f.longLeg != f.shortLeg
    ensures side == ShortSpread ==> f.longLeg == LegB && f.shortLeg == LegA
    ensures side == LongSpread ==> f.longLeg == LegA && f.shortLeg == LegB
    // both fills are adverse to the trader
    ensures 0.0 <= slippage && 0.0 <= priceA && 0.0 <= priceB ==>
      f.longPrice >= RawPrice(f.longLeg, priceA, priceB) &&
      f.shortPrice <= RawPrice(f.shortLeg, priceA, priceB)
    // positive prices and a slippage below 100% give positive committed capital
    ensures 0.0 < priceA && 0.0 < priceB && 0.0 <= slippage < 1.0 ==>
      f.longPrice > 0.0 && f.shortPrice > 0.0
  {
    match side
    case ShortSpread =>
      Fill(priceB * (1.0 + slippage), priceA * (1.0 - slippage), LegB, LegA)
    case LongSpread =>
      Fill(priceA * (1.0 + slippage), priceB * (1.0 - slippage), LegA, LegB)
  }

  /** The capital the trade committed at entry, the denominator of its return. */
  function TotalCapital(f: Fill): real
  {
    f.longPrice + f.shortPrice
  }

  /**
   * Return of closing `f` at raw exit prices `exitA`, `exitB`: the long leg is
   * sold below its raw price and the short leg bought back above it, and the
   * profit of both legs is divided by the capital committed at entry.
   */
  function M2M(f: Fill, exitA: real, exitB: real, slippage: real): real
    requires TotalCapital(f) != 0.0
  {
    var pnlLong := RawPrice(f.longLeg, exitA, exitB) * (1.0 - slippage) - f.longPrice;
    var pnlShort := f.shortPrice - RawPrice(f.shortLeg, exitA, exitB) * (1.0 + slippage);
    (pnlLong + pnlShort) / TotalCapital(f)
  }

  /** With no slippage the entry fills are the raw prices. */
  lemma EntryAtZeroSlippage(side: Side, priceA: real, priceB: real)
    ensures EntryTrade(side, priceA, priceB, 0.0).longPrice
            == RawPrice(EntryTrade(side, priceA, priceB, 0.0).longLeg, priceA, priceB)
    ensures EntryTrade(side, priceA, priceB, 0.0).shortPrice
            == RawPrice(EntryTrade(side, priceA, priceB, 0.0).shortLeg, priceA, priceB)
  {
  }

  /** With no slippage the return is the plain closed form over raw prices. */
  lemma M2MAtZeroSlippage(f: Fill, exitA: real, exitB: real)
    requires TotalCapital(f) != 0.0
    ensures M2M(f, exitA, exitB, 0.0)
            == ((RawPrice(f.longLeg, exitA, exitB) - f.longPrice)
                + (f.shortPrice - RawPrice(f.shortLeg, exitA, exitB)))
               / (f.longPrice + f.shortPrice)
  {
  }

  /**
   * The sign of a return is the sign of its profit: with positive capital the
   * trade gains exactly when what the exit fills bring in exceeds what the
   * entry fills cost.
   */
  lemma {:induction false} M2MSign(f: Fill, exitA: real, exitB: real, slippage: real)
    requires TotalCapital(f) > 0.0
    ensures var proceeds := RawPrice(f.longLeg, exitA, exitB) * (1.0 - slippage) + f.shortPrice;
            var cost := f.longPrice + RawPrice(f.shortLeg, exitA, exitB) * (1.0 + slippage);
            (M2M(f, exitA, exitB, slippage) > 0.0 <==> proceeds > cost) &&
            (M2M(f, exitA, exitB, slippage) == 0.0 <==> proceeds == cost)
  {
    var proceeds := RawPrice(f.longLeg, exitA, exitB) * (1.0 - slippage) + f.shortPrice;
    var cost := f.longPrice + RawPrice(f.shortLeg, exitA, exitB) * (1.0 + slippage);
    var c := TotalCapital(f);
    assert M2M(f, exitA, exitB, slippage) == (proceeds - cost) / c;
    QuotientSign(proceeds - cost, c);
  }

  /** A quotient by a positive number has the sign of its numerator. */
  lemma QuotientSign(n: real, c: real)
    requires c > 0.0
    ensures n / c > 0.0 <==> n > 0.0
    ensures n / c == 0.0 <==> n == 0.0
    ensures n / c < 0.0 <==> n < 0.0
  {
    assert (n / c) * c == n;
    if n > 0.0 { assert n / c > 0.0; }
    if n < 0.0 { assert n / c < 0.0; }
  }

  /** A fill whose two legs together made `profit` returns `profit` over its capital. */
  lemma M2MOfProfit(f: Fill, exitA: real, exitB: real, slippage: real, profit: real)
    requires TotalCapital(f) != 0.0
    requires (RawPrice(f.longLeg, exitA, exitB) * (1.0 - slippage) - f.longPrice)
             + (f.shortPrice - RawPrice(f.shortLeg, exitA, exitB) * (1.0 + slippage)) == profit
    ensures M2M(f, exitA, exitB, slippage) == profit / TotalCapital(f)
  {
  }

  /**
   * The profit of both legs of a trade entered and closed at the same raw
   * prices: each leg loses its entry and its exit slippage.
   */
  lemma RoundTripProfit(side: Side, priceA: real, priceB: real, slippage: real)
    ensures var f := EntryTrade(side, priceA, priceB, slippage);
            (RawPrice(f.longLeg, priceA, priceB) * (1.0 - slippage) - f.longPrice)
            + (f.shortPrice - RawPrice(f.shortLeg, priceA, priceB) * (1.0 + slippage))
            == -2.0 * slippage * (priceA + priceB)
  {
    match side
    case ShortSpread =>
      assert priceB * (1.0 - slippage) - priceB * (1.0 + slippage) == -2.0 * slippage * priceB;
      assert priceA * (1.0 - slippage) - priceA * (1.0 + slippage) == -2.0 * slippage * priceA;
    case LongSpread =>
      assert priceA * (1.0 - slippage) - priceA * (1.0 + slippage) == -2.0 * slippage * priceA;
      assert priceB * (1.0 - slippage) - priceB * (1.0 + slippage) == -2.0 * slippage * priceB;
  }

  /**
   * A trade entered and closed at unchanged raw prices returns minus twice the
   * slippage on the pair's gross price, over the capital committed at entry.
   */
  lemma RoundTripReturn(side: Side, priceA: real, priceB: real, slippage: real)
    requires 0.0 < priceA && 0.0 < priceB && 0.0 <= slippage < 1.0
    ensures var f := EntryTrade(side, priceA, priceB, slippage);
            TotalCapital(f) > 0.0 &&
            M2M(f, priceA, priceB, slippage) == -2.0 * slippage * (priceA + priceB) / TotalCapital(f)
  {
    var f := EntryTrade(side, priceA, priceB, slippage);
    RoundTripProfit(side, priceA, priceB, slippage);
    M2MOfProfit(f, priceA, priceB, slippage, -2.0 * slippage * (priceA + priceB));
  }

  /**
   * A loss of twice the slippage on a positive gross price, over positive
   * capital, is negative when slippage is charged and zero when it is not.
   */
  lemma SlippageLossSign(r: real, slippage: real, gross: real, capital: real)
    requires 0.0 <= slippage && 0.0 < gross && 0.0 < capital
    requires r == -2.0 * slippage * gross / capital
    ensures slippage > 0.0 ==> r < 0.0
    ensures slippage == 0.0 ==> r == 0.0
  {
    QuotientSign(-2.0 * slippage * gross, capital);
    if slippage > 0.0 {
      assert slippage * gross > 0.0;
    }
  }

  /**
   * Round-trip cost: a trade entered and closed while both raw prices stay
   * unchanged loses money when slippage is charged and breaks even when it is not.
   */
  lemma RoundTripCost(side: Side, priceA: real, priceB: real, slippage: real)
    requires 0.0 < priceA && 0.0 < priceB && 0.0 <= slippage < 1.0
    ensures var f := EntryTrade(side, priceA, priceB, slippage);
            (slippage > 0.0 ==> M2M(f, priceA, priceB, slippage) < 0.0) &&
            (slippage == 0.0 ==> M2M(f, priceA, priceB, slippage) == 0.0)
  {
    var f := EntryTrade(side, priceA, priceB, slippage);
    RoundTripReturn(side, priceA, priceB, slippage);
    SlippageLossSign(M2M(f, priceA, priceB, slippage), slippage, priceA + priceB, TotalCapital(f));
  }
}
