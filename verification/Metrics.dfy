/** backtest/metrics.py: the money side of the scorecard, in exact arithmetic. */
module Metrics {
  import opened Simulator

  /** Gross profit over gross loss; infinite with profits and no losses. */
  datatype Factor = Finite(ratio: real) | Infinite

  datatype Scorecard = Scorecard(
    trades: nat, wins: nat, losses: nat, winRate: real,
    netPnl: real, grossProfit: real, grossLoss: real, profitFactor: Factor,
    avgWin: real, avgLoss: real, expectancy: real, avgR: real,
    maxDrawdown: real, totalFees: real, exitBreakdown: map<ExitReason, nat>)

  const BLANK := Scorecard(0, 0, 0, 0.0, 0.0, 0.0, 0.0, Finite(0.0), 0.0, 0.0, 0.0, 0.0, 0.0, 0.0, map[])

  // ------------------------------------------------------------ definitions

  function NetPnl(trades: seq<ClosedTrade>): real
  {
    if trades == [] then 0.0 else NetPnl(trades[..|trades| - 1]) + trades[|trades| - 1].netPnl
  }

  function Fees(trades: seq<ClosedTrade>): real
  {
    if trades == [] then 0.0 else Fees(trades[..|trades| - 1]) + trades[|trades| - 1].fees
  }

  function RMultiples(trades: seq<ClosedTrade>): real
  {
    if trades == [] then 0.0 else RMultiples(trades[..|trades| - 1]) + trades[|trades| - 1].rMultiple
  }

  function Winners(trades: seq<ClosedTrade>): seq<ClosedTrade>
  {
    if trades == [] then []
    else Winners(trades[..|trades| - 1]) + if trades[|trades| - 1].netPnl > 0.0 then [trades[|trades| - 1]] else []
  }

  function Losers(trades: seq<ClosedTrade>): seq<ClosedTrade>
  {
    if trades == [] then []
    else Losers(trades[..|trades| - 1]) + if trades[|trades| - 1].netPnl < 0.0 then [trades[|trades| - 1]] else []
  }

  function ExitsFor(trades: seq<ClosedTrade>, reason: ExitReason): nat
  {
    if trades == [] then 0
    else ExitsFor(trades[..|trades| - 1], reason) + if trades[|trades| - 1].reason == reason then 1 else 0
  }

  lemma Extend(trades: seq<ClosedTrade>, i: nat)
    requires i < |trades|
    ensures NetPnl(trades[..i + 1]) == NetPnl(trades[..i]) + trades[i].netPnl
    ensures Fees(trades[..i + 1]) == Fees(trades[..i]) + trades[i].fees
    ensures RMultiples(trades[..i + 1]) == RMultiples(trades[..i]) + trades[i].rMultiple
    ensures Winners(trades[..i + 1]) == Winners(trades[..i]) + if trades[i].netPnl > 0.0 then [trades[i]] else []
    ensures Losers(trades[..i + 1]) == Losers(trades[..i]) + if trades[i].netPnl < 0.0 then [trades[i]] else []
    ensures forall r :: ExitsFor(trades[..i + 1], r) == ExitsFor(trades[..i], r) + if trades[i].reason == r then 1 else 0
  {
    assert trades[..i + 1][..i] == trades[..i];
  }

  lemma NetAppend(init: seq<ClosedTrade>, last: ClosedTrade)
    ensures NetPnl(init + [last]) == NetPnl(init) + last.netPnl
  {
    assert (init + [last])[..|init|] == init;
  }

  lemma SidesExtend(trades: seq<ClosedTrade>, i: nat)
    requires i < |trades|
    ensures var wins, losses := Winners(trades[..i]), Losers(trades[..i]);
            var pnl := trades[i].netPnl;
            && |Winners(trades[..i + 1])| == |wins| + (if pnl > 0.0 then 1 else 0)
            && NetPnl(Winners(trades[..i + 1])) == NetPnl(wins) + (if pnl > 0.0 then pnl else 0.0)
            && |Losers(trades[..i + 1])| == |losses| + (if pnl < 0.0 then 1 else 0)
            && NetPnl(Losers(trades[..i + 1])) == NetPnl(losses) + (if pnl < 0.0 then pnl else 0.0)
  {
    Extend(trades, i);
    var wins, losses, trade := Winners(trades[..i]), Losers(trades[..i]), trades[i];
    NetAppend(wins, trade);
    NetAppend(losses, trade);
    hide *;
    assert wins + [] == wins && losses + [] == losses;
    if trade.netPnl > 0.0 {
    } else if trade.netPnl < 0.0 {
    }
  }

  // --------------------------------------------------------------- drawdown

  /** The equity after `k` trades; the curve starts from zero. */
  function Equity(curve: seq<real>, k: nat): real
    requires k <= |curve|
  {
    if k == 0 then 0.0 else curve[k - 1]
  }

  /** The largest fall from an earlier to a later point, and it happens. */
  ghost predicate IsDeepestFall(curve: seq<real>, fall: real)
  {
    && (exists i, j | 0 <= i <= j <= |curve| :: fall == Equity(curve, i) - Equity(curve, j))
    && forall i, j | 0 <= i <= j <= |curve| :: Equity(curve, i) - Equity(curve, j) <= fall
  }

  /** One pass with a running peak finds the pairwise maximum. */
  method MaxDrawdown(curve: seq<real>) returns (maxDd: real)
    ensures IsDeepestFall(curve, maxDd)
  {
    var peak := 0.0;
    maxDd := 0.0;
    ghost var top, from, to := 0, 0, 0;
    for n := 0 to |curve|
      invariant 0 <= top <= n && peak == Equity(curve, top)
      invariant forall i | 0 <= i <= n :: Equity(curve, i) <= peak
      invariant 0 <= from <= to <= n && maxDd == Equity(curve, from) - Equity(curve, to)
      invariant forall i, j | 0 <= i <= j <= n :: Equity(curve, i) - Equity(curve, j) <= maxDd
    {
      var value := curve[n];
      assert value == Equity(curve, n + 1);
      if value > peak { peak, top := value, n + 1; }
      var drawdown := peak - value;
      if drawdown > maxDd { maxDd, from, to := drawdown, top, n + 1; }
    }
  }

  // -------------------------------------------------------------- scorecard

  function EquityCurve(trades: seq<ClosedTrade>): (curve: seq<real>)
    ensures |curve| == |trades|
  {
    seq(|trades|, k requires 0 <= k < |trades| => NetPnl(trades[..k + 1]))
  }

  /** What every field of a report on at least one trade says. */
  ghost predicate Reports(m: Scorecard, trades: seq<ClosedTrade>)
    requires trades != []
  {
    var wins, losses := Winners(trades), Losers(trades);
    && m.trades == |trades| && m.wins == |wins| && m.losses == |losses|
    && m.winRate * m.trades as real == m.wins as real
    && m.netPnl == NetPnl(trades) && m.totalFees == Fees(trades)
    && m.grossProfit == NetPnl(wins) && m.grossLoss == -NetPnl(losses)
    && (m.grossLoss > 0.0 ==> m.profitFactor.Finite? && m.profitFactor.ratio * m.grossLoss == m.grossProfit)
    && (m.grossLoss <= 0.0 ==> m.profitFactor == if m.grossProfit > 0.0 then Infinite else Finite(0.0))
    && m.avgWin * m.wins as real == m.grossProfit && (m.wins == 0 ==> m.avgWin == 0.0)
    && m.avgLoss * m.losses as real == m.grossLoss && (m.losses == 0 ==> m.avgLoss == 0.0)
    && m.expectancy * m.trades as real == m.netPnl
    && m.avgR * m.trades as real == RMultiples(trades)
    && IsDeepestFall(EquityCurve(trades), m.maxDrawdown)
    && (forall r :: (r in m.exitBreakdown) == (ExitsFor(trades, r) > 0))
    && (forall r <- m.exitBreakdown :: m.exitBreakdown[r] == ExitsFor(trades, r))
  }

  /** Division undone, the only nonlinear fact the report needs. */
  function Per(total: real, count: nat): (share: real)
    ensures count > 0 ==> share * count as real == total
    ensures count == 0 ==> share == 0.0
  {
    if count == 0 then 0.0 else total / count as real
  }

  function ProfitFactor(profit: real, loss: real): (f: Factor)
    ensures loss > 0.0 ==> f.Finite? && f.ratio * loss == profit
  {
    if loss > 0.0 then Finite(profit / loss) else if profit > 0.0 then Infinite else Finite(0.0)
  }

  lemma NoneIsZero(trades: seq<ClosedTrade>)
    ensures trades == [] ==> NetPnl(trades) == 0.0
  {
  }

  /** The accumulators after a prefix of the trades. */
  datatype Tally = Tally(net: real, fees: real, rSum: real, wins: nat, profit: real, losses: nat, loss: real)

  function TallyOf(trades: seq<ClosedTrade>): Tally
  {
    Tally(NetPnl(trades), Fees(trades), RMultiples(trades), |Winners(trades)|, NetPnl(Winners(trades)),
          |Losers(trades)|, -NetPnl(Losers(trades)))
  }

  ghost predicate Counts(exits: map<ExitReason, nat>, trades: seq<ClosedTrade>)
  {
    && (forall r :: (r in exits) == (ExitsFor(trades, r) > 0))
    && forall r <- exits :: exits[r] == ExitsFor(trades, r)
  }

  lemma TallyExtends(trades: seq<ClosedTrade>, i: nat)
    requires i < |trades|
    ensures var t, u := TallyOf(trades[..i]), TallyOf(trades[..i + 1]);
            var trade := trades[i];
            && u.net == t.net + trade.netPnl && u.fees == t.fees + trade.fees && u.rSum == t.rSum + trade.rMultiple
            && u.wins == t.wins + (if trade.netPnl > 0.0 then 1 else 0)
            && u.profit == t.profit + (if trade.netPnl > 0.0 then trade.netPnl else 0.0)
            && u.losses == t.losses + (if trade.netPnl < 0.0 then 1 else 0)
            && u.loss == t.loss - (if trade.netPnl < 0.0 then trade.netPnl else 0.0)
  {
    Extend(trades, i);
    SidesExtend(trades, i);
    hide NetPnl, Fees, RMultiples, Winners, Losers, ExitsFor;
  }

  lemma CountsExtend(exits: map<ExitReason, nat>, trades: seq<ClosedTrade>, i: nat)
    requires i < |trades| && Counts(exits, trades[..i])
    ensures var r := trades[i].reason;
            Counts(exits[r := (if r in exits then exits[r] else 0) + 1], trades[..i + 1])
  {
    Extend(trades, i);
    hide NetPnl, Fees, RMultiples, Winners, Losers, ExitsFor;
  }

  method ComputeMetrics(trades: seq<ClosedTrade>) returns (m: Scorecard)
    ensures trades == [] ==> m == BLANK
    ensures trades != [] ==> Reports(m, trades)
  {
    if trades == [] { return BLANK; }
    hide NetPnl, Fees, RMultiples, Winners, Losers, Counts;
    var tally := Tally(0.0, 0.0, 0.0, 0, 0.0, 0, 0.0);
    var equity := 0.0;
    var curve: seq<real> := [];
    var exits: map<ExitReason, nat> := map[];
    StartsBlank(trades);
    for i := 0 to |trades|
      invariant tally == TallyOf(trades[..i]) && equity == tally.net && Counts(exits, trades[..i])
      invariant |curve| == i && forall k | 0 <= k < i :: curve[k] == NetPnl(trades[..k + 1])
    {
      var trade := trades[i];
      TallyExtends(trades, i);
      CountsExtend(exits, trades, i);
      exits := exits[trade.reason := (if trade.reason in exits then exits[trade.reason] else 0) + 1];
      tally := tally.(net := tally.net + trade.netPnl, fees := tally.fees + trade.fees,
                      rSum := tally.rSum + trade.rMultiple);
      if trade.netPnl > 0.0 {
        tally := tally.(wins := tally.wins + 1, profit := tally.profit + trade.netPnl);
      } else if trade.netPnl < 0.0 {
        tally := tally.(losses := tally.losses + 1, loss := tally.loss - trade.netPnl);
      }
      equity := equity + trade.netPnl;
      curve := curve + [equity];
    }
    assert trades[..|trades|] == trades;
    assert curve == EquityCurve(trades);
    var maxDd := MaxDrawdown(curve);
    m := Scored(tally, |trades|, maxDd, exits);
    ScoredReports(trades, maxDd, exits);
  }

  function Scored(t: Tally, n: nat, maxDd: real, exits: map<ExitReason, nat>): Scorecard
  {
    Scorecard(
      n, t.wins, t.losses, Per(t.wins as real, n), t.net, t.profit, t.loss, ProfitFactor(t.profit, t.loss),
      Per(t.profit, t.wins), Per(t.loss, t.losses), Per(t.net, n), Per(t.rSum, n), maxDd, t.fees, exits)
  }

  lemma StartsBlank(trades: seq<ClosedTrade>)
    ensures TallyOf(trades[..0]) == Tally(0.0, 0.0, 0.0, 0, 0.0, 0, 0.0) && Counts(map[], trades[..0])
  {
  }

  lemma ScoredReports(trades: seq<ClosedTrade>, maxDd: real, exits: map<ExitReason, nat>)
    requires trades != [] && IsDeepestFall(EquityCurve(trades), maxDd) && Counts(exits, trades)
    ensures Reports(Scored(TallyOf(trades), |trades|, maxDd, exits), trades)
  {
    NoneIsZero(Winners(trades));
    NoneIsZero(Losers(trades));
    hide Winners, Losers, NetPnl, Fees, RMultiples, ExitsFor, Per, IsDeepestFall, EquityCurve;
    assert ProfitFactor(TallyOf(trades).profit, TallyOf(trades).loss).Infinite? ==> TallyOf(trades).loss <= 0.0;
  }

  // ------------------------------------------------------------- properties

  /** Winners and losers add up to the net result, and neither side is negative. */
  lemma {:induction false} ProfitMinusLossIsNet(trades: seq<ClosedTrade>)
    ensures NetPnl(Winners(trades)) + NetPnl(Losers(trades)) == NetPnl(trades)
    ensures NetPnl(Winners(trades)) >= 0.0 && NetPnl(Losers(trades)) <= 0.0
  {
    if trades != [] {
      var init, last := trades[..|trades| - 1], trades[|trades| - 1];
      ProfitMinusLossIsNet(init);
      NetAppend(Winners(init), last);
      NetAppend(Losers(init), last);
      assert Winners(init) + [] == Winners(init) && Losers(init) + [] == Losers(init);
    }
  }

  /** Between two points the equity cannot fall by more than the losses booked. */
  lemma {:induction false} FallWithinLosses(trades: seq<ClosedTrade>, i: nat, j: nat)
    requires i <= j <= |trades|
    ensures NetPnl(trades[..i]) - NetPnl(trades[..j]) <= -NetPnl(Losers(trades[..j]))
  {
    if i == j {
      ProfitMinusLossIsNet(trades[..j]);
    } else {
      FallWithinLosses(trades, i, j - 1);
      Extend(trades, j - 1);
      SidesExtend(trades, j - 1);
      hide *;
    }
  }

  lemma {:induction false} LossesOnlyGrow(trades: seq<ClosedTrade>, j: nat)
    requires j <= |trades|
    ensures -NetPnl(Losers(trades[..j])) <= -NetPnl(Losers(trades))
    decreases |trades| - j
  {
    if j == |trades| {
      assert trades[..j] == trades;
    } else {
      LossesOnlyGrow(trades, j + 1);
      SidesExtend(trades, j);
      hide *;
    }
  }

  /** A report never shows a drawdown above its gross loss, nor a negative one;
      its gross sides differ by its net; averages recombine into the net. */
  lemma ReportAddsUp(m: Scorecard, trades: seq<ClosedTrade>)
    requires trades != [] && Reports(m, trades)
    ensures 0.0 <= m.maxDrawdown <= m.grossLoss
    ensures m.grossProfit - m.grossLoss == m.netPnl
    ensures m.avgWin * m.wins as real - m.avgLoss * m.losses as real == m.expectancy * m.trades as real
    ensures m.wins + m.losses <= m.trades
  {
    ProfitMinusLossIsNet(trades);
    WinsAndLossesAreTrades(trades);
    var curve := EquityCurve(trades);
    assert Equity(curve, 0) - Equity(curve, 0) <= m.maxDrawdown;
    var i, j :| 0 <= i <= j <= |curve| && m.maxDrawdown == Equity(curve, i) - Equity(curve, j);
    assert Equity(curve, i) == NetPnl(trades[..i]) && Equity(curve, j) == NetPnl(trades[..j]);
    FallWithinLosses(trades, i, j);
    LossesOnlyGrow(trades, j);
  }

  lemma {:induction false} WinsAndLossesAreTrades(trades: seq<ClosedTrade>)
    ensures |Winners(trades)| + |Losers(trades)| <= |trades|
  {
    if trades != [] { WinsAndLossesAreTrades(trades[..|trades| - 1]); }
  }

  lemma FactorFacts(m: Scorecard, trades: seq<ClosedTrade>)
    requires trades != [] && Reports(m, trades) && m.grossLoss > 0.0
    ensures m.profitFactor.Finite? && m.profitFactor.ratio * m.grossLoss == m.grossProfit
    ensures m.grossProfit - m.grossLoss == m.netPnl
  {
    ProfitMinusLossIsNet(trades);
    hide NetPnl, Winners, Losers, Fees, RMultiples, ExitsFor, IsDeepestFall;
  }

  lemma ScaledAboveIff(ratio: real, loss: real, profit: real, net: real)
    requires loss > 0.0 && ratio * loss == profit && profit - loss == net
    ensures ratio > 1.0 <==> net > 0.0
  {
    assert (ratio - 1.0) * loss == net;
  }

  /** With some loss booked, the profit factor exceeds one exactly when money
      was made. */
  lemma ProfitFactorAboveOneIff(m: Scorecard, trades: seq<ClosedTrade>)
    requires trades != [] && Reports(m, trades) && m.grossLoss > 0.0
    ensures m.profitFactor.Finite? && (m.profitFactor.ratio > 1.0 <==> m.netPnl > 0.0)
  {
    hide *;
    FactorFacts(m, trades);
    ScaledAboveIff(m.profitFactor.ratio, m.grossLoss, m.grossProfit, m.netPnl);
  }
}
