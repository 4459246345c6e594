/** What the two engines book: net results of backtest/simulator.py `_book_exit`
    against `_calc_pnl_usd` less `calc_fee_usd` on the live side. */
module Pnl {
  import opened Prelude
  import opened Lockstep
  import Sim = Simulator
  import Pm = PositionManagement

  /** The terms `_open_position` writes, with fee rates as fractions. */
  predicate WellPriced(t: Sim.Terms, entryRate: real)
  {
    t.entryPx > 0.0 && t.qty == t.notional / t.entryPx && t.entryFee == t.notional * entryRate
  }

  function EntryRate(cfg: Sim.SimConfig): real
  {
    (if cfg.makerEntryEnabled then cfg.makerFeeBps else cfg.takerFeeBps) / BPS
  }

  lemma OpenedIsWellPriced(cfg: Sim.SimConfig, coin: Coin, side: Side, entryPx: real, ts: Instant, confidence: real)
    requires entryPx > 0.0
    ensures WellPriced(Sim.Opened(cfg, coin, side, entryPx, ts, confidence).terms, EntryRate(cfg))
  {
  }

  /** A booked long nets notional * ((x/entry)(1-s)(1-t) - 1 - e); a short the
      mirror image.  s, t and e are slippage, taker and entry rates. */
  lemma BookedNet(cfg: Sim.SimConfig, p: Sim.Position, x: real, ts: Instant, reason: Sim.ExitReason, e: real)
    requires WellPriced(p.terms, e)
    ensures var s, t, r := cfg.slippageBps / BPS, cfg.takerFeeBps / BPS, x / p.terms.entryPx;
            Sim.Booked(cfg, p, x, ts, reason).netPnl == p.terms.notional *
              (if p.terms.side == Long then r * (1.0 - s) * (1.0 - t) - 1.0 - e
               else 1.0 - r * (1.0 + s) * (1.0 + t) - e)
  {
    var s, t, r := cfg.slippageBps / BPS, cfg.takerFeeBps / BPS, x / p.terms.entryPx;
    var n, q, entry := p.terms.notional, p.terms.qty, p.terms.entryPx;
    var k := if p.terms.side == Long then 1.0 - s else 1.0 + s;
    var fill := Sim.FillPx(cfg, p.terms.side, x);
    assert fill == x * k;
    QtyTimes(n, entry, q, x);
    QtyTimes(n, entry, q, entry);
    assert fill * q == n * r * k by { assert fill * q == (x * q) * k; }
    assert Sim.GrossPnl(p.terms, fill) == if p.terms.side == Long then fill * q - n else n - fill * q;
    assert Sim.Fees(cfg, p.terms, fill) == n * e + fill * q * t;
    assert n * r * k * t == n * (r * k * t);
  }

  lemma QtyTimes(n: real, entry: real, q: real, x: real)
    requires entry > 0.0 && q == n / entry
    ensures x * q == n * (x / entry)
    ensures x == entry ==> x * q == n
  {
    assert q * entry == n;
    var r := x / entry;
    assert r * entry == x;
    assert x * q == r * entry * q == r * n;
  }

  // ------------------------------------------------------------- live against backtest

  /** Both sides pay the same fees on the same size. */
  predicate SameCosts(cfg: Sim.SimConfig, settings: Pm.Settings, sim: Sim.Position, live: Pm.Managed)
  {
    && settings.makerFeeBps == cfg.makerFeeBps && settings.takerFeeBps == cfg.takerFeeBps
    && settings.makerEntryEnabled == cfg.makerEntryEnabled
    && live.size == sim.terms.qty
    && WellPriced(sim.terms, EntryRate(cfg))
  }

  /** With no slippage, the backtest nets more than the journal by exactly the
      distance from the mark back to the stop, less the taker fee on it. */
  lemma NetGap(cfg: Sim.SimConfig, settings: Pm.Settings, sim: Sim.Position, live: Pm.Managed,
               e: Sim.Exit, r: Pm.ExitRequest, ts: Instant)
    requires InStep(sim, live) && SameCosts(cfg, settings, sim, live) && cfg.slippageBps == 0.0
    ensures Sim.Booked(cfg, sim, e.px, ts, e.reason).netPnl - Pm.RowOf(settings, live, r).net
         == Beyond(sim.terms.side, e.px, r.px) * sim.terms.qty * Keep(cfg.takerFeeBps, sim.terms.side)
  {
    var t, q, entry := cfg.takerFeeBps / BPS, sim.terms.qty, sim.terms.entryPx;
    QtyTimes(sim.terms.notional, entry, q, entry);
    var fill := Sim.FillPx(cfg, sim.terms.side, e.px);
    assert fill == e.px;
    assert Sim.Fees(cfg, sim.terms, fill) == sim.terms.entryFee + e.px * q * t;
    assert Pm.CalcFeeUsd(live.entryPx, r.px, live.size, settings.makerEntryEnabled, settings.makerFeeBps, settings.takerFeeBps)
        == sim.terms.entryFee + r.px * q * t;
  }

  /** A zero-slippage backtest never reports less than the live journal, and
      differs from it only on stop exits, where it fills at the stop. */
  lemma BacktestNeverReportsLess(cfg: Sim.SimConfig, settings: Pm.Settings, sim: Sim.Position, live: Pm.Managed,
                                 e: Sim.Exit, r: Pm.ExitRequest, mark: real, ts: Instant)
    requires InStep(sim, live) && SameCosts(cfg, settings, sim, live) && cfg.slippageBps == 0.0
    requires 0.0 <= cfg.takerFeeBps < BPS && sim.terms.qty > 0.0
    requires Sim.ExitOf(cfg, sim, mark, ts) == Some(e) && SameExit(Some(e), Some(r), sim.stopPx, mark)
    ensures var backtest, journal := Sim.Booked(cfg, sim, e.px, ts, e.reason).netPnl, Pm.RowOf(settings, live, r).net;
            && backtest >= journal
            && (backtest == journal <==> e.reason != Sim.StopExit || mark == sim.stopPx)
  {
    hide *;
    NetGap(cfg, settings, sim, live, e, r, ts);
    ExitIsBeyond(cfg, sim, e, r, mark, ts);
    KeptShare(cfg.takerFeeBps, sim.terms.side);
    var keep := Keep(cfg.takerFeeBps, sim.terms.side);
    var gap := Sim.Booked(cfg, sim, e.px, ts, e.reason).netPnl - Pm.RowOf(settings, live, r).net;
    assert gap == Beyond(sim.terms.side, e.px, r.px) * sim.terms.qty * keep;
    ProductSign(Beyond(sim.terms.side, e.px, r.px), sim.terms.qty, keep);
  }

  /** By how much the backtest's exit price is better than the live one. */
  function Beyond(side: Side, simPx: real, livePx: real): real
  {
    if side == Long then simPx - livePx else livePx - simPx
  }

  /** What the taker rate leaves of a price difference. */
  function Keep(takerFeeBps: real, side: Side): real
  {
    if side == Long then 1.0 - takerFeeBps / BPS else 1.0 + takerFeeBps / BPS
  }

  lemma KeptShare(takerFeeBps: real, side: Side)
    requires 0.0 <= takerFeeBps < BPS
    ensures Keep(takerFeeBps, side) > 0.0
  {
  }

  lemma ExitIsBeyond(cfg: Sim.SimConfig, sim: Sim.Position, e: Sim.Exit, r: Pm.ExitRequest, mark: real, ts: Instant)
    requires Sim.ExitOf(cfg, sim, mark, ts) == Some(e) && SameExit(Some(e), Some(r), sim.stopPx, mark)
    ensures Beyond(sim.terms.side, e.px, r.px) >= 0.0
    ensures Beyond(sim.terms.side, e.px, r.px) == 0.0 <==> e.reason != Sim.StopExit || mark == sim.stopPx
  {
  }

  lemma ProductSign(x: real, q: real, k: real)
    requires x >= 0.0 && q > 0.0 && k > 0.0
    ensures x * q * k >= 0.0 && (x * q * k == 0.0 <==> x == 0.0)
  {
    if x > 0.0 {
      assert x * q > 0.0;
      assert (x * q) * k > 0.0;
    }
  }

  /** The whole comparison, books to books: after any marks, either both sides
      still hold the position in step, or both have booked it once, for the same
      reason at the same mark, the backtest never netting less. */
  lemma BooksAgree(cfg: Sim.SimConfig, settings: Pm.Settings, s: Sim.SimState, l: Pm.Live, coin: Coin,
                   ticks: seq<Tick>, targets: seq<Option<real>>)
    requires Sim.Tradeable(s) && Pm.KeyedByCoin(l) && coin in s.open && coin in l.book
    requires Mirrors(cfg, settings) && InStep(s.open[coin], l.book[coin])
    requires SameCosts(cfg, settings, s.open[coin], l.book[coin]) && cfg.slippageBps == 0.0
    requires 0.0 <= cfg.takerFeeBps < BPS && s.open[coin].terms.qty > 0.0
    requires |targets| == |ticks| && forall t <- ticks :: t.px > 0.0
    ensures var s', l' := SimAfter(cfg, s, coin, ticks), LiveAfter(settings, l, coin, ticks, targets);
            if coin in s'.open then
              && coin in l'.book && InStep(s'.open[coin], l'.book[coin])
              && s'.result.trades == s.result.trades && l'.journal == l.journal
            else
              && coin !in l'.book
              && |s'.result.trades| == |s.result.trades| + 1 && |l'.journal| == |l.journal| + 1
              && var trade, row := s'.result.trades[|s.result.trades|], l'.journal[|l.journal|];
              && SameReason(trade.reason, row.reason)
              && trade.netPnl >= row.net
              && (trade.reason != Sim.StopExit ==> trade.netPnl == row.net)
  {
    hide *;
    assert s.open[coin].terms.entryPx > 0.0 by { InStepIsPositive(s.open[coin], l.book[coin]); }
    EnginesInLockstep(cfg, settings, s.open[coin], l.book[coin], ticks, targets);
    SimBooksFollowFate(cfg, s, coin, ticks);
    LiveBooksFollowFate(settings, l, coin, ticks, targets);
    var sim, live := SimLife(cfg, s.open[coin], ticks), LiveLife(settings, l.book[coin], ticks, targets);
    match sim {
      case SimOpen(_) => OpenFatesMatch(sim, live, ticks);
      case SimClosed(at, q, e) =>
        ClosedFatesMatch(sim, live, ticks);
        ClosedIsDue(cfg, s.open[coin], ticks);
        LiveSizeIsFixed(settings, l.book[coin], ticks, targets);
        CostsCarryOver(cfg, settings, s.open[coin], l.book[coin], q, live.live);
        BacktestNeverReportsLess(cfg, settings, q, live.live, e, live.request, ticks[at].px, ticks[at].ts);
        ReasonsAreBooked(cfg, settings, q, live.live, e, live.request, q.stopPx, ticks[at].px, ticks[at].ts);
    }
  }

  lemma OpenFatesMatch(sim: SimFate, live: LiveFate, ticks: seq<Tick>)
    requires FatesMatch(sim, live, ticks) && sim.SimOpen?
    ensures live.LiveOpen? && InStep(sim.sim, live.live)
  {
  }

  lemma ClosedFatesMatch(sim: SimFate, live: LiveFate, ticks: seq<Tick>)
    requires FatesMatch(sim, live, ticks) && sim.SimClosed?
    ensures live.LiveClosed? && sim.at == live.at < |ticks| && InStep(sim.sim, live.live)
    ensures SameExit(Some(sim.exit), Some(live.request), sim.sim.stopPx, ticks[sim.at].px)
  {
  }

  lemma CostsCarryOver(cfg: Sim.SimConfig, settings: Pm.Settings, p: Sim.Position, l: Pm.Managed, q: Sim.Position, m: Pm.Managed)
    requires SameCosts(cfg, settings, p, l) && q.terms == p.terms && m.size == l.size
    ensures SameCosts(cfg, settings, q, m)
  {
  }

  lemma ReasonsAreBooked(cfg: Sim.SimConfig, settings: Pm.Settings, q: Sim.Position, m: Pm.Managed,
                         e: Sim.Exit, r: Pm.ExitRequest, stopPx: real, mark: real, ts: Instant)
    requires SameExit(Some(e), Some(r), stopPx, mark)
    ensures Sim.Booked(cfg, q, e.px, ts, e.reason).reason == e.reason && Pm.RowOf(settings, m, r).reason == r.reason
    ensures SameReason(e.reason, r.reason)
  {
  }

  lemma {:induction false} ClosedIsDue(cfg: Sim.SimConfig, p: Sim.Position, ticks: seq<Tick>)
    requires p.terms.entryPx != 0.0
    ensures match SimLife(cfg, p, ticks)
            case SimOpen(_) => true
            case SimClosed(at, q, e) => Sim.ExitOf(cfg, q, ticks[at].px, ticks[at].ts) == Some(e)
  {
    hide Sim.Advance, Sim.ExitOf;
    if ticks != [] { ClosedIsDue(cfg, p, ticks[..|ticks|-1]); }
  }

  lemma {:induction false} LiveSizeIsFixed(settings: Pm.Settings, p: Pm.Managed, ticks: seq<Tick>, targets: seq<Option<real>>)
    requires |targets| == |ticks|
    ensures LiveLife(settings, p, ticks, targets).live.size == p.size
  {
    hide Pm.ExitDecision;
    if ticks != [] { LiveSizeIsFixed(settings, p, ticks[..|ticks|-1], targets[..|ticks|-1]); }
  }

  // ------------------------------------------------------------- break-even

  /** One fee buffer beyond the entry. */
  function ArmedStopPx(cfg: Sim.SimConfig, t: Sim.Terms): real
  {
    if t.side == Long then t.entryPx * (1.0 + cfg.feeBufferPct) else t.entryPx * (1.0 - cfg.feeBufferPct)
  }

  /** Slippage, exit fee and entry fee do not exceed the fee buffer. */
  predicate BufferCoversCosts(cfg: Sim.SimConfig, side: Side, e: real)
  {
    var s, t, b := cfg.slippageBps / BPS, cfg.takerFeeBps / BPS, cfg.feeBufferPct;
    if side == Long then (1.0 + b) * (1.0 - s) * (1.0 - t) >= 1.0 + e
    else (1.0 - b) * (1.0 + s) * (1.0 + t) <= 1.0 - e
  }

  /** A stop taken after break-even armed keeps the trade net non-negative
      exactly when the fee buffer outweighs both fees and the slippage. */
  lemma ArmedStopBreaksEvenIff(cfg: Sim.SimConfig, p: Sim.Position, ts: Instant, e: real)
    requires WellPriced(p.terms, e) && p.terms.notional > 0.0
    requires p.stopPx == ArmedStopPx(cfg, p.terms)
    ensures Sim.Booked(cfg, p, p.stopPx, ts, Sim.StopExit).netPnl >= 0.0 <==> BufferCoversCosts(cfg, p.terms.side, e)
  {
    var s, t, b := cfg.slippageBps / BPS, cfg.takerFeeBps / BPS, cfg.feeBufferPct;
    BookedNet(cfg, p, p.stopPx, ts, Sim.StopExit, e);
    var r := p.stopPx / p.terms.entryPx;
    assert r == if p.terms.side == Long then 1.0 + b else 1.0 - b;
    var perUnit := if p.terms.side == Long then r * (1.0 - s) * (1.0 - t) - 1.0 - e else 1.0 - r * (1.0 + s) * (1.0 + t) - e;
    SignOfProduct(p.terms.notional, perUnit);
  }

  lemma SignOfProduct(n: real, x: real)
    requires n > 0.0
    ensures n * x >= 0.0 <==> x >= 0.0
  {
    if x >= 0.0 { assert n * x >= 0.0; } else { assert n * x < 0.0; }
  }

  /** A position opened with a non-negative stop distance has that very stop once armed. */
  lemma ArmedStop(cfg: Sim.SimConfig, p: Sim.Position, ticks: seq<Tick>)
    requires p.terms.entryPx > 0.0 && Triggered(cfg, p.terms, ticks) && cfg.feeBufferPct >= 0.0
    requires if p.terms.side == Long then p.stopPx <= p.terms.entryPx else p.stopPx >= p.terms.entryPx
    ensures FromHistory(cfg, p, ticks).stopPx == ArmedStopPx(cfg, p.terms)
  {
    assert p.terms.entryPx * cfg.feeBufferPct >= 0.0;
  }

  lemma OpenedStopIsBehindEntry(cfg: Sim.SimConfig, coin: Coin, side: Side, entryPx: real, ts: Instant, confidence: real)
    requires entryPx > 0.0 && cfg.stopLossPct >= 0.0
    ensures var p := Sim.Opened(cfg, coin, side, entryPx, ts, confidence);
            && p.peakPx == entryPx && !p.breakEvenArmed && p.terms.side == side && p.terms.entryPx == entryPx
            && if side == Long then p.stopPx <= entryPx else p.stopPx >= entryPx
  {
    assert entryPx * cfg.stopLossPct >= 0.0;
    assert entryPx * (1.0 - cfg.stopLossPct) == entryPx - entryPx * cfg.stopLossPct;
    assert entryPx * (1.0 + cfg.stopLossPct) == entryPx + entryPx * cfg.stopLossPct;
  }

  /** From entry to exit, over any marks: a position that is stopped out after
      break-even armed is booked without a loss exactly when the buffer covers
      the costs - a condition on the settings alone. */
  lemma ArmedLifeBreaksEvenIff(cfg: Sim.SimConfig, coin: Coin, side: Side, entryPx: real, ts: Instant,
                               confidence: real, ticks: seq<Tick>)
    requires entryPx > 0.0 && cfg.stopLossPct >= 0.0 && cfg.feeBufferPct >= 0.0
    requires Sim.Opened(cfg, coin, side, entryPx, ts, confidence).terms.notional > 0.0
    ensures var fate := SimLife(cfg, Sim.Opened(cfg, coin, side, entryPx, ts, confidence), ticks);
            fate.SimClosed? && fate.exit.reason == Sim.StopExit && fate.sim.breakEvenArmed ==>
              (Sim.Booked(cfg, fate.sim, fate.exit.px, ticks[fate.at].ts, Sim.StopExit).netPnl >= 0.0
               <==> BufferCoversCosts(cfg, side, EntryRate(cfg)))
  {
    var p := Sim.Opened(cfg, coin, side, entryPx, ts, confidence);
    OpenedStopIsBehindEntry(cfg, coin, side, entryPx, ts, confidence);
    OpenedIsWellPriced(cfg, coin, side, entryPx, ts, confidence);
    hide *;
    var fate := SimLife(cfg, p, ticks);
    if fate.SimClosed? && fate.exit.reason == Sim.StopExit && fate.sim.breakEvenArmed {
      StoppedOutAtArmedStop(cfg, p, ticks);
      ArmedStopBreaksEvenIff(cfg, fate.sim, ticks[fate.at].ts, EntryRate(cfg));
    }
  }

  lemma StoppedOutAtArmedStop(cfg: Sim.SimConfig, p: Sim.Position, ticks: seq<Tick>)
    requires p.terms.entryPx > 0.0 && p.peakPx == p.terms.entryPx && !p.breakEvenArmed && cfg.feeBufferPct >= 0.0
    requires if p.terms.side == Long then p.stopPx <= p.terms.entryPx else p.stopPx >= p.terms.entryPx
    requires var fate := SimLife(cfg, p, ticks);
             fate.SimClosed? && fate.exit.reason == Sim.StopExit && fate.sim.breakEvenArmed
    ensures var fate := SimLife(cfg, p, ticks);
            && fate.exit.px == fate.sim.stopPx
            && fate.sim.stopPx == ArmedStopPx(cfg, p.terms)
  {
    var fate := SimLife(cfg, p, ticks);
    ClosesAtFirstDueMark(cfg, p, ticks);
    var history := ticks[..fate.at + 1];
    assert Triggered(cfg, p.terms, history);
    hide SimLife, FromHistory, Triggered, DueAt, Sim.ExitOf;
    ArmedStop(cfg, p, history);
    StoppedAtItsStop(cfg, fate.sim, ticks[fate.at], fate.exit);
  }

  lemma StoppedAtItsStop(cfg: Sim.SimConfig, p: Sim.Position, tick: Tick, e: Sim.Exit)
    requires Some(e) == Sim.ExitOf(cfg, p, tick.px, tick.ts) && e.reason == Sim.StopExit
    ensures e.px == p.stopPx
  {
  }

  /** With the shipped fees and the break-even trigger switched on, the armed stop
      covers its costs after a maker entry but not after a taker entry. */
  lemma ShippedFeesBreakEvenOnlyForMakers(coin: Coin, ts: Instant)
    ensures var cfg := Sim.DEFAULT_CONFIG.(breakEvenTriggerPct := 0.002);
            var maker := Sim.Opened(cfg.(makerEntryEnabled := true), coin, Long, 100.0, ts, 0.0).(stopPx := 100.1, breakEvenArmed := true);
            var taker := Sim.Opened(cfg, coin, Long, 100.0, ts, 0.0).(stopPx := 100.1, breakEvenArmed := true);
            && Sim.Booked(cfg, maker, 100.1, ts, Sim.StopExit).netPnl > 0.0
            && Sim.Booked(cfg, taker, 100.1, ts, Sim.StopExit).netPnl < 0.0
  {
  }
}
