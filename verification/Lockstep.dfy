/** The claim in backtest/simulator.py that the sweep "measures the exit layer
    the live bot actually runs": the simulated and the live position engine move
    in lockstep over every sequence of marks. */
module Lockstep {
  import opened Prelude
  import Sim = Simulator
  import Pm = PositionManagement

  datatype Tick = Tick(px: real, ts: Instant)

  // ------------------------------------------------------------- correspondence

  /** Same exit layer on both sides: the simulator states the trigger as a
      fraction, the live settings as a percentage.  Fixed target, reversion
      target and min-hold have no counterpart and must be off. */
  predicate Mirrors(cfg: Sim.SimConfig, settings: Pm.Settings)
  {
    && settings.breakEvenTriggerPct == 100.0 * cfg.breakEvenTriggerPct
    && cfg.feeBufferPct == Pm.FEE_BUFFER_PCT
    && settings.trailingCallbackPct == cfg.trailingCallbackPct
    && settings.maxHoldSeconds == cfg.timeStopSeconds
    && cfg.takeProfitPct <= 0.0
    && !settings.reversionTpEnabled
    && settings.minHoldSeconds <= 0.0
  }

  predicate InStep(sim: Sim.Position, live: Pm.Managed)
  {
    && live.coin == sim.terms.coin
    && live.side == sim.terms.side
    && live.entryPx == sim.terms.entryPx > 0.0
    && live.openedAt == sim.terms.entryTs
    && live.stopPx == sim.stopPx
    && live.breakEvenArmed == sim.breakEvenArmed
    && live.peakPx == Some(sim.peakPx)
    && sim.peakPx > 0.0
  }

  predicate SameReason(sim: Sim.ExitReason, live: Pm.ExitReason)
  {
    match sim
    case StopExit => live == Pm.StopLoss
    case TrailingStopExit => live == Pm.TrailingStop
    case TimeStopExit => live == Pm.TimeStop
    case _ => false
  }

  /** Matching exits at one mark: same reason, the live side at the mark, the
      simulator at the mark except for a stop, which it books at the stop. */
  predicate SameExit(sim: Option<Sim.Exit>, live: Option<Pm.ExitRequest>, stopPx: real, mark: real)
  {
    && (sim.Some? <==> live.Some?)
    && (sim.Some? ==>
          && SameReason(sim.value.reason, live.value.reason)
          && live.value.px == mark
          && sim.value.px == (if sim.value.reason == Sim.StopExit then stopPx else mark))
  }

  /** The base of the lockstep: a pair opened together is in step exactly when
      both engines place the initial stop at the same distance. */
  lemma OpenedInStepIff(cfg: Sim.SimConfig, settings: Pm.Settings, atrPct: Option<real>, coin: Coin, side: Side,
                        entryPx: real, size: real, ts: Instant, confidence: real)
    requires entryPx > 0.0
    ensures var sim := Sim.Opened(cfg, coin, side, entryPx, ts, confidence);
            var live := Pm.Managed(coin, side, entryPx, size, Pm.InitialStop(settings, atrPct, entryPx, side),
                                   false, Some(entryPx), ts);
            && (InStep(sim, live) <==> sim.stopPx == live.stopPx)
            && (InStep(sim, live) <==> cfg.stopLossPct == Pm.StopDistance(settings, atrPct))
  {
    SameDistanceIff(entryPx, cfg.stopLossPct, Pm.StopDistance(settings, atrPct));
    hide Pm.StopDistance;
  }

  lemma SameDistanceIff(entryPx: real, x: real, y: real)
    requires entryPx > 0.0
    ensures entryPx * (1.0 - x) == entryPx * (1.0 - y) <==> x == y
    ensures entryPx * (1.0 + x) == entryPx * (1.0 + y) <==> x == y
  {
    if x != y {
      assert entryPx * (x - y) != 0.0;
      assert entryPx * (1.0 - x) == entryPx - entryPx * x && entryPx * (1.0 - y) == entryPx - entryPx * y;
      assert entryPx * (1.0 + x) == entryPx + entryPx * x && entryPx * (1.0 + y) == entryPx + entryPx * y;
      assert entryPx * (x - y) == entryPx * x - entryPx * y;
    }
  }

  lemma GainsAgree(side: Side, entry: real, mark: real, trigger: real)
    requires entry > 0.0
    ensures var gain := (mark - entry) / entry;
            (if side == Long then gain else -gain) >= trigger <==>
            (if side == Long then (mark - entry) / entry * 100.0 else (entry - mark) / entry * 100.0) >= 100.0 * trigger
  {
    assert (entry - mark) / entry == -((mark - entry) / entry);
  }

  lemma AdvanceInStep(cfg: Sim.SimConfig, settings: Pm.Settings, sim: Sim.Position, live: Pm.Managed, mark: real)
    requires Mirrors(cfg, settings) && InStep(sim, live) && mark > 0.0
    ensures InStep(Sim.Advance(cfg, sim, mark), Pm.Advanced(settings, live, mark))
  {
    GainsAgree(sim.terms.side, sim.terms.entryPx, mark, cfg.breakEvenTriggerPct);
  }

  lemma ExitInStep(cfg: Sim.SimConfig, settings: Pm.Settings, sim: Sim.Position, live: Pm.Managed,
                   mark: real, now: Instant, target: Option<real>)
    requires Mirrors(cfg, settings) && InStep(sim, live)
    ensures SameExit(Sim.ExitOf(cfg, sim, mark, now), Pm.ExitDecision(settings, live, mark, now, target), sim.stopPx, mark)
  {
  }

  // ------------------------------------------------------------- whole lives

  datatype SimFate = SimOpen(sim: Sim.Position) | SimClosed(at: nat, sim: Sim.Position, exit: Sim.Exit)

  datatype LiveFate = LiveOpen(live: Pm.Managed) | LiveClosed(at: nat, live: Pm.Managed, request: Pm.ExitRequest)

  function SimLife(cfg: Sim.SimConfig, p: Sim.Position, ticks: seq<Tick>): (fate: SimFate)
    requires p.terms.entryPx != 0.0
    ensures fate.sim.terms == p.terms && (fate.SimClosed? ==> fate.at < |ticks|)
  {
    if ticks == [] then SimOpen(p) else
      var n := |ticks| - 1;
      match SimLife(cfg, p, ticks[..n])
      case SimClosed(at, q, e) => SimClosed(at, q, e)
      case SimOpen(q) =>
        var r := Sim.Advance(cfg, q, ticks[n].px);
        match Sim.ExitOf(cfg, r, ticks[n].px, ticks[n].ts)
        case None => SimOpen(r)
        case Some(e) => SimClosed(n, r, e)
  }

  /** `targets[k]` is the reversion mean at mark k; it plays no part when the
      reversion exit is off. */
  function LiveLife(settings: Pm.Settings, p: Pm.Managed, ticks: seq<Tick>, targets: seq<Option<real>>): (fate: LiveFate)
    requires |targets| == |ticks|
    ensures fate.live.coin == p.coin && (fate.LiveClosed? ==> fate.at < |ticks|)
  {
    if ticks == [] then LiveOpen(p) else
      var n := |ticks| - 1;
      match LiveLife(settings, p, ticks[..n], targets[..n])
      case LiveClosed(at, q, e) => LiveClosed(at, q, e)
      case LiveOpen(q) =>
        var r := Pm.Advanced(settings, q, ticks[n].px);
        match Pm.ExitDecision(settings, r, ticks[n].px, ticks[n].ts, targets[n])
        case None => LiveOpen(r)
        case Some(e) => LiveClosed(n, r, e)
  }

  predicate FatesMatch(sim: SimFate, live: LiveFate, ticks: seq<Tick>)
  {
    match (sim, live)
    case (SimOpen(p), LiveOpen(q)) => InStep(p, q)
    case (SimClosed(i, p, e), LiveClosed(j, q, r)) =>
      i == j < |ticks| && InStep(p, q) && SameExit(Some(e), Some(r), p.stopPx, ticks[i].px)
    case _ => false
  }

  /** On every mark sequence the two engines keep equal peak, stop and armed
      flag, and close at the same mark for the same reason, or both stay open. */
  lemma {:induction false} EnginesInLockstep(
    cfg: Sim.SimConfig, settings: Pm.Settings, sim: Sim.Position, live: Pm.Managed,
    ticks: seq<Tick>, targets: seq<Option<real>>)
    requires Mirrors(cfg, settings) && InStep(sim, live) && |targets| == |ticks|
    requires forall t <- ticks :: t.px > 0.0
    ensures FatesMatch(SimLife(cfg, sim, ticks), LiveLife(settings, live, ticks, targets), ticks)
  {
    hide Mirrors, InStep, Sim.Advance, Sim.ExitOf, Pm.Advanced, Pm.ExitDecision;
    assert sim.terms.entryPx > 0.0 by { InStepIsPositive(sim, live); }
    if ticks != [] {
      var n := |ticks| - 1;
      EnginesInLockstep(cfg, settings, sim, live, ticks[..n], targets[..n]);
      match (SimLife(cfg, sim, ticks[..n]), LiveLife(settings, live, ticks[..n], targets[..n]))
      case (SimOpen(p), LiveOpen(q)) =>
        InStepIsPositive(p, q);
        AdvanceInStep(cfg, settings, p, q, ticks[n].px);
        ExitInStep(cfg, settings, Sim.Advance(cfg, p, ticks[n].px), Pm.Advanced(settings, q, ticks[n].px),
                   ticks[n].px, ticks[n].ts, targets[n]);
      case _ =>
    }
  }

  lemma InStepIsPositive(sim: Sim.Position, live: Pm.Managed)
    requires InStep(sim, live)
    ensures sim.terms.entryPx > 0.0
  {
  }

  // ------------------------------------------------------------- against history

  /** The best price of the entry and the marks so far. */
  function BestOf(side: Side, entry: real, ticks: seq<Tick>): real
  {
    if ticks == [] then entry else
      var best := BestOf(side, entry, ticks[..|ticks|-1]);
      if side == Long then RMax(best, ticks[|ticks|-1].px) else RMin(best, ticks[|ticks|-1].px)
  }

  /** Some mark so far gained at least the break-even trigger. */
  predicate Triggered(cfg: Sim.SimConfig, t: Sim.Terms, ticks: seq<Tick>)
    requires t.entryPx != 0.0
  {
    cfg.breakEvenTriggerPct > 0.0 &&
    exists k | 0 <= k < |ticks| :: Gain(t, ticks[k].px) >= cfg.breakEvenTriggerPct
  }

  function Gain(t: Sim.Terms, px: real): real
    requires t.entryPx != 0.0
  {
    var gain := (px - t.entryPx) / t.entryPx;
    if t.side == Long then gain else -gain
  }

  function BreakEvenStop(cfg: Sim.SimConfig, p: Sim.Position): real
  {
    if p.terms.side == Long then RMax(p.stopPx, p.terms.entryPx * (1.0 + cfg.feeBufferPct))
    else RMin(p.stopPx, p.terms.entryPx * (1.0 - cfg.feeBufferPct))
  }

  /** The position as a function of the whole mark history since entry. */
  function FromHistory(cfg: Sim.SimConfig, p: Sim.Position, ticks: seq<Tick>): Sim.Position
    requires p.terms.entryPx != 0.0
  {
    var armed := Triggered(cfg, p.terms, ticks);
    Sim.Position(p.terms, if armed then BreakEvenStop(cfg, p) else p.stopPx, BestOf(p.terms.side, p.terms.entryPx, ticks), armed)
  }

  /** An exit is due at mark k, judged on the history up to and including it. */
  predicate DueAt(cfg: Sim.SimConfig, p: Sim.Position, ticks: seq<Tick>, k: nat)
    requires k < |ticks| && p.terms.entryPx != 0.0
  {
    Sim.ExitOf(cfg, FromHistory(cfg, p, ticks[..k+1]), ticks[k].px, ticks[k].ts).Some?
  }

  lemma {:induction false} HistoryStep(cfg: Sim.SimConfig, p: Sim.Position, ticks: seq<Tick>)
    requires ticks != [] && p.terms.entryPx != 0.0
    requires p.peakPx == p.terms.entryPx && !p.breakEvenArmed
    ensures Sim.Advance(cfg, FromHistory(cfg, p, ticks[..|ticks|-1]), ticks[|ticks|-1].px) == FromHistory(cfg, p, ticks)
  {
    var n := |ticks| - 1;
    var init := ticks[..n];
    if Triggered(cfg, p.terms, init) {
      var k :| 0 <= k < n && Gain(p.terms, init[k].px) >= cfg.breakEvenTriggerPct;
      assert Gain(p.terms, ticks[k].px) >= cfg.breakEvenTriggerPct;
    } else if cfg.breakEvenTriggerPct > 0.0 {
      assert Triggered(cfg, p.terms, ticks) <==> Gain(p.terms, ticks[n].px) >= cfg.breakEvenTriggerPct by {
        forall k | 0 <= k < n ensures Gain(p.terms, ticks[k].px) < cfg.breakEvenTriggerPct {
          assert init[k] == ticks[k];
        }
      }
    }
  }

  /** A fresh position lives exactly until the first mark at which its whole
      history makes an exit due, and is then what its history says. */
  lemma {:induction false} ClosesAtFirstDueMark(cfg: Sim.SimConfig, p: Sim.Position, ticks: seq<Tick>)
    requires p.terms.entryPx != 0.0 && p.peakPx == p.terms.entryPx && !p.breakEvenArmed
    ensures match SimLife(cfg, p, ticks)
            case SimOpen(q) => q == FromHistory(cfg, p, ticks) && forall k: nat | k < |ticks| :: !DueAt(cfg, p, ticks, k)
            case SimClosed(at, q, e) =>
              && at < |ticks| && q == FromHistory(cfg, p, ticks[..at+1])
              && Some(e) == Sim.ExitOf(cfg, q, ticks[at].px, ticks[at].ts)
              && DueAt(cfg, p, ticks, at) && forall k: nat | k < at :: !DueAt(cfg, p, ticks, k)
  {
    hide Sim.Advance, Sim.ExitOf, FromHistory;
    if ticks == [] {
      NoHistory(cfg, p);
    } else {
      var n := |ticks| - 1;
      var init := ticks[..n];
      ClosesAtFirstDueMark(cfg, p, init);
      forall k: nat | k < n ensures DueAt(cfg, p, init, k) == DueAt(cfg, p, ticks, k) {
        assert init[..k+1] == ticks[..k+1];
      }
      match SimLife(cfg, p, init)
      case SimOpen(_) =>
        HistoryStep(cfg, p, ticks);
        HistoryTerms(cfg, p, init);
        assert ticks[..n+1] == ticks;
      case SimClosed(at, _, _) =>
        assert init[..at+1] == ticks[..at+1];
    }
  }

  lemma NoHistory(cfg: Sim.SimConfig, p: Sim.Position)
    requires p.terms.entryPx != 0.0 && p.peakPx == p.terms.entryPx && !p.breakEvenArmed
    ensures FromHistory(cfg, p, []) == p
  {
  }

  lemma HistoryTerms(cfg: Sim.SimConfig, p: Sim.Position, ticks: seq<Tick>)
    requires p.terms.entryPx != 0.0
    ensures FromHistory(cfg, p, ticks).terms == p.terms
  {
  }

  // ------------------------------------------------------------- on the books

  /** The simulator's books after the price part of each tick of one coin. */
  function SimAfter(cfg: Sim.SimConfig, s: Sim.SimState, coin: Coin, ticks: seq<Tick>): (t: Sim.SimState)
    requires Sim.Tradeable(s)
    ensures Sim.Tradeable(t)
  {
    if ticks == [] then s else
      var n := |ticks| - 1;
      Sim.AfterExits(cfg, SimAfter(cfg, s, coin, ticks[..n]), coin, ticks[n].px, ticks[n].ts)
  }

  /** The live books after the same ticks, every exit order accepted. */
  function LiveAfter(settings: Pm.Settings, s: Pm.Live, coin: Coin, ticks: seq<Tick>, targets: seq<Option<real>>): (t: Pm.Live)
    requires Pm.KeyedByCoin(s) && |targets| == |ticks|
    ensures Pm.KeyedByCoin(t)
  {
    if ticks == [] then s else
      var n := |ticks| - 1;
      var t := LiveAfter(settings, s, coin, ticks[..n], targets[..n]);
      LiveMarkKeepsKeys(settings, t, coin, ticks[n].px, ticks[n].ts, targets[n]);
      Pm.AfterMark(settings, t, coin, ticks[n].px, ticks[n].ts, targets[n], Pm.Accepted)
  }

  lemma LiveMarkKeepsKeys(settings: Pm.Settings, s: Pm.Live, coin: Coin, mark: real, now: Instant, target: Option<real>)
    requires Pm.KeyedByCoin(s)
    ensures Pm.KeyedByCoin(Pm.AfterMark(settings, s, coin, mark, now, target, Pm.Accepted))
  {
    hide Pm.ExitDecision, Pm.RowOf;
  }

  lemma LiveMarkBooks(settings: Pm.Settings, s: Pm.Live, coin: Coin, mark: real, now: Instant, target: Option<real>)
    requires Pm.KeyedByCoin(s)
    ensures var t := Pm.AfterMark(settings, s, coin, mark, now, target, Pm.Accepted);
            if coin !in s.book then t == s else
              var q := Pm.Advanced(settings, s.book[coin], mark);
              match Pm.ExitDecision(settings, q, mark, now, target)
              case None => t.book == s.book[coin := q] && t.journal == s.journal
              case Some(e) => t.book == s.book - {coin} && t.journal == s.journal + [Pm.RowOf(settings, q, e)]
  {
    hide Pm.WithPeak, Pm.WithBreakEven, Pm.ExitDecision, Pm.RowOf, Pm.AfterPeak, Pm.AfterBreakEven;
  }

  /** The simulator's books carry exactly the fate of the position. */
  lemma {:induction false} SimBooksFollowFate(cfg: Sim.SimConfig, s: Sim.SimState, coin: Coin, ticks: seq<Tick>)
    requires Sim.Tradeable(s) && coin in s.open
    ensures s.open[coin].terms.entryPx != 0.0
    ensures var t := SimAfter(cfg, s, coin, ticks);
            match SimLife(cfg, s.open[coin], ticks)
            case SimOpen(q) => t.open == s.open[coin := q] && t.result.trades == s.result.trades
            case SimClosed(at, q, e) =>
              && t.open == s.open - {coin}
              && t.result.trades == s.result.trades + [Sim.Booked(cfg, q, e.px, ticks[at].ts, e.reason)]
  {
    hide Sim.Advance, Sim.ExitOf, Sim.Booked;
    Sim.OpenEntryIsPositive(s, coin);
    if ticks != [] {
      SimBooksFollowFate(cfg, s, coin, ticks[..|ticks|-1]);
    }
  }

  lemma {:induction false} LiveBooksFollowFate(
    settings: Pm.Settings, s: Pm.Live, coin: Coin, ticks: seq<Tick>, targets: seq<Option<real>>)
    requires Pm.KeyedByCoin(s) && coin in s.book && |targets| == |ticks|
    ensures var t := LiveAfter(settings, s, coin, ticks, targets);
            match LiveLife(settings, s.book[coin], ticks, targets)
            case LiveOpen(q) => t.book == s.book[coin := q] && t.journal == s.journal
            case LiveClosed(at, q, r) =>
              && t.book == s.book - {coin}
              && t.journal == s.journal + [Pm.RowOf(settings, q, r)]
  {
    hide Pm.Advanced, Pm.ExitDecision, Pm.RowOf, Pm.AfterMark;
    if ticks != [] {
      var n := |ticks| - 1;
      LiveBooksFollowFate(settings, s, coin, ticks[..n], targets[..n]);
      var t := LiveAfter(settings, s, coin, ticks[..n], targets[..n]);
      LiveMarkBooks(settings, t, coin, ticks[n].px, ticks[n].ts, targets[n]);
    }
  }
}
