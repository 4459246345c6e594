/** src/strategy/dvsla.py as objects: one bundle of trackers per coin, created on
    the coin's first event and fed in place; the optional breadth tracker is one
    object for all coins. */
module DvslaObjects {
  import opened Prelude
  import opened RollingStatistics
  import opened FlowImbalance
  import opened VolumeBars
  import opened OiZScore
  import opened Dvsla
  import MarketBreadth

  class SymbolState {
    const aggregator: VolumeBarAggregator
    const flow: FlowImbalanceTracker
    const stats: RollingStats
    const oiZ: OIZScoreTracker
    var barRets: seq<real>
    var barCount: nat
    var lastSignalBar: Option<nat>
    var markPx: Option<real>
    var oraclePx: Option<real>
    var lastOiZ: real

    ghost function Repr(): set<object>
    {
      {this, aggregator, flow, stats, oiZ, oiZ.stats}
    }

    /** The state the engine's value-level steps speak of. */
    ghost function View(): SymState
      reads Repr()
    {
      SymState(aggregator.acc, flow.history, stats.history, oiZ.State(), barRets,
               barCount, lastSignalBar, markPx, oraclePx, lastOiZ)
    }

    ghost predicate Valid(params: Params, coin: Coin)
      reads Repr()
    {
      && aggregator.Valid() && aggregator.threshold == params.thresholdFor(coin)
      && flow.Valid() && flow.window == params.flowWindow
      && stats.Valid() && stats.window == params.retZWindow
      && oiZ.Valid() && oiZ.params == params.Oi() && oiZ.root == params.root
      && stats != oiZ.stats
      && Partial(aggregator.threshold, aggregator.acc)
    }

    constructor (params: Params, coin: Coin)
      requires params.Declared()
      ensures Valid(params, coin) && fresh(Repr()) && View() == FRESH
    {
      aggregator := new VolumeBarAggregator(params.thresholdFor(coin));
      flow := new FlowImbalanceTracker(params.flowWindow);
      stats := new RollingStats(params.retZWindow);
      oiZ := new OIZScoreTracker(params.oiZWindow, true, OI_Z_CLAMP, params.root);
      barRets, barCount, lastSignalBar, markPx, oraclePx, lastOiZ := [], 0, None, None, None, 0.0;
    }

    /** A trade reaches the flow window, the mark if there is none yet, and the
        bar in progress. */
    method Feed(params: Params, coin: Coin, px: real, sz: real, side: TradeSide, now: Instant) returns (bars: seq<Bar>)
      requires params.Declared() && Valid(params, coin)
      modifies Repr()
      ensures Valid(params, coin)
      ensures var t, s := VolumeBars.Trade(px, sz, side, now), old(View());
              (bars, View()) ==
                var (done, acc) := if sz <= 0.0 then ([], s.acc) else Absorb(params.thresholdFor(coin), s.acc, t, sz);
                (done, s.(flows := s.flows + [Flow(side, sz)], acc := acc,
                          markPx := if s.markPx.None? then Some(px) else s.markPx))
    {
      hide RollingStats.Valid, FlowImbalanceTracker.Valid, OIZScoreTracker.Valid, VolumeBarAggregator.Valid;
      hide Absorb, OiStep, OiRun;
      flow.Update(side, sz);
      if markPx.None? { markPx := Some(px); }
      bars := aggregator.Update(px, sz, side, now);
    }

    /** Score the bar's return against the window before it, then count the bar. */
    method CountBar(params: Params, coin: Coin, ret: real) returns (retZ: real)
      requires params.Declared() && Valid(params, coin)
      modifies this`barRets, this`barCount, stats
      ensures Valid(params, coin)
      ensures retZ == RetZ(params, old(View()), ret) && View() == Counted(params, old(View()), ret)
    {
      hide ZScore, RollingStats.Valid, FlowImbalanceTracker.Valid, VolumeBarAggregator.Valid, OIZScoreTracker.Valid;
      stats.HoldsLastValues();
      retZ := if |stats.values| >= 2 then stats.Score(params.root, ret) else 0.0;
      retZ := Clamp(-params.retZClamp, params.retZClamp, retZ);
      stats.Update(ret);
      barRets := Pushed(barRets, ret, params.hurstWindow);
      barCount := barCount + 1;
    }

    /** Every gate up to the breadth guard, in the order the engine asks them. */
    method ConfirmCascade(params: Params, coin: Coin, ret: real, retZ: real) returns (direction: Option<MarketBreadth.Direction>)
      requires params.Declared() && Valid(params, coin)
      ensures direction == Cascade(params, View(), ret, retZ)
    {
      hide RollingStats.Valid, VolumeBarAggregator.Valid, OIZScoreTracker.Valid;
      if barCount < params.warmupBars { return None; }
      if lastSignalBar.Some? && barCount - lastSignalBar.value < params.cooldownBars { return None; }
      if RAbs(ret) < params.retMinAbsPct { return None; }
      if params.retZReject > 0.0 && RAbs(retZ) >= params.retZReject { return None; }
      direction := ClassifyCascade(params, retZ);
      if direction.None? { return; }
      var imbalance := flow.Imbalance();
      if direction.value == MarketBreadth.Down && imbalance > -params.flowImbalanceMin { return None; }
      if direction.value == MarketBreadth.Up && imbalance < params.flowImbalanceMin { return None; }
      if params.fadeOiZVeto && !params.invert && lastOiZ >= RAbs(params.oiZDrop) { return None; }
    }

    /** The regime on the lead-up to the bar just counted. */
    method Regime(params: Params) returns (hurst: Option<real>)
      ensures hurst == MeanReverting(params, View())
    {
      if barRets == [] { return None; }
      var rets := barRets[..|barRets| - 1];
      if |rets| < MIN_HURST_RETURNS { return None; }
      var estimate := params.hurst(rets);
      hurst := if estimate < params.hurstMax then Some(estimate) else None;
    }
  }

  ghost predicate Within(symbols: map<Coin, SymbolState>, owned: set<object>)
  {
    forall c <- symbols :: symbols[c].Repr() <= owned
  }

  ghost predicate Apart(symbols: map<Coin, SymbolState>)
  {
    forall c, d | c in symbols && d in symbols && c != d :: symbols[c].Repr() !! symbols[d].Repr()
  }

  lemma ApartExtends(symbols: map<Coin, SymbolState>, owned: set<object>, coin: Coin, state: SymbolState)
    requires Within(symbols, owned) && Apart(symbols) && coin !in symbols && state.Repr() !! owned
    ensures Within(symbols[coin := state], owned + state.Repr()) && Apart(symbols[coin := state])
  {
    hide SymbolState.Repr;
  }

  lemma RunAppends(params: Params, e: Engine, events: seq<Event>, event: Event)
    requires Sound(params, e)
    ensures Run(params, e, events + [event]) == Step(params, Run(params, e, events), event)
  {
    assert (events + [event])[..|events|] == events;
  }

  /** An engine that has seen nothing yet. */
  function Idle(breadth: Option<Breadth>): Engine
  {
    Engine(map[], breadth, [])
  }

  class DvslaStrategy {
    const params: Params
    const guard: MarketBreadth.MarketBreadthTracker?
    var symbols: map<Coin, SymbolState>
    var emitted: seq<Emitted>              // what the signal callback received
    ghost var book: map<Coin, SymState>

    ghost var owned: set<object>           // the trackers of every coin
    ghost var heard: seq<Event>            // every event so far
    ghost const start: Option<Breadth>     // the breadth tracker as handed over

    /** Each coin has its own trackers, and they hold what `book` says. */
    ghost predicate Valid()
      reads `symbols, `emitted, `book, `owned, owned, guard
    {
      && Sound(params, View()) && symbols.Keys == book.Keys
      && this !in owned && (guard != null ==> guard !in owned && guard.Valid())
      && Within(symbols, owned) && Apart(symbols)
      && forall c <- symbols :: Tracks(c)
    }

    ghost function BreadthView(): Option<Breadth>
      reads guard
    {
      if guard == null then None else Some(Breadth(guard.window, guard.maxSameSide, guard.marks))
    }

    ghost predicate Tracks(c: Coin)
      requires c in symbols && symbols[c].Repr() <= owned
      reads `symbols, `book, `owned, owned
    {
      symbols[c].Valid(params, c) && c in book && symbols[c].View() == book[c]
    }

    /** The object is where the engine's run over everything heard ends, so what
        is proved of runs holds of it. */
    ghost predicate FollowsTheStream()
      reads this, guard
    {
      params.Declared() && View() == Run(params, Idle(start), heard)
    }

    ghost function View(): Engine
      reads `book, `emitted, guard
    {
      Engine(book, BreadthView(), emitted)
    }

    constructor (params: Params, guard: MarketBreadth.MarketBreadthTracker?)
      requires params.Declared() && (guard != null ==> guard.Valid())
      ensures Valid() && this.params == params && this.guard == guard && owned == {} && heard == []
      ensures start == BreadthView() && View() == Idle(start) && FollowsTheStream()
    {
      this.params, this.guard, symbols, emitted, book, owned, heard := params, guard, map[], [], map[], {}, [];
      start := if guard == null then None else Some(Breadth(guard.window, guard.maxSameSide, guard.marks));
    }

    /** The cascade reaches the breadth tracker whatever comes of it. */
    method Record(coin: Coin, direction: MarketBreadth.Direction, now: Instant)
      requires guard != null ==> guard.Valid()
      modifies guard
      ensures (guard != null ==> guard.Valid()) && BreadthView() == Recorded(old(BreadthView()), coin, direction, now)
    {
      if guard != null { guard.Record(coin, direction, now); }
    }

    /** Whether the market moves along; asking prunes again at the same instant. */
    method InStepWithMarket(coin: Coin, direction: MarketBreadth.Direction, now: Instant, ghost before: Option<Breadth>)
      returns (synchronized: bool)
      requires guard != null ==> guard.Valid()
      requires BreadthView() == Recorded(before, coin, direction, now)
      modifies guard
      ensures (guard != null ==> guard.Valid()) && BreadthView() == old(BreadthView())
      ensures synchronized <==> Synchronized(BreadthView(), coin, direction)
    {
      if guard == null { return false; }
      MarketBreadth.PrunedTwice(before.value.marks + [MarketBreadth.Move(coin, direction, now)], now - guard.window);
      synchronized := guard.IsSynchronized(direction, now, Some(coin));
    }

    /** Trade against the cascade, or with it when inverted, at the mark. */
    method Emit(coin: Coin, state: SymbolState, bar: Bar, direction: MarketBreadth.Direction,
                retZ: real, hurst: real, now: Instant) returns (signal: TradeSignal)
      requires params.Declared() && state.Valid(params, coin)
      modifies this`emitted, state`lastSignalBar
      ensures state.Valid(params, coin)
      ensures state.View() == old(state.View()).(lastSignalBar := Some(old(state.barCount)))
      ensures emitted == old(emitted) + [Emitted(old(state.barCount), signal)]
      ensures signal.coin == coin && signal.timestamp == now
      ensures signal.side == if (direction == MarketBreadth.Down) != params.invert then Long else Short
      ensures signal.entryMarkPrice == if old(state.markPx).Some? then old(state.markPx).value else bar.closePx
      ensures signal.confidence == Confidence(params, retZ, Imbalance(params, old(state.View())), old(state.lastOiZ), hurst)
    {
      hide Confidence, ImbalanceOf, RollingStats.Valid, VolumeBarAggregator.Valid, OIZScoreTracker.Valid;
      var fade := if direction == MarketBreadth.Down then Long else Short;
      var side := fade;
      if params.invert { side := if fade == Long then Short else Long; }
      var entry := if state.markPx.Some? then state.markPx.value else bar.closePx;
      var confidence := Confidence(params, retZ, state.flow.Imbalance(), state.lastOiZ, hurst);
      state.lastSignalBar := Some(state.barCount);
      signal := TradeSignal(coin, side, entry, confidence, now);
      emitted := emitted + [Emitted(state.barCount, signal)];
    }

    /** Score the bar, count it, and fire if every gate agrees. */
    method OnBarClose(coin: Coin, state: SymbolState, bar: Bar, now: Instant) returns (produced: Option<TradeSignal>)
      requires params.Declared() && state.Valid(params, coin) && (guard != null ==> guard.Valid())
      modifies this`emitted, state`barRets, state`barCount, state`lastSignalBar, state.stats, guard
      ensures state.Valid(params, coin) && (guard != null ==> guard.Valid())
      ensures var r := Dvsla.OnBarClose(params, coin, old(state.View()), old(BreadthView()), bar, now);
              && state.View() == r.s && BreadthView() == r.breadth && emitted == old(emitted) + r.emitted
              && produced == if r.emitted == [] then None else Some(r.emitted[|r.emitted| - 1].signal)
    {
      hide RollingStats.Valid, FlowImbalanceTracker.Valid, VolumeBarAggregator.Valid, OIZScoreTracker.Valid;
      hide RetZ, Cascade, MeanReverting, Confidence, Imbalance, Recorded, Synchronized, MarketBreadth.MarketBreadthTracker.Valid;
      var ret := bar.Ret();
      var retZ := state.CountBar(params, coin, ret);
      var direction := state.ConfirmCascade(params, coin, ret, retZ);
      if direction.None? { return None; }
      ghost var before := BreadthView();
      Record(coin, direction.value, now);
      var hurst := state.Regime(params);
      if hurst.None? { return None; }
      var synchronized := InStepWithMarket(coin, direction.value, now, before);
      if synchronized { return None; }
      var signal := Emit(coin, state, bar, direction.value, retZ, hurst.value, now);
      produced := Some(signal);
    }

    /** Feed one trade to the trackers, then close every bar it completed. */
    method OnTrade(coin: Coin, state: SymbolState, px: real, sz: real, side: TradeSide, now: Instant)
      returns (signal: Option<TradeSignal>)
      requires params.Declared() && state.Valid(params, coin) && (guard != null ==> guard.Valid())
      modifies this`emitted, state.Repr(), guard
      ensures state.Valid(params, coin) && (guard != null ==> guard.Valid())
      ensures var r := Dvsla.OnTrade(params, coin, old(state.View()), old(BreadthView()), VolumeBars.Trade(px, sz, side, now));
              && state.View() == r.s && BreadthView() == r.breadth && emitted == old(emitted) + r.emitted
              && signal == if r.emitted == [] then None else Some(r.emitted[|r.emitted| - 1].signal)
    {
      hide SymbolState.Valid, SymbolState.View, Dvsla.OnBarClose, Absorb, MarketBreadth.MarketBreadthTracker.Valid;
      ghost var before, breadth := emitted, BreadthView();
      var bars := state.Feed(params, coin, px, sz, side, now);
      ghost var fed := state.View();
      signal := None;
      for i := 0 to |bars|
        invariant state.Valid(params, coin) && (guard != null ==> guard.Valid())
        invariant var r := OnBars(params, coin, fed, breadth, bars[..i], now);
                  && BreadthView() == r.breadth && state.View() == r.s && emitted == before + r.emitted
                  && signal == if r.emitted == [] then None else Some(r.emitted[|r.emitted| - 1].signal)
      {
        assert bars[..i + 1][..i] == bars[..i];
        ghost var soFar := OnBars(params, coin, fed, breadth, bars[..i], now);
        ghost var last := Dvsla.OnBarClose(params, coin, soFar.s, soFar.breadth, bars[i], now);
        var produced := OnBarClose(coin, state, bars[i], now);
        assert (before + soFar.emitted) + last.emitted == before + (soFar.emitted + last.emitted);
        if produced.Some? { signal := produced; }
      }
      assert bars[..|bars|] == bars;
    }

    /** The coin's bundle, created on first sight. */
    method StateFor(coin: Coin) returns (state: SymbolState)
      requires Valid()
      modifies this`symbols, this`book, this`owned
      ensures Valid() && coin in symbols && state == symbols[coin]
      ensures book == if coin in old(book) then old(book) else old(book)[coin := FRESH]
      ensures fresh(owned - old(owned))
    {
      if coin !in symbols {
        hide SymbolState.View, SymbolState.Repr, Apart, Within, Sound;
        state := new SymbolState(params, coin);
        Adopt(coin, state);
      }
      state := symbols[coin];
    }

    method Adopt(coin: Coin, state: SymbolState)
      requires Valid() && coin !in symbols && state.Valid(params, coin) && state.View() == FRESH
      requires state.Repr() !! owned + {this} && (guard != null ==> guard !in state.Repr())
      modifies this`symbols, this`book, this`owned
      ensures Valid() && symbols == old(symbols)[coin := state] && book == old(book)[coin := FRESH]
      ensures owned == old(owned) + state.Repr()
    {
      hide SymbolState.Valid, SymbolState.View, SymbolState.Repr;
      ApartExtends(symbols, owned, coin, state);
      hide Apart;
      symbols, book, owned := symbols[coin := state], book[coin := FRESH], owned + state.Repr();
      forall c <- symbols ensures symbols[c].Repr() <= owned && Tracks(c) {
        if c != coin { assert old(Tracks(c)); }
      }
    }

    /** A context update moves the mark and the open-interest score; a trade goes
        through the bars; anything else is ignored. */
    method Dispatch(coin: Coin, state: SymbolState, payload: Dvsla.Payload, now: Instant) returns (signal: Option<TradeSignal>)
      requires params.Declared() && state.Valid(params, coin) && (guard != null ==> guard.Valid())
      modifies this`emitted, state.Repr(), guard
      ensures state.Valid(params, coin) && (guard != null ==> guard.Valid())
      ensures var r := OnEvent(params, coin, old(state.View()), old(BreadthView()), payload, now);
              && state.View() == r.s && BreadthView() == r.breadth && emitted == old(emitted) + r.emitted
              && signal == if r.emitted == [] then None else Some(r.emitted[|r.emitted| - 1].signal)
    {
      hide RollingStats.Valid, FlowImbalanceTracker.Valid, OIZScoreTracker.Valid, VolumeBarAggregator.Valid;
      hide OiStep, OiRun, OnBars, Absorb;
      signal := None;
      if payload.AssetCtx? {
        state.markPx, state.oraclePx := Some(payload.markPx), payload.oraclePx;
        state.lastOiZ := state.oiZ.Update(payload.openInterest);
      } else if payload.Trade? {
        signal := OnTrade(coin, state, payload.px, payload.sz, payload.side, now);
      }
    }

    /** One market event: the engine's step, and the last signal it produced. */
    method OnMarketEvent(event: Event) returns (signal: Option<TradeSignal>)
      requires Valid() && FollowsTheStream()
      modifies this, owned, guard
      ensures Valid() && View() == Step(params, old(View()), event)
      ensures FollowsTheStream() && heard == old(heard) + [event]
      ensures fresh(owned - old(owned)) && old(emitted) <= emitted
      ensures signal == if emitted == old(emitted) then None else Some(emitted[|emitted| - 1].signal)
    {
      hide Run, Valid, Step, Sound, BreadthView, Idle;
      StartsSound(event);
      RunAppends(params, Idle(start), heard, event);
      signal := None;
      ghost var all := heard + [event];
      if event.coin.Some? { signal := Feed(event.coin.value, event); }
      heard := all;
    }

    /** What a step needs of the state; an event without a coin changes nothing. */
    lemma StartsSound(event: Event)
      requires Valid() && FollowsTheStream()
      ensures this !in owned && (guard != null ==> guard !in owned)
      ensures params.Declared() && Sound(params, Idle(start)) && Sound(params, View())
      ensures event.coin.None? ==> Step(params, View(), event) == View()
    {
    }

    method Feed(coin: Coin, event: Event) returns (signal: Option<TradeSignal>)
      requires Valid() && event.coin == Some(coin)
      modifies this`symbols, this`book, this`owned, this`emitted, owned, guard
      ensures Valid() && View() == Step(params, old(View()), event)
      ensures fresh(owned - old(owned)) && old(emitted) <= emitted
      ensures signal == if emitted == old(emitted) then None else Some(emitted[|emitted| - 1].signal)
    {
      hide SymbolState.Valid, SymbolState.View, OnEvent, SymbolState.Repr, Settled, Run, BreadthView, Tracks, Within, Apart;
      hide MarketBreadth.MarketBreadthTracker.Valid;
      var state := StateFor(coin);
      assert StateOf(old(View()), coin) == book[coin];
      signal := Serve(coin, event);
      assert View() == Step(params, old(View()), event);
    }

    /** The step of a coin that has its trackers; no other coin's are touched. */
    method Serve(coin: Coin, event: Event) returns (signal: Option<TradeSignal>)
      requires Valid() && coin in symbols && coin in book
      requires Settled(params, coin, book[coin])
      modifies this`book, this`emitted, owned, guard
      ensures Valid()
      ensures var r := OnEvent(params, coin, old(book)[coin], old(BreadthView()), event.payload, event.ts);
              && book == old(book)[coin := r.s] && BreadthView() == r.breadth && emitted == old(emitted) + r.emitted
              && signal == if r.emitted == [] then None else Some(r.emitted[|r.emitted| - 1].signal)
    {
      hide SymbolState.Valid, SymbolState.View, OnEvent, SymbolState.Repr, Settled, Run, BreadthView;
      hide MarketBreadth.MarketBreadthTracker.Valid;
      var state := symbols[coin];
      ghost var r := OnEvent(params, coin, book[coin], BreadthView(), event.payload, event.ts);
      StepKeepsSettled(params, coin, book[coin], BreadthView(), event.payload, event.ts);
      assert Tracks(coin);
      label fed:
      signal := Dispatch(coin, state, event.payload, event.ts);
      book := book[coin := r.s];
      forall c <- symbols ensures symbols[c].Repr() <= owned && Tracks(c) {
        if c != coin {
          assert guard != null ==> guard !in symbols[c].Repr();
          assert old@fed(Tracks(c)) && symbols[c].Repr() !! state.Repr();
        }
      }
    }
  }
}
