/** Which bars make DVSLA signal, and which way, said of the coin's trades, bars
    and readings alone. */
module DvslaFiring {
  import opened Prelude
  import opened RollingStatistics
  import opened FlowImbalance
  import opened VolumeBars
  import opened OiZScore
  import opened Dvsla
  import opened DvslaSpacing
  import MarketBreadth

  // ------------------------------------------------------------- the gates

  /** Close against open; nothing for a bar without a positive open. */
  function Return(b: Bar): real
  {
    if b.openPx > 0.0 then b.closePx / b.openPx - 1.0 else 0.0
  }

  function Returns(bars: seq<Bar>): (r: seq<real>)
    ensures |r| == |bars|
  {
    if bars == [] then [] else Returns(bars[..|bars| - 1]) + [Return(bars[|bars| - 1])]
  }

  /** The size a side took in these trades. */
  function Taken(trades: seq<VolumeBars.Trade>, side: TradeSide): real
  {
    if trades == [] then 0.0
    else Taken(trades[..|trades| - 1], side) + if trades[|trades| - 1].side == side then trades[|trades| - 1].size else 0.0
  }

  /** `x` lies at least `k` deviations below (above) the mean of the window. */
  predicate Below(params: Params, window: seq<real>, x: real, k: real)
  {
    var sigma := params.root(SampleVariance(window));
    |window| >= 2 && sigma > 0.0 && Mean(window) - x >= k * sigma
  }

  predicate Above(params: Params, window: seq<real>, x: real, k: real)
  {
    var sigma := params.root(SampleVariance(window));
    |window| >= 2 && sigma > 0.0 && x - Mean(window) >= k * sigma
  }

  /** The last return shocks against those before it, but is not absurd. */
  predicate Shocks(params: Params, bars: seq<Bar>, direction: MarketBreadth.Direction)
    requires bars != []
  {
    var ret := Return(bars[|bars| - 1]);
    var window := LastN(Returns(bars[..|bars| - 1]), params.retZWindow);
    && params.retZClamp >= params.retZEntry
    && (match direction case Down => Below(params, window, ret, params.retZEntry) case Up => Above(params, window, ret, params.retZEntry))
    && (ret >= params.retMinAbsPct || -ret >= params.retMinAbsPct)
    && (params.retZReject > 0.0 && params.retZClamp >= params.retZReject ==>
          !Below(params, window, ret, params.retZReject) && !Above(params, window, ret, params.retZReject))
  }

  predicate ShareAtLeast(part: real, whole: real, share: real) { part >= share * whole }

  /** The recent flow leans the same way by the required share of it. */
  predicate Leans(params: Params, trades: seq<VolumeBars.Trade>, direction: MarketBreadth.Direction)
  {
    var recent := LastN(trades, params.flowWindow);
    var bought, sold := Taken(recent, Buy), Taken(recent, Sell);
    var lead := match direction case Down => sold - bought case Up => bought - sold;
    if bought + sold > 0.0 then ShareAtLeast(lead, bought + sold, params.flowImbalanceMin) else params.flowImbalanceMin <= 0.0
  }

  /** The returns that led up to the last bar, as many as the regime looks at. */
  function LeadUp(params: Params, bars: seq<Bar>): seq<real>
    requires bars != [] && params.hurstWindow >= 1
  {
    LastN(Returns(bars[..|bars| - 1]), params.hurstWindow - 1)
  }

  predicate Reverting(params: Params, bars: seq<Bar>)
    requires bars != [] && params.hurstWindow >= 1
  {
    |LeadUp(params, bars)| >= 16 && params.hurst(LeadUp(params, bars)) < params.hurstMax
  }

  /** Warm, cooled down, shocked and leaning one way, not vetoed by rising open
      interest, and mean-reverting. */
  predicate Gates(params: Params, bars: seq<Bar>, trades: seq<VolumeBars.Trade>, oiZ: real, signals: seq<Emitted>,
                  direction: MarketBreadth.Direction)
    requires bars != [] && params.hurstWindow >= 1
  {
    && |bars| >= params.warmupBars
    && (forall x <- signals :: x.bar < |bars| ==> |bars| - x.bar >= params.cooldownBars)
    && Shocks(params, bars, direction) && Leans(params, trades, direction) && Reverting(params, bars)
    && (params.fadeOiZVeto && !params.invert ==> oiZ < -params.oiZDrop)
  }

  /** With this move on record, enough other coins move the same way. */
  predicate Crowded(breadth: Option<Breadth>, coin: Coin, direction: MarketBreadth.Direction, now: Instant)
  {
    breadth.Some? && breadth.value.maxSameSide > 0 &&
    var marks := MarketBreadth.Pruned(breadth.value.marks + [MarketBreadth.Move(coin, direction, now)], now - breadth.value.window);
    |MarketBreadth.CoinsOf(marks, direction, Some(coin))| >= breadth.value.maxSameSide
  }

  /** A fall is bought and a rise sold; inverted, the other way round. */
  function Trades(params: Params, direction: MarketBreadth.Direction): Side
  {
    match direction
    case Down => if params.invert then Short else Long
    case Up => if params.invert then Long else Short
  }

  // ------------------------------------------------------------- what the state knows

  function FlowsOf(trades: seq<VolumeBars.Trade>): (r: seq<Flow>)
    ensures |r| == |trades|
  {
    if trades == [] then [] else FlowsOf(trades[..|trades| - 1]) + [Flow(trades[|trades| - 1].side, trades[|trades| - 1].size)]
  }

  ghost predicate Knows(params: Params, s: SymState, trades: seq<VolumeBars.Trade>, bars: seq<Bar>, oiZ: real)
  {
    && params.hurstWindow >= 1
    && s.flows == FlowsOf(trades) && s.rets == Returns(bars) && s.barRets == LastN(Returns(bars), params.hurstWindow)
    && s.barCount == |bars| && s.lastOiZ == oiZ
  }

  /** The last signal is the latest. */
  ghost predicate Latest(s: SymState, signals: seq<Emitted>)
  {
    if signals == [] then s.lastSignalBar == None
    else
      && s.lastSignalBar == Some(signals[|signals| - 1].bar)
      && forall x <- signals :: x.bar <= signals[|signals| - 1].bar <= s.barCount
  }

  lemma {:induction false} FlowsAt(trades: seq<VolumeBars.Trade>, k: nat)
    requires k <= |trades|
    ensures FlowsOf(trades)[k..] == FlowsOf(trades[k..])
  {
    if k < |trades| {
      FlowsAt(trades[..|trades| - 1], k);
      assert trades[k..][..|trades| - k - 1] == trades[..|trades| - 1][k..];
    }
  }

  lemma RecentFlows(params: Params, trades: seq<VolumeBars.Trade>)
    ensures LastN(FlowsOf(trades), params.flowWindow) == FlowsOf(LastN(trades, params.flowWindow))
  {
    if |trades| > params.flowWindow { FlowsAt(trades, |trades| - params.flowWindow); }
  }

  lemma {:induction false} AmountsAreTaken(trades: seq<VolumeBars.Trade>)
    ensures Sum(Buys(FlowsOf(trades))) == Taken(trades, Buy) && Sum(Sells(FlowsOf(trades))) == Taken(trades, Sell)
  {
    if trades != [] {
      var init := trades[..|trades| - 1];
      AmountsAreTaken(init);
      var fs := FlowsOf(trades);
      assert fs[..|fs| - 1] == FlowsOf(init);
      assert Buys(fs)[..|fs| - 1] == Buys(FlowsOf(init)) && Sells(fs)[..|fs| - 1] == Sells(FlowsOf(init));
    }
  }

  lemma ShareIff(lead: real, total: real, min: real)
    requires total > 0.0
    ensures lead / total >= min <==> lead >= min * total
  {
    var q := lead / total;
    assert q * total == lead;
    assert (q - min) * total == lead - min * total;
    SignIff(q - min, total);
  }

  lemma SignIff(d: real, e: real)
    requires e > 0.0
    ensures d >= 0.0 <==> d * e >= 0.0
  {
  }

  lemma LeansIff(params: Params, s: SymState, trades: seq<VolumeBars.Trade>, direction: MarketBreadth.Direction)
    requires s.flows == FlowsOf(trades)
    ensures FlowConfirms(params, s, direction) <==> Leans(params, trades, direction)
  {
    hide Imbalance, Normalised, ShareAtLeast, Taken, LastN;
    var recent := LastN(trades, params.flowWindow);
    ImbalanceIs(params, s, trades);
    NormalisedIff(Taken(recent, Buy), Taken(recent, Sell), params.flowImbalanceMin);
  }

  lemma ImbalanceIs(params: Params, s: SymState, trades: seq<VolumeBars.Trade>)
    requires s.flows == FlowsOf(trades)
    ensures var recent := LastN(trades, params.flowWindow);
            Imbalance(params, s) == Normalised(Taken(recent, Buy), Taken(recent, Sell))
  {
    RecentFlows(params, trades);
    AmountsAreTaken(LastN(trades, params.flowWindow));
  }

  lemma NormalisedIff(bought: real, sold: real, min: real)
    ensures bought + sold > 0.0 ==> (Normalised(bought, sold) >= min <==> ShareAtLeast(bought - sold, bought + sold, min))
    ensures bought + sold > 0.0 ==> (Normalised(bought, sold) <= -min <==> ShareAtLeast(sold - bought, bought + sold, min))
    ensures bought + sold <= 0.0 ==> Normalised(bought, sold) == 0.0
  {
    if bought + sold > 0.0 { DeviationIff(bought, sold, bought + sold, min); }
  }

  lemma ReturnIs(b: Bar)
    ensures b.Ret() == Return(b)
  {
    if b.openPx > 0.0 {
      var q := b.closePx / b.openPx;
      assert q * b.openPx == b.closePx && (q - 1.0) * b.openPx == b.closePx - b.openPx;
      QuotientIs(b.closePx - b.openPx, q - 1.0, b.openPx);
    }
  }

  lemma DeviationIff(x: real, m: real, sigma: real, k: real)
    requires sigma > 0.0
    ensures (x - m) / sigma >= k <==> x - m >= k * sigma
    ensures (x - m) / sigma <= -k <==> m - x >= k * sigma
  {
    ShareIff(x - m, sigma, k);
    ShareIff(m - x, sigma, k);
    assert (m - x) / sigma == -((x - m) / sigma);
  }

  /** The clamped score reaches `k` exactly when the return deviates that far and
      the clamp lets it show. */
  lemma ScoreIff(params: Params, s: SymState, ret: real, k: real)
    requires k > 0.0 && params.retZClamp > 0.0
    ensures var window, z := LastN(s.rets, params.retZWindow), RetZ(params, s, ret);
            && (z <= -k <==> params.retZClamp >= k && Below(params, window, ret, k))
            && (z >= k <==> params.retZClamp >= k && Above(params, window, ret, k))
  {
    var window := LastN(s.rets, params.retZWindow);
    var sigma, m := params.root(SampleVariance(window)), Mean(window);
    hide SampleVariance, Mean;
    if sigma > 0.0 { DeviationIff(ret, m, sigma, k); }
  }

  lemma ClassifiedIff(params: Params, s: SymState, bars: seq<Bar>, direction: MarketBreadth.Direction)
    requires params.Declared() && bars != [] && s.rets == Returns(bars[..|bars| - 1])
    ensures var ret := Return(bars[|bars| - 1]);
            var z := RetZ(params, s, ret);
            Shocks(params, bars, direction) <==>
              && ClassifyCascade(params, z) == Some(direction)
              && RAbs(ret) >= params.retMinAbsPct && !(params.retZReject > 0.0 && RAbs(z) >= params.retZReject)
  {
    var ret := Return(bars[|bars| - 1]);
    ScoreIff(params, s, ret, params.retZEntry);
    if params.retZReject > 0.0 { ScoreIff(params, s, ret, params.retZReject); }
    hide RetZ, Returns, Return, Below, Above;
    ScoresAreOnOneSide(RetZ(params, s, ret), params.retZEntry);
  }

  lemma ScoresAreOnOneSide(z: real, k: real)
    requires k > 0.0
    ensures !(z <= -k && z >= k)
  {
  }

  lemma CooledIff(params: Params, s: SymState, signals: seq<Emitted>)
    requires Latest(s.(barCount := if s.barCount > 0 then s.barCount - 1 else 0), signals) && s.barCount > 0
    ensures CooldownElapsed(params, s) <==> forall x <- signals :: x.bar < s.barCount ==> s.barCount - x.bar >= params.cooldownBars
  {
    if signals != [] { assert signals[|signals| - 1] in signals; }
  }

  lemma LeadUpIs(params: Params, rets: seq<real>, ret: real)
    requires params.hurstWindow >= 2
    ensures var deque := Pushed(LastN(rets, params.hurstWindow), ret, params.hurstWindow);
            && deque == LastN(rets + [ret], params.hurstWindow)
            && deque[..|deque| - 1] == LastN(rets, params.hurstWindow - 1)
  {
    LastNAppend(rets, ret, params.hurstWindow);
  }

  /** What OnBarClose judges a bar by is what the history says of it. */
  lemma GatesIff(params: Params, s0: SymState, trades: seq<VolumeBars.Trade>, before: seq<Bar>, bar: Bar, oiZ: real,
                 signals: seq<Emitted>, direction: MarketBreadth.Direction)
    requires params.Declared() && Knows(params, s0, trades, before, oiZ) && Latest(s0, signals)
    ensures var s := Counted(params, s0, bar.Ret());
            var bars := before + [bar];
            && (Cascade(params, s, bar.Ret(), RetZ(params, s0, bar.Ret())) == Some(direction) && MeanReverting(params, s).Some?
                <==> Gates(params, bars, trades, oiZ, signals, direction))
            && (MeanReverting(params, s).Some? ==> MeanReverting(params, s).value == params.hurst(LeadUp(params, bars)))
            && Knows(params, s, trades, bars, oiZ)
  {
    var bars, s := before + [bar], Counted(params, s0, bar.Ret());
    assert bars[..|bars| - 1] == before;
    ReturnIs(bar);
    LeadUpIs(params, Returns(before), Return(bar));
    ClassifiedIff(params, s0, bars, direction);
    LeansIff(params, s, trades, direction);
    CooledIff(params, s, signals);
    hide RetZ, ClassifyCascade, FlowConfirms, Shocks, Leans, Return, CooldownElapsed, Latest;
  }

  // ------------------------------------------------------------- one bar

  /** The signal a firing bar gives. */
  ghost predicate SignalFor(params: Params, x: Emitted, coin: Coin, bars: seq<Bar>, markPx: Option<real>, now: Instant,
                            direction: MarketBreadth.Direction)
    requires bars != []
  {
    && x.bar == |bars| && x.signal.coin == coin && x.signal.timestamp == now
    && x.signal.side == Trades(params, direction)
    && x.signal.entryMarkPrice == (if markPx.Some? then markPx.value else bars[|bars| - 1].closePx)
  }

  /** The score behind a confidence: the return's deviations from the window's
      mean, cut off at the clamp. */
  predicate ScoreOf(params: Params, bars: seq<Bar>, z: real)
    requires bars != []
  {
    ClampedScore(params.root, LastN(Returns(bars[..|bars| - 1]), params.retZWindow), Return(bars[|bars| - 1]), params.retZClamp, z)
  }

  /** The share by which the recent flow buys more than it sells. */
  predicate LeanOf(params: Params, trades: seq<VolumeBars.Trade>, lean: real)
  {
    var recent := LastN(trades, params.flowWindow);
    var bought, sold := Taken(recent, Buy), Taken(recent, Sell);
    if bought + sold > 0.0 then lean * (bought + sold) == bought - sold else lean == 0.0
  }

  /** The signal is as confident as its score, flow, open interest and regime. */
  ghost predicate Confident(params: Params, x: Emitted, bars: seq<Bar>, trades: seq<VolumeBars.Trade>, oiZ: real)
    requires params.Declared() && bars != []
  {
    exists z, lean :: ScoreOf(params, bars, z) && LeanOf(params, trades, lean)
      && x.signal.confidence == Confidence(params, z, lean, oiZ, params.hurst(LeadUp(params, bars)))
  }

  lemma ScoreIs(params: Params, s: SymState, bars: seq<Bar>)
    requires params.Declared() && bars != [] && s.rets == Returns(bars[..|bars| - 1])
    ensures ScoreOf(params, bars, RetZ(params, s, Return(bars[|bars| - 1])))
  {
    hide ClampedScore, ZScore;
    ClampedScoreIs(params.root, LastN(s.rets, params.retZWindow), Return(bars[|bars| - 1]), params.retZClamp);
  }

  lemma LeanIs(params: Params, s: SymState, trades: seq<VolumeBars.Trade>)
    requires s.flows == FlowsOf(trades)
    ensures LeanOf(params, trades, Imbalance(params, s))
  {
    hide Imbalance, Taken, LastN;
    ImbalanceIs(params, s, trades);
  }

  /** The bar step, its gates and its signal apart. */
  lemma OneBar(params: Params, coin: Coin, s0: SymState, breadth: Option<Breadth>, bar: Bar, now: Instant, before: seq<Bar>)
    requires params.Declared() && s0.barCount == |before|
    ensures var r, s := OnBarClose(params, coin, s0, breadth, bar, now), Counted(params, s0, bar.Ret());
            var direction := Cascade(params, s, bar.Ret(), RetZ(params, s0, bar.Ret()));
            if direction.Some? && MeanReverting(params, s).Some? && !Crowded(breadth, coin, direction.value, now) then
              r.s == s.(lastSignalBar := Some(|before| + 1)) && |r.emitted| == 1
              && SignalFor(params, r.emitted[0], coin, before + [bar], s0.markPx, now, direction.value)
              && r.emitted[0].signal.confidence ==
                   Confidence(params, RetZ(params, s0, bar.Ret()), Imbalance(params, s), s.lastOiZ, MeanReverting(params, s).value)
            else r.s == s && r.emitted == []
  {
    hide RetZ, Cascade, MeanReverting, Confidence, MarketBreadth.Pruned, MarketBreadth.CoinsOf;
  }

  /** A bar fires exactly when it meets every gate and the market does not move
      along, and then against its own move (with it, inverted). */
  lemma BarFiresIff(params: Params, coin: Coin, s0: SymState, breadth: Option<Breadth>, bar: Bar, now: Instant,
                    trades: seq<VolumeBars.Trade>, before: seq<Bar>, oiZ: real, signals: seq<Emitted>)
    requires params.Declared() && Knows(params, s0, trades, before, oiZ) && Latest(s0, signals)
    ensures var r, bars := OnBarClose(params, coin, s0, breadth, bar, now), before + [bar];
            && Knows(params, r.s, trades, bars, oiZ) && Latest(r.s, signals + r.emitted) && r.s.markPx == s0.markPx
            && (if r.emitted == [] then forall direction :: !Fires(params, coin, breadth, bars, trades, oiZ, signals, direction, now)
                else |r.emitted| == 1 && exists direction :: FiredFor(params, r.emitted[0], coin, breadth, bars, trades, oiZ, signals, s0.markPx, direction, now))
  {
    OneBar(params, coin, s0, breadth, bar, now, before);
    GatesIff(params, s0, trades, before, bar, oiZ, signals, MarketBreadth.Down);
    GatesIff(params, s0, trades, before, bar, oiZ, signals, MarketBreadth.Up);
    CountedKeeps(params, s0, bar.Ret());
    BarIsConfident(params, coin, s0, breadth, bar, now, trades, before, oiZ);
    hide RetZ, Cascade, MeanReverting, Gates, Confidence, OnBarClose, Crowded, SignalFor, Shocks, Leans, Reverting, Imbalance, Confident, Counted;
    var s := Counted(params, s0, bar.Ret());
    var direction := Cascade(params, s, bar.Ret(), RetZ(params, s0, bar.Ret()));
    var r := OnBarClose(params, coin, s0, breadth, bar, now);
    hide Knows;
    KnowsIgnoresSignals(params, s, trades, before + [bar], oiZ, r.s.lastSignalBar);
    if r.emitted == [] {
      assert signals + r.emitted == signals;
    } else {
      assert FiredFor(params, r.emitted[0], coin, breadth, before + [bar], trades, oiZ, signals, s0.markPx, direction.value, now);
      FiredAtItsBar(params, r.emitted[0], coin, before + [bar], s0.markPx, now, direction.value);
    }
  }

  lemma BarIsConfident(params: Params, coin: Coin, s0: SymState, breadth: Option<Breadth>, bar: Bar, now: Instant,
                       trades: seq<VolumeBars.Trade>, before: seq<Bar>, oiZ: real)
    requires params.Declared() && Knows(params, s0, trades, before, oiZ)
    ensures var r := OnBarClose(params, coin, s0, breadth, bar, now);
            r.emitted != [] ==> Confident(params, r.emitted[0], before + [bar], trades, oiZ)
  {
    OneBar(params, coin, s0, breadth, bar, now, before);
    var bars, s := before + [bar], Counted(params, s0, bar.Ret());
    var z, r := RetZ(params, s0, bar.Ret()), OnBarClose(params, coin, s0, breadth, bar, now);
    assert bars[..|before|] == before;
    ReturnIs(bar);
    hide OnBarClose, SignalFor, Cascade, Crowded, Confidence, RetZ, Imbalance, ScoreOf, LeanOf, Confident, Return;
    LeadUpIs(params, Returns(before), Return(bar));
    ScoreIs(params, s0, bars);
    LeanIs(params, s, trades);
    if r.emitted != [] {
      assert MeanReverting(params, s).value == params.hurst(LeadUp(params, bars));
      hide *;
      ConfidentBy(params, r.emitted[0], bars, trades, oiZ, z, Imbalance(params, s));
    }
  }

  lemma ConfidentBy(params: Params, x: Emitted, bars: seq<Bar>, trades: seq<VolumeBars.Trade>, oiZ: real, z: real, lean: real)
    requires params.Declared() && bars != [] && ScoreOf(params, bars, z) && LeanOf(params, trades, lean)
    requires x.signal.confidence == Confidence(params, z, lean, oiZ, params.hurst(LeadUp(params, bars)))
    ensures Confident(params, x, bars, trades, oiZ)
  {
  }

  /** The signal `x` is the one these gates give in this direction. */
  ghost predicate FiredFor(params: Params, x: Emitted, coin: Coin, breadth: Option<Breadth>, bars: seq<Bar>, trades: seq<VolumeBars.Trade>,
                           oiZ: real, signals: seq<Emitted>, markPx: Option<real>, direction: MarketBreadth.Direction, now: Instant)
    requires bars != [] && params.Declared()
  {
    && Fires(params, coin, breadth, bars, trades, oiZ, signals, direction, now)
    && Confident(params, x, bars, trades, oiZ)
    && SignalFor(params, x, coin, bars, markPx, now, direction)
  }

  lemma FiredAtItsBar(params: Params, x: Emitted, coin: Coin, bars: seq<Bar>, markPx: Option<real>, now: Instant,
                      direction: MarketBreadth.Direction)
    requires bars != [] && SignalFor(params, x, coin, bars, markPx, now, direction)
    ensures x.bar == |bars|
  {
  }

  lemma CountedKeeps(params: Params, s: SymState, ret: real)
    requires params.hurstWindow >= 1
    ensures var t := Counted(params, s, ret);
            t.markPx == s.markPx && t.barCount == s.barCount + 1 && t.lastSignalBar == s.lastSignalBar
  {
  }

  lemma KnowsIgnoresSignals(params: Params, s: SymState, trades: seq<VolumeBars.Trade>, bars: seq<Bar>, oiZ: real, last: Option<nat>)
    requires Knows(params, s, trades, bars, oiZ)
    ensures Knows(params, s.(lastSignalBar := last), trades, bars, oiZ)
  {
  }

  predicate Fires(params: Params, coin: Coin, breadth: Option<Breadth>, bars: seq<Bar>, trades: seq<VolumeBars.Trade>, oiZ: real,
                  signals: seq<Emitted>, direction: MarketBreadth.Direction, now: Instant)
    requires bars != [] && params.hurstWindow >= 1
  {
    Gates(params, bars, trades, oiZ, signals, direction) && !Crowded(breadth, coin, direction, now)
  }

  // ------------------------------------------------------------- the bars of one trade

  /** Bar |bars| has its one signal if it fires, and none if it does not. */
  ghost predicate Judged(params: Params, coin: Coin, breadth: Option<Breadth>, bars: seq<Bar>, trades: seq<VolumeBars.Trade>, oiZ: real,
                         signals: seq<Emitted>, markPx: Option<real>, now: Instant)
    requires bars != [] && params.Declared()
  {
    if forall x <- signals :: x.bar != |bars| then forall direction :: !Fires(params, coin, breadth, bars, trades, oiZ, signals, direction, now)
    else forall x <- signals | x.bar == |bars| :: Caused(params, x, coin, breadth, bars, trades, oiZ, signals, markPx, now)
  }

  ghost predicate Caused(params: Params, x: Emitted, coin: Coin, breadth: Option<Breadth>, bars: seq<Bar>, trades: seq<VolumeBars.Trade>,
                         oiZ: real, signals: seq<Emitted>, markPx: Option<real>, now: Instant)
    requires bars != [] && params.Declared()
  {
    exists direction :: FiredFor(params, x, coin, breadth, bars, trades, oiZ, signals, markPx, direction, now)
  }

  /** Later signals change nothing about earlier bars. */
  lemma GatesIgnoreLater(params: Params, bars: seq<Bar>, trades: seq<VolumeBars.Trade>, oiZ: real, signals: seq<Emitted>, more: seq<Emitted>,
                         direction: MarketBreadth.Direction)
    requires bars != [] && params.hurstWindow >= 1 && forall x <- more :: x.bar >= |bars|
    ensures Gates(params, bars, trades, oiZ, signals, direction) <==> Gates(params, bars, trades, oiZ, signals + more, direction)
  {
    hide Shocks, Leans, Reverting;
  }

  lemma JudgedLater(params: Params, coin: Coin, breadth: Option<Breadth>, bars: seq<Bar>, trades: seq<VolumeBars.Trade>, oiZ: real,
                    signals: seq<Emitted>, more: seq<Emitted>, markPx: Option<real>, now: Instant)
    requires bars != [] && params.Declared() && Judged(params, coin, breadth, bars, trades, oiZ, signals, markPx, now)
    requires forall x <- more :: x.bar > |bars|
    ensures Judged(params, coin, breadth, bars, trades, oiZ, signals + more, markPx, now)
  {
    GatesIgnoreLater(params, bars, trades, oiZ, signals, more, MarketBreadth.Down);
    GatesIgnoreLater(params, bars, trades, oiZ, signals, more, MarketBreadth.Up);
    hide Gates, Crowded, Confident, SignalFor;
    if forall x <- signals :: x.bar != |bars| {
      assert forall x <- signals + more :: x.bar != |bars|;
      forall direction ensures !Fires(params, coin, breadth, bars, trades, oiZ, signals + more, direction, now) {
        assert !Fires(params, coin, breadth, bars, trades, oiZ, signals, direction, now);
        if direction == MarketBreadth.Down {} else {}
      }
    } else {
      assert exists x <- signals + more :: x.bar == |bars|;
      forall x <- signals + more | x.bar == |bars| ensures Caused(params, x, coin, breadth, bars, trades, oiZ, signals + more, markPx, now) {
        assert x in signals && Caused(params, x, coin, breadth, bars, trades, oiZ, signals, markPx, now);
        var direction :| FiredFor(params, x, coin, breadth, bars, trades, oiZ, signals, markPx, direction, now);
        assert FiredFor(params, x, coin, breadth, bars, trades, oiZ, signals + more, markPx, direction, now);
      }
    }
  }

  lemma BarIsJudged(params: Params, coin: Coin, s0: SymState, breadth: Option<Breadth>, bar: Bar, now: Instant,
                    trades: seq<VolumeBars.Trade>, before: seq<Bar>, oiZ: real, signals: seq<Emitted>)
    requires params.Declared() && Knows(params, s0, trades, before, oiZ) && Latest(s0, signals)
    ensures var r, bars := OnBarClose(params, coin, s0, breadth, bar, now), before + [bar];
            && Knows(params, r.s, trades, bars, oiZ) && Latest(r.s, signals + r.emitted) && r.s.markPx == s0.markPx
            && (forall x <- r.emitted :: x.bar == |bars|)
            && Judged(params, coin, breadth, bars, trades, oiZ, signals + r.emitted, s0.markPx, now)
  {
    hide Gates, Crowded, Confident, OnBarClose, Knows, SignalFor;
    BarFiresIff(params, coin, s0, breadth, bar, now, trades, before, oiZ, signals);
    var r, bars := OnBarClose(params, coin, s0, breadth, bar, now), before + [bar];
    assert s0.barCount == |before| by { KnowsCount(params, s0, trades, before, oiZ); }
    assert forall x <- signals :: x.bar <= |before|;
    hide Latest;
    if r.emitted == [] {
      assert signals + r.emitted == signals;
    } else {
      var x := r.emitted[0];
      var direction :| FiredFor(params, x, coin, breadth, bars, trades, oiZ, signals, s0.markPx, direction, now);
      FiredAtItsBar(params, x, coin, bars, s0.markPx, now, direction);
      GatesIgnoreLater(params, bars, trades, oiZ, signals, r.emitted, direction);
      assert x in signals + r.emitted && x.bar == |bars|;
      assert FiredFor(params, x, coin, breadth, bars, trades, oiZ, signals + r.emitted, s0.markPx, direction, now);
      assert Caused(params, x, coin, breadth, bars, trades, oiZ, signals + r.emitted, s0.markPx, now);
      assert forall y <- signals + r.emitted | y.bar == |bars| :: y == x;
    }
  }

  lemma KnowsCount(params: Params, s: SymState, trades: seq<VolumeBars.Trade>, bars: seq<Bar>, oiZ: real)
    requires Knows(params, s, trades, bars, oiZ)
    ensures s.barCount == |bars|
  {
  }

  /** The guard's deque just before the `j`-th of these bars. */
  function BreadthBefore(params: Params, coin: Coin, s0: SymState, breadth: Option<Breadth>, more: seq<Bar>, j: nat, now: Instant): Option<Breadth>
    requires params.Declared() && j <= |more|
  {
    OnBars(params, coin, s0, breadth, more[..j], now).breadth
  }

  ghost predicate AllJudged(params: Params, coin: Coin, s0: SymState, breadth: Option<Breadth>, before: seq<Bar>, more: seq<Bar>, n: nat,
                            trades: seq<VolumeBars.Trade>, oiZ: real, signals: seq<Emitted>, markPx: Option<real>, now: Instant)
    requires params.Declared() && n <= |more|
  {
    forall j | 0 <= j < n ::
      Judged(params, coin, BreadthBefore(params, coin, s0, breadth, more, j, now), before + more[..j + 1], trades, oiZ, signals, markPx, now)
  }

  lemma AllJudgedLater(params: Params, coin: Coin, s0: SymState, breadth: Option<Breadth>, before: seq<Bar>, more: seq<Bar>, n: nat,
                       trades: seq<VolumeBars.Trade>, oiZ: real, signals: seq<Emitted>, later: seq<Emitted>, markPx: Option<real>, now: Instant)
    requires params.Declared() && n <= |more| && AllJudged(params, coin, s0, breadth, before, more, n, trades, oiZ, signals, markPx, now)
    requires forall x <- later :: x.bar > |before| + n
    ensures AllJudged(params, coin, s0, breadth, before, more, n, trades, oiZ, signals + later, markPx, now)
  {
    hide Judged, BreadthBefore;
    forall j | 0 <= j < n
      ensures Judged(params, coin, BreadthBefore(params, coin, s0, breadth, more, j, now), before + more[..j + 1], trades, oiZ, signals + later, markPx, now)
    {
      JudgedLater(params, coin, BreadthBefore(params, coin, s0, breadth, more, j, now), before + more[..j + 1], trades, oiZ, signals, later, markPx, now);
    }
  }

  /** Every bar a trade completes is judged by its gates, in order. */
  lemma {:induction false} BarsAreJudged(params: Params, coin: Coin, s0: SymState, breadth: Option<Breadth>, more: seq<Bar>, n: nat, now: Instant,
                                         trades: seq<VolumeBars.Trade>, before: seq<Bar>, oiZ: real, signals: seq<Emitted>)
    requires params.Declared() && Knows(params, s0, trades, before, oiZ) && Latest(s0, signals) && n <= |more|
    ensures var r := OnBars(params, coin, s0, breadth, more[..n], now);
            && Knows(params, r.s, trades, before + more[..n], oiZ) && Latest(r.s, signals + r.emitted) && r.s.markPx == s0.markPx
            && AllJudged(params, coin, s0, breadth, before, more, n, trades, oiZ, signals + r.emitted, s0.markPx, now)
            && forall x <- r.emitted :: |before| < x.bar <= |before| + n
  {
    hide Knows, Latest, Judged, OnBarClose;
    if n == 0 {
      assert before + more[..0] == before && signals + [] == signals;
    } else {
      assert more[..n][..n - 1] == more[..n - 1];
      BarsAreJudged(params, coin, s0, breadth, more, n - 1, now, trades, before, oiZ, signals);
      var r := OnBars(params, coin, s0, breadth, more[..n - 1], now);
      var last := OnBarClose(params, coin, r.s, r.breadth, more[n - 1], now);
      BarIsJudged(params, coin, r.s, r.breadth, more[n - 1], now, trades, before + more[..n - 1], oiZ, signals + r.emitted);
      assert (before + more[..n - 1]) + [more[n - 1]] == before + more[..n];
      AllJudgedLater(params, coin, s0, breadth, before, more, n - 1, trades, oiZ, signals + r.emitted, last.emitted, s0.markPx, now);
      assert (signals + r.emitted) + last.emitted == signals + (r.emitted + last.emitted);
      assert BreadthBefore(params, coin, s0, breadth, more, n - 1, now) == r.breadth;
      hide OnBars, BreadthBefore;
    }
  }

  // ------------------------------------------------------------- whole runs

  /** The open-interest readings of one coin, in order. */
  function Readings(events: seq<Event>, c: Coin): seq<real>
  {
    if events == [] then [] else
      var e := events[|events| - 1];
      Readings(events[..|events| - 1], c) + if e.coin == Some(c) && e.payload.AssetCtx? then [e.payload.openInterest] else []
  }

  function OiZOf(params: Params, events: seq<Event>, c: Coin): real
  {
    OiRun(params.Oi(), params.root, Readings(events, c)).lastZ
  }

  /** The last mark of a coin, or its first trade before any. */
  function MarkOf(events: seq<Event>, c: Coin): Option<real>
  {
    if events == [] then None else
      var e, earlier := events[|events| - 1], MarkOf(events[..|events| - 1], c);
      if e.coin != Some(c) then earlier
      else match e.payload
        case AssetCtx(markPx, _, _) => Some(markPx)
        case Trade(px, _, _) => if earlier.None? then Some(px) else earlier
        case OtherPayload => earlier
  }

  /** What the engine knows of a coin is what the coin's events say. */
  ghost predicate KnowsAll(params: Params, e: Engine, c: Coin, events: seq<Event>)
    requires params.Declared()
  {
    var trades := TradesOf(events, c);
    Told(params, StateOf(e, c), trades, BarsOf(params.thresholdFor(c), trades), Readings(events, c), MarkOf(events, c), SignalsOf(e.emitted, c))
  }

  ghost predicate Told(params: Params, s: SymState, trades: seq<VolumeBars.Trade>, r: (seq<Bar>, Option<Bar>), readings: seq<real>,
                       markPx: Option<real>, signals: seq<Emitted>)
  {
    var oi := OiRun(params.Oi(), params.root, readings);
    Knows(params, s, trades, r.0, oi.lastZ) && s.oi == oi && s.markPx == markPx && s.acc == r.1 && Latest(s, signals)
  }

  function TradeOf(event: Event): VolumeBars.Trade
    requires event.payload.Trade?
  {
    VolumeBars.Trade(event.payload.px, event.payload.sz, event.payload.side, event.ts)
  }

  /** The bars a trade completes, and the state before they are judged. */
  function Fed(params: Params, c: Coin, s: SymState, t: VolumeBars.Trade): (seq<Bar>, SymState)
    requires params.Declared() && Settled(params, c, s)
  {
    var (bars, acc) := if t.size <= 0.0 then ([], s.acc) else Absorb(params.thresholdFor(c), s.acc, t, t.size);
    (bars, s.(flows := s.flows + [Flow(t.side, t.size)], acc := acc, markPx := if s.markPx.None? then Some(t.px) else s.markPx))
  }

  lemma EventsAppend(events: seq<Event>, event: Event, c: Coin)
    ensures TradesOf(events + [event], c) == TradesOf(events, c) + if event.coin == Some(c) && event.payload.Trade? then [TradeOf(event)] else []
    ensures Readings(events + [event], c) == Readings(events, c) +
              if event.coin == Some(c) && event.payload.AssetCtx? then [event.payload.openInterest] else []
    ensures MarkOf(events + [event], c) ==
              if event.coin != Some(c) || event.payload.OtherPayload? then MarkOf(events, c)
              else if event.payload.AssetCtx? then Some(event.payload.markPx)
              else if MarkOf(events, c).None? then Some(event.payload.px) else MarkOf(events, c)
  {
    assert (events + [event])[..|events|] == events;
  }

  lemma BarsAppend(threshold: real, trades: seq<VolumeBars.Trade>, t: VolumeBars.Trade)
    requires threshold > 0.0
    ensures BarsOf(threshold, trades + [t]) ==
              var (bars, acc) := BarsOf(threshold, trades);
              if t.size <= 0.0 then (bars, acc)
              else var (more, rest) := Absorb(threshold, acc, t, t.size); (bars + more, rest)
  {
    assert (trades + [t])[..|trades|] == trades;
  }

  /** Before its bars are judged, a trade is known. */
  lemma FedIsTold(params: Params, c: Coin, s: SymState, t: VolumeBars.Trade, trades: seq<VolumeBars.Trade>, r: (seq<Bar>, Option<Bar>),
                  readings: seq<real>, markPx: Option<real>, signals: seq<Emitted>)
    requires params.Declared() && Settled(params, c, s) && Told(params, s, trades, r, readings, markPx, signals)
    ensures var (more, fed) := Fed(params, c, s, t);
            && Told(params, fed, trades + [t], (r.0, fed.acc), readings, if markPx.None? then Some(t.px) else markPx, signals)
            && Partial(params.thresholdFor(c), r.1)
            && (more, fed.acc) == if t.size <= 0.0 then ([], r.1) else Absorb(params.thresholdFor(c), r.1, t, t.size)
  {
    hide Absorb, OiRun, Returns, LastN;
    assert (trades + [t])[..|trades|] == trades;
  }

  lemma FedKnows(params: Params, e: Engine, event: Event, c: Coin, events: seq<Event>)
    requires params.Declared() && Settled(params, c, StateOf(e, c)) && event.payload.Trade? && event.coin == Some(c)
    requires KnowsAll(params, e, c, events)
    ensures var (more, fed) := Fed(params, c, StateOf(e, c), TradeOf(event));
            var trades := TradesOf(events + [event], c);
            var bars := BarsOf(params.thresholdFor(c), TradesOf(events, c)).0;
            && BarsOf(params.thresholdFor(c), trades) == (bars + more, fed.acc)
            && Told(params, fed, trades, (bars, fed.acc), Readings(events + [event], c), MarkOf(events + [event], c), SignalsOf(e.emitted, c))
  {
    hide Absorb, BarsOf, Told, TradesOf, MarkOf, Readings, SignalsOf, Fed;
    var trades, t := TradesOf(events, c), TradeOf(event);
    EventsAppend(events, event, c);
    BarsAppend(params.thresholdFor(c), trades, t);
    FedIsTold(params, c, StateOf(e, c), t, trades, BarsOf(params.thresholdFor(c), trades), Readings(events, c), MarkOf(events, c), SignalsOf(e.emitted, c));
    var bars := BarsOf(params.thresholdFor(c), trades).0;
    assert bars + [] == bars;
    assert Readings(events, c) + [] == Readings(events, c);
  }

  /** A trade event's bars, judged, with the signals of the engine after it. */
  lemma TradeIsJudged(params: Params, e: Engine, event: Event, c: Coin, events: seq<Event>)
    requires Sound(params, e) && event.payload.Trade? && event.coin == Some(c) && KnowsAll(params, e, c, events)
    ensures var f := Step(params, e, event);
            var (more, fed) := Fed(params, c, StateOf(e, c), TradeOf(event));
            var bars := BarsOf(params.thresholdFor(c), TradesOf(events, c)).0;
            && KnowsAll(params, f, c, events + [event])
            && SignalsOf(e.emitted, c) <= SignalsOf(f.emitted, c)
            && (forall x <- SignalsOf(f.emitted, c)[|SignalsOf(e.emitted, c)|..] :: |bars| < x.bar <= |bars| + |more|)
            && AllJudged(params, c, fed, e.breadth, bars, more, |more|, TradesOf(events + [event], c),
                         OiZOf(params, events + [event], c), SignalsOf(f.emitted, c), MarkOf(events + [event], c), event.ts)
  {
    var s := StateOf(e, c);
    IsSettled(params, e, c);
    hide Absorb, BarsOf, OnBars, OnBarClose, OiStep, OiRun, Knows, Latest, AllJudged, TradesOf, MarkOf, Readings, SignalsOf, KnowsAll, Sound;
    FedKnows(params, e, event, c, events);
    var (more, fed) := Fed(params, c, s, TradeOf(event));
    var signals := SignalsOf(e.emitted, c);
    var bars := BarsOf(params.thresholdFor(c), TradesOf(events, c)).0;
    TradeStep(params, e, event, c);
    BarsAreJudged(params, c, fed, e.breadth, more, |more|, event.ts, TradesOf(events + [event], c), bars, OiZOf(params, events + [event], c), signals);
    assert more[..|more|] == more;
    var r := OnBars(params, c, fed, e.breadth, more, event.ts);
    BarsKeepAcc(params, c, fed, e.breadth, more, event.ts);
    BarsKeepOi(params, c, fed, e.breadth, more, event.ts);
    hide Step, Fed;
    var f := Step(params, e, event);
    assert Told(params, StateOf(f, c), TradesOf(events + [event], c), (bars + more, fed.acc), Readings(events + [event], c),
                MarkOf(events + [event], c), SignalsOf(f.emitted, c));
    assert KnowsAll(params, f, c, events + [event]) by { KnowsAllIs(params, f, c, events + [event]); }
  }

  lemma KnowsAllIs(params: Params, e: Engine, c: Coin, events: seq<Event>)
    requires params.Declared()
    ensures KnowsAll(params, e, c, events) <==>
              Told(params, StateOf(e, c), TradesOf(events, c), BarsOf(params.thresholdFor(c), TradesOf(events, c)), Readings(events, c),
                   MarkOf(events, c), SignalsOf(e.emitted, c))
  {
    hide Told, BarsOf, TradesOf, Readings, MarkOf, SignalsOf;
  }

  /** The engine's step on a trade, with what its bars emit. */
  lemma TradeStep(params: Params, e: Engine, event: Event, c: Coin)
    requires Sound(params, e) && event.payload.Trade? && event.coin == Some(c) && Settled(params, c, StateOf(e, c))
    ensures var f := Step(params, e, event);
            var (more, fed) := Fed(params, c, StateOf(e, c), TradeOf(event));
            var r := OnBars(params, c, fed, e.breadth, more, event.ts);
            StateOf(f, c) == r.s && SignalsOf(f.emitted, c) == SignalsOf(e.emitted, c) + r.emitted
  {
    hide Absorb, OnBars, Settled;
    var (more, fed) := Fed(params, c, StateOf(e, c), TradeOf(event));
    var r := OnBars(params, c, fed, e.breadth, more, event.ts);
    BarsSignalOwnCoin(params, c, fed, e.breadth, more, event.ts);
    SignalsOfConcat(e.emitted, r.emitted, c);
    SignalsOfAll(r.emitted, c, c);
    hide SignalsOf;
  }

  lemma {:induction false} BarsKeepOi(params: Params, coin: Coin, s: SymState, breadth: Option<Breadth>, bars: seq<Bar>, now: Instant)
    requires params.Declared()
    ensures OnBars(params, coin, s, breadth, bars, now).s.oi == s.oi
  {
    hide RetZ, Cascade, MeanReverting, Synchronized, Recorded, Confidence;
    if bars != [] { BarsKeepOi(params, coin, s, breadth, bars[..|bars| - 1], now); }
  }

  lemma OtherEventIsKnown(params: Params, e: Engine, event: Event, c: Coin, events: seq<Event>)
    requires Sound(params, e) && KnowsAll(params, e, c, events) && !(event.payload.Trade? && event.coin == Some(c))
    ensures var f := Step(params, e, event);
            KnowsAll(params, f, c, events + [event]) && SignalsOf(f.emitted, c) == SignalsOf(e.emitted, c)
  {
    hide KnowsAll, OnEvent;
    if event.coin == Some(c) {
      ReadingIsKnown(params, e, event, c, events);
    } else {
      StrangerIsKnown(params, e, event, c, events);
      if event.coin.Some? {
        var d := event.coin.value;
        IsSettled(params, e, d);
        var r := OnEvent(params, d, StateOf(e, d), e.breadth, event.payload, event.ts);
        EventSignalsOwnCoin(params, d, StateOf(e, d), e.breadth, event.payload, event.ts);
        SignalsOfConcat(e.emitted, r.emitted, c);
        SignalsOfAll(r.emitted, c, d);
        assert SignalsOf(e.emitted, c) + [] == SignalsOf(e.emitted, c);
        SameKnowledge(params, e, Step(params, e, event), c, events + [event]);
      }
    }
  }

  lemma SameKnowledge(params: Params, e: Engine, f: Engine, c: Coin, events: seq<Event>)
    requires params.Declared() && KnowsAll(params, e, c, events)
    requires StateOf(e, c) == StateOf(f, c) && SignalsOf(e.emitted, c) == SignalsOf(f.emitted, c)
    ensures KnowsAll(params, f, c, events)
  {
  }

  lemma StrangerIsKnown(params: Params, e: Engine, event: Event, c: Coin, events: seq<Event>)
    requires params.Declared() && KnowsAll(params, e, c, events) && event.coin != Some(c)
    ensures KnowsAll(params, e, c, events + [event])
  {
    EventsAppend(events, event, c);
    hide BarsOf, TradesOf, MarkOf, Readings, Knows, Latest, OiRun;
    assert TradesOf(events, c) + [] == TradesOf(events, c) && Readings(events, c) + [] == Readings(events, c);
  }

  /** A reading is scored, and marks are kept; nothing fires. */
  lemma ReadingIsKnown(params: Params, e: Engine, event: Event, c: Coin, events: seq<Event>)
    requires Sound(params, e) && KnowsAll(params, e, c, events) && !event.payload.Trade? && event.coin == Some(c)
    ensures var f := Step(params, e, event);
            KnowsAll(params, f, c, events + [event]) && SignalsOf(f.emitted, c) == SignalsOf(e.emitted, c)
  {
    var f, s := Step(params, e, event), StateOf(e, c);
    hide Step, Sound, OiStep, BarsOf, TradesOf, MarkOf, Readings, OiRun, SignalsOf, Told;
    ReadingStep(params, e, event, c);
    EventsAppend(events, event, c);
    assert TradesOf(events, c) + [] == TradesOf(events, c) && Readings(events, c) + [] == Readings(events, c);
    if event.payload.AssetCtx? {
      ReadingIsTold(params, s, TradesOf(events, c), BarsOf(params.thresholdFor(c), TradesOf(events, c)), Readings(events, c), MarkOf(events, c),
                    SignalsOf(e.emitted, c), event.payload.markPx, event.payload.oraclePx, event.payload.openInterest);
    }
  }

  lemma ReadingIsTold(params: Params, s: SymState, trades: seq<VolumeBars.Trade>, r: (seq<Bar>, Option<Bar>), readings: seq<real>,
                      markPx: Option<real>, signals: seq<Emitted>, mark: real, oraclePx: Option<real>, reading: real)
    requires Told(params, s, trades, r, readings, markPx, signals)
    ensures var oi := OiStep(params.Oi(), params.root, s.oi, reading);
            Told(params, s.(markPx := Some(mark), oraclePx := oraclePx, oi := oi, lastOiZ := oi.lastZ), trades, r, readings + [reading], Some(mark), signals)
  {
    hide OiStep, Returns, FlowsOf, LastN;
    OiRunAppend(params, readings, reading);
    hide OiRun;
  }

  lemma OiRunAppend(params: Params, readings: seq<real>, oi: real)
    ensures OiRun(params.Oi(), params.root, readings + [oi]) == OiStep(params.Oi(), params.root, OiRun(params.Oi(), params.root, readings), oi)
  {
    assert (readings + [oi])[..|readings|] == readings;
  }

  lemma ReadingStep(params: Params, e: Engine, event: Event, c: Coin)
    requires Sound(params, e) && !event.payload.Trade? && event.coin == Some(c)
    ensures var f, s := Step(params, e, event), StateOf(e, c);
            && f.emitted == e.emitted
            && StateOf(f, c) == match event.payload
                 case AssetCtx(markPx, oraclePx, openInterest) =>
                   var oi := OiStep(params.Oi(), params.root, s.oi, openInterest);
                   s.(markPx := Some(markPx), oraclePx := oraclePx, oi := oi, lastOiZ := oi.lastZ)
                 case _ => s
  {
    hide OiStep, Settled, OnTrade;
    IsSettled(params, e, c);
    assert e.emitted + [] == e.emitted;
  }

  function EngineAt(params: Params, breadth: Option<Breadth>, events: seq<Event>, n: nat): (e: Engine)
    requires params.Declared() && n <= |events|
    ensures Sound(params, e)
  {
    Run(params, Engine(map[], breadth, []), events[..n])
  }

  lemma {:induction false} RunIsKnown(params: Params, breadth: Option<Breadth>, events: seq<Event>, n: nat, c: Coin)
    requires params.Declared() && n <= |events|
    ensures KnowsAll(params, EngineAt(params, breadth, events, n), c, events[..n])
  {
    hide KnowsAll, Step, Sound;
    if n == 0 {
      NothingIsKnown(params, breadth, c);
    } else {
      var e, last := EngineAt(params, breadth, events, n - 1), events[n - 1];
      RunIsKnown(params, breadth, events, n - 1, c);
      assert events[..n] == events[..n - 1] + [last] && events[..n][..n - 1] == events[..n - 1];
      assert EngineAt(params, breadth, events, n) == Step(params, e, last);
      if last.payload.Trade? && last.coin == Some(c) {
        TradeIsJudged(params, e, last, c, events[..n - 1]);
      } else {
        OtherEventIsKnown(params, e, last, c, events[..n - 1]);
      }
    }
  }

  lemma NothingIsKnown(params: Params, breadth: Option<Breadth>, c: Coin)
    requires params.Declared()
    ensures KnowsAll(params, Engine(map[], breadth, []), c, [])
  {
  }

  /** The guard's deque just before the `j`-th bar that event `k` completes. */
  function GuardBefore(params: Params, breadth: Option<Breadth>, events: seq<Event>, k: nat, c: Coin, j: nat): Option<Breadth>
    requires params.Declared() && k < |events| && events[k].payload.Trade?
  {
    var e := EngineAt(params, breadth, events, k);
    IsSettled(params, e, c);
    var (more, fed) := Fed(params, c, StateOf(e, c), TradeOf(events[k]));
    if j <= |more| then BreadthBefore(params, c, fed, e.breadth, more, j, events[k].ts) else None
  }

  lemma GuardIs(params: Params, breadth: Option<Breadth>, events: seq<Event>, k: nat, c: Coin, j: nat)
    requires params.Declared() && k < |events| && events[k].payload.Trade? && Settled(params, c, StateOf(EngineAt(params, breadth, events, k), c))
    ensures var e := EngineAt(params, breadth, events, k);
            var (more, fed) := Fed(params, c, StateOf(e, c), TradeOf(events[k]));
            j <= |more| ==> GuardBefore(params, breadth, events, k, c, j) == BreadthBefore(params, c, fed, e.breadth, more, j, events[k].ts)
  {
    hide Fed, BreadthBefore, EngineAt;
  }

  lemma IsSettled(params: Params, e: Engine, c: Coin)
    requires Sound(params, e)
    ensures Settled(params, c, StateOf(e, c))
  {
  }

  /** Bar `b` of the coin, completed by event `k`. */
  ghost predicate CompletedBy(params: Params, events: seq<Event>, k: nat, c: Coin, b: nat)
    requires params.Declared() && k < |events|
  {
    var threshold := params.thresholdFor(c);
    |BarsOf(threshold, TradesOf(events[..k], c)).0| < b <= |BarsOf(threshold, TradesOf(events[..k + 1], c)).0|
  }

  /** The verdict on bar `b`, from the coin's events up to `k` alone. */
  ghost predicate JudgedInRun(params: Params, breadth: Option<Breadth>, events: seq<Event>, k: nat, c: Coin, b: nat)
    requires params.Declared() && k < |events| && events[k].payload.Trade? && CompletedBy(params, events, k, c, b)
  {
    var now, threshold := events[..k + 1], params.thresholdFor(c);
    var trades := TradesOf(now, c);
    var earlier := |BarsOf(threshold, TradesOf(events[..k], c)).0|;
    Judged(params, c, GuardBefore(params, breadth, events, k, c, b - earlier - 1), BarsOf(threshold, trades).0[..b], trades,
           OiZOf(params, now, c), SignalsOf(EngineAt(params, breadth, events, k + 1).emitted, c), MarkOf(now, c), events[k].ts)
  }

  /** In every run, with or without the breadth guard, every bar of every coin:
      it has a signal exactly if its return, the coin's recent flow, its
      readings, lead-up and earlier signals meet the gates and the market does
      not move along; a fall is then bought at the mark and a rise sold, or the
      other way round when inverted. */
  lemma BarsFireByTheirHistory(params: Params, breadth: Option<Breadth>, events: seq<Event>, k: nat, c: Coin, b: nat)
    requires params.Declared() && k < |events| && events[k].payload.Trade? && events[k].coin == Some(c)
    requires CompletedBy(params, events, k, c, b)
    ensures JudgedInRun(params, breadth, events, k, c, b)
  {
    hide KnowsAll, Step, Sound, Judged, Fed, BreadthBefore, BarsOf, TradesOf, MarkOf, OiZOf, EngineAt, GuardBefore, Told, AllJudged, SignalsOf;
    var e, event := EngineAt(params, breadth, events, k), events[k];
    EngineStep(params, breadth, events, k);
    RunIsKnown(params, breadth, events, k, c);
    IsSettled(params, e, c);
    TradeIsJudged(params, e, event, c, events[..k]);
    FedKnows(params, e, event, c, events[..k]);
    assert events[..k + 1] == events[..k] + [event];
    var (more, fed) := Fed(params, c, StateOf(e, c), TradeOf(event));
    var bars0 := BarsOf(params.thresholdFor(c), TradesOf(events[..k], c)).0;
    GuardIs(params, breadth, events, k, c, b - |bars0| - 1);
    OneJudged(params, c, fed, e.breadth, bars0, more, b, TradesOf(events[..k + 1], c), OiZOf(params, events[..k + 1], c),
              SignalsOf(EngineAt(params, breadth, events, k + 1).emitted, c), MarkOf(events[..k + 1], c), event.ts);
  }

  lemma OneJudged(params: Params, coin: Coin, s0: SymState, breadth: Option<Breadth>, before: seq<Bar>, more: seq<Bar>, b: nat,
                  trades: seq<VolumeBars.Trade>, oiZ: real, signals: seq<Emitted>, markPx: Option<real>, now: Instant)
    requires params.Declared() && AllJudged(params, coin, s0, breadth, before, more, |more|, trades, oiZ, signals, markPx, now)
    requires |before| < b <= |before + more|
    ensures Judged(params, coin, BreadthBefore(params, coin, s0, breadth, more, b - |before| - 1, now), (before + more)[..b], trades, oiZ,
                   signals, markPx, now)
  {
    hide Judged, BreadthBefore;
    var j := b - |before| - 1;
    assert before + more[..j + 1] == (before + more)[..b];
  }

  lemma EngineStep(params: Params, breadth: Option<Breadth>, events: seq<Event>, k: nat)
    requires params.Declared() && k < |events|
    ensures EngineAt(params, breadth, events, k + 1) == Step(params, EngineAt(params, breadth, events, k), events[k])
  {
    assert events[..k + 1][..k] == events[..k];
  }

  /** Signal `x` was caused by the bar it names, completed by event `k`. */
  ghost predicate CausedInRun(params: Params, breadth: Option<Breadth>, events: seq<Event>, k: nat, c: Coin, x: Emitted)
    requires params.Declared() && k < |events|
  {
    && events[k].payload.Trade? && events[k].coin == Some(c) && CompletedBy(params, events, k, c, x.bar)
    && var now, threshold := events[..k + 1], params.thresholdFor(c);
       var trades := TradesOf(now, c);
       var earlier := |BarsOf(threshold, TradesOf(events[..k], c)).0|;
       Caused(params, x, c, GuardBefore(params, breadth, events, k, c, x.bar - earlier - 1), BarsOf(threshold, trades).0[..x.bar], trades,
              OiZOf(params, now, c), SignalsOf(EngineAt(params, breadth, events, k + 1).emitted, c), MarkOf(now, c), events[k].ts)
  }

  lemma NewSignalIsCaused(params: Params, breadth: Option<Breadth>, events: seq<Event>, k: nat, c: Coin, x: Emitted)
    requires params.Declared() && k < |events| && events[k].payload.Trade? && events[k].coin == Some(c)
    requires CompletedBy(params, events, k, c, x.bar) && x in SignalsOf(EngineAt(params, breadth, events, k + 1).emitted, c)
    ensures CausedInRun(params, breadth, events, k, c, x)
  {
    BarsFireByTheirHistory(params, breadth, events, k, c, x.bar);
    hide Caused, Fires, GuardBefore, BarsOf, TradesOf, MarkOf, OiZOf, EngineAt, SignalsOf;
  }

  /** And no signal comes from anywhere else. */
  lemma {:induction false} EverySignalIsCaused(params: Params, breadth: Option<Breadth>, events: seq<Event>, n: nat, c: Coin, x: Emitted)
    requires params.Declared() && n <= |events| && x in SignalsOf(EngineAt(params, breadth, events, n).emitted, c)
    ensures exists k: nat :: k < n && CausedInRun(params, breadth, events, k, c, x)
  {
    hide KnowsAll, Step, Sound, AllJudged, BarsOf, TradesOf, MarkOf, OiZOf, EngineAt, CausedInRun, Told, Fed;
    if n == 0 {
      NothingSignalled(params, breadth, events, c);
    } else {
      var k := n - 1;
      var e, event := EngineAt(params, breadth, events, k), events[k];
      EngineStep(params, breadth, events, k);
      RunIsKnown(params, breadth, events, k, c);
      if x in SignalsOf(e.emitted, c) {
        EverySignalIsCaused(params, breadth, events, k, c, x);
      } else if event.payload.Trade? && event.coin == Some(c) {
        IsSettled(params, e, c);
        TradeIsJudged(params, e, event, c, events[..k]);
        FedKnows(params, e, event, c, events[..k]);
        assert events[..k + 1] == events[..k] + [event];
        var earlier, all := SignalsOf(e.emitted, c), SignalsOf(Step(params, e, event).emitted, c);
        assert x in all[|earlier|..];
        NewSignalIsCaused(params, breadth, events, k, c, x);
      } else {
        OtherEventIsKnown(params, e, event, c, events[..k]);
      }
    }
  }

  lemma NothingSignalled(params: Params, breadth: Option<Breadth>, events: seq<Event>, c: Coin)
    requires params.Declared()
    ensures SignalsOf(EngineAt(params, breadth, events, 0).emitted, c) == []
  {
  }

  /** The open-interest score the gates see is that of the last change of the
      coin's readings, repetitions apart, within ten deviations. */
  lemma OiZIsOfTheLastChange(params: Params, events: seq<Event>, c: Coin)
    ensures var changes := Changes(Destuttered(Readings(events, c)));
            if changes == [] then OiZOf(params, events, c) == 0.0
            else ClampedScore(params.root, LastN(changes[..|changes| - 1], params.oiZWindow), changes[|changes| - 1], 10.0, OiZOf(params, events, c))
  {
    ScoreIsOfTheLastChange(params.Oi(), params.root, Readings(events, c));
    hide Changes, Destuttered, Readings, OiRun, ClampedScore;
  }
}
