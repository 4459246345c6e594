/** When DVSLA may fire: warm-up, cooldown and the signal budget they leave. */
module DvslaSpacing {
  import opened Prelude
  import opened VolumeBars
  import opened RollingStatistics
  import opened FlowImbalance
  import opened OiZScore
  import opened Dvsla

  /** No signal fires before this bar: the warm-up, or the 17 bars that give the
      regime gate its 16 lead-up returns. */
  function FirstBar(params: Params): nat
  {
    if params.warmupBars > MIN_HURST_RETURNS + 1 then params.warmupBars else MIN_HURST_RETURNS + 1
  }

  /** At most one signal a bar, even with the cooldown off. */
  function Gap(params: Params): nat
  {
    if params.cooldownBars > 1 then params.cooldownBars else 1
  }

  predicate Spaced(params: Params, signals: seq<Emitted>, barCount: nat)
  {
    && (forall i | 0 <= i < |signals| :: FirstBar(params) <= signals[i].bar <= barCount)
    && (forall i | 1 <= i < |signals| :: signals[i].bar - signals[i-1].bar >= Gap(params))
    && (forall i | 0 <= i < |signals| :: 0.0 <= signals[i].signal.confidence <= 1.0)
  }

  /** A coin's state remembers the bar of its last signal. */
  predicate Remembers(params: Params, s: SymState, signals: seq<Emitted>)
  {
    && Spaced(params, signals, s.barCount)
    && s.lastSignalBar == (if signals == [] then None else Some(signals[|signals|-1].bar))
    && |s.barRets| == (if s.barCount < params.hurstWindow then s.barCount else params.hurstWindow)
  }

  lemma SpacedLater(params: Params, signals: seq<Emitted>, n: nat, later: nat)
    requires Spaced(params, signals, n) && n <= later
    ensures Spaced(params, signals, later)
  {
  }

  lemma SpacedAppend(params: Params, signals: seq<Emitted>, e: Emitted, n: nat)
    requires Spaced(params, signals, n) && FirstBar(params) <= e.bar <= n && 0.0 <= e.signal.confidence <= 1.0
    requires signals != [] ==> e.bar - signals[|signals|-1].bar >= Gap(params)
    ensures Spaced(params, signals + [e], n)
  {
  }

  /** What one bar may emit: nothing, or one signal on this bar after warm-up,
      cooldown and the regime gate. */
  lemma CloseEmits(params: Params, coin: Coin, s: SymState, breadth: Option<Breadth>, bar: Bar, now: Instant)
    requires params.Declared()
    requires |s.barRets| == (if s.barCount < params.hurstWindow then s.barCount else params.hurstWindow)
    ensures var r, n := OnBarClose(params, coin, s, breadth, bar, now), s.barCount + 1;
            && r.s.barCount == n && |r.emitted| <= 1
            && |r.s.barRets| == (if n < params.hurstWindow then n else params.hurstWindow)
            && (r.emitted == [] ==> r.s.lastSignalBar == s.lastSignalBar)
            && (r.emitted != [] ==>
                  && r.s.lastSignalBar == Some(n) && r.emitted[0].bar == n && n >= FirstBar(params)
                  && 0.0 <= r.emitted[0].signal.confidence <= 1.0
                  && (s.lastSignalBar.Some? ==> n - s.lastSignalBar.value >= params.cooldownBars))
  {
    hide RetZ, ClassifyCascade, FlowConfirms, Synchronized, Recorded, Confidence;
  }

  lemma CloseIsSpaced(params: Params, coin: Coin, s: SymState, breadth: Option<Breadth>, bar: Bar, now: Instant, signals: seq<Emitted>)
    requires params.Declared() && Remembers(params, s, signals)
    ensures var r := OnBarClose(params, coin, s, breadth, bar, now);
            Remembers(params, r.s, signals + r.emitted) && r.s.barCount == s.barCount + 1
  {
    hide OnBarClose;
    CloseEmits(params, coin, s, breadth, bar, now);
    var r := OnBarClose(params, coin, s, breadth, bar, now);
    SpacedLater(params, signals, s.barCount, r.s.barCount);
    if r.emitted == [] {
      assert signals + r.emitted == signals;
    } else {
      assert signals + r.emitted == signals + [r.emitted[0]];
      assert signals != [] ==> signals[|signals|-1].bar <= s.barCount;
      SpacedAppend(params, signals, r.emitted[0], r.s.barCount);
    }
    hide Spaced;
  }

  lemma {:induction false} BarsAreSpaced(params: Params, coin: Coin, s: SymState, breadth: Option<Breadth>, bars: seq<Bar>, now: Instant, signals: seq<Emitted>)
    requires params.Declared() && Remembers(params, s, signals)
    ensures var r := OnBars(params, coin, s, breadth, bars, now);
            Remembers(params, r.s, signals + r.emitted) && r.s.barCount == s.barCount + |bars|
  {
    hide OnBarClose, Remembers;
    if bars == [] {
      assert signals + [] == signals;
    } else {
      var r := OnBars(params, coin, s, breadth, bars[..|bars|-1], now);
      BarsAreSpaced(params, coin, s, breadth, bars[..|bars|-1], now, signals);
      CloseIsSpaced(params, coin, r.s, r.breadth, bars[|bars|-1], now, signals + r.emitted);
      var last := OnBarClose(params, coin, r.s, r.breadth, bars[|bars|-1], now);
      assert signals + (r.emitted + last.emitted) == (signals + r.emitted) + last.emitted;
    }
  }

  /** The trades of one coin, in order. */
  function TradesOf(events: seq<Event>, c: Coin): seq<VolumeBars.Trade>
  {
    if events == [] then [] else
      var e := events[|events|-1];
      var rest := TradesOf(events[..|events|-1], c);
      if e.coin == Some(c) && e.payload.Trade? then rest + [VolumeBars.Trade(e.payload.px, e.payload.sz, e.payload.side, e.ts)] else rest
  }

  /** What the engine knows of a coin after its events. */
  ghost predicate Follows(params: Params, e: Engine, c: Coin, trades: seq<VolumeBars.Trade>)
    requires params.Declared()
  {
    var s := StateOf(e, c);
    var (bars, acc) := BarsOf(params.thresholdFor(c), trades);
    && Remembers(params, s, SignalsOf(e.emitted, c))
    && s.acc == acc && s.barCount == |bars|
  }

  lemma EventFollows(params: Params, e: Engine, event: Event, c: Coin, trades: seq<VolumeBars.Trade>)
    requires Sound(params, e) && event.coin == Some(c) && Follows(params, e, c, trades)
    ensures Follows(params, Step(params, e, event), c,
                    if event.payload.Trade? then trades + [VolumeBars.Trade(event.payload.px, event.payload.sz, event.payload.side, event.ts)] else trades)
  {
    hide OnBars, Absorb, OiStep, Remembers;
    var s := StateOf(e, c);
    var signals := SignalsOf(e.emitted, c);
    var r := OnEvent(params, c, s, e.breadth, event.payload, event.ts);
    EventSignalsOwnCoin(params, c, s, e.breadth, event.payload, event.ts);
    SignalsOfConcat(e.emitted, r.emitted, c);
    SignalsOfAll(r.emitted, c, c);
    match event.payload
    case Trade(px, sz, side) =>
      var t := VolumeBars.Trade(px, sz, side, event.ts);
      var more := trades + [t];
      assert more[..|more|-1] == trades;
      var (bars, acc) := if sz <= 0.0 then ([], s.acc) else Absorb(params.thresholdFor(c), s.acc, t, sz);
      var fed := s.(flows := s.flows + [Flow(side, sz)], acc := acc, markPx := if s.markPx.None? then Some(px) else s.markPx);
      OnlyCounters(params, s, fed, signals);
      BarsAreSpaced(params, c, fed, e.breadth, bars, event.ts, signals);
      BarsKeepAcc(params, c, fed, e.breadth, bars, event.ts);
    case _ =>
      OnlyCounters(params, s, r.s, signals);
      assert signals + [] == signals;
  }

  lemma OnlyCounters(params: Params, s: SymState, t: SymState, signals: seq<Emitted>)
    requires Remembers(params, s, signals)
    requires t.barCount == s.barCount && t.lastSignalBar == s.lastSignalBar && t.barRets == s.barRets
    ensures Remembers(params, t, signals)
  {
  }

  lemma {:induction false} RunFollows(params: Params, breadth: Option<Breadth>, events: seq<Event>, c: Coin)
    requires params.Declared()
    ensures Follows(params, Run(params, Engine(map[], breadth, []), events), c, TradesOf(events, c))
  {
    if events != [] {
      var init, last := events[..|events|-1], events[|events|-1];
      RunFollows(params, breadth, init, c);
      var e := Run(params, Engine(map[], breadth, []), init);
      if last.coin == Some(c) {
        EventFollows(params, e, last, c, TradesOf(init, c));
      } else {
        OthersFollow(params, e, last, c, TradesOf(init, c));
      }
    }
  }

  lemma OthersFollow(params: Params, e: Engine, event: Event, c: Coin, trades: seq<VolumeBars.Trade>)
    requires Sound(params, e) && event.coin != Some(c) && Follows(params, e, c, trades)
    ensures Follows(params, Step(params, e, event), c, trades)
  {
    hide OnEvent, Remembers, BarsOf;
    if event.coin.Some? {
      var d := event.coin.value;
      var r := OnEvent(params, d, StateOf(e, d), e.breadth, event.payload, event.ts);
      EventSignalsOwnCoin(params, d, StateOf(e, d), e.breadth, event.payload, event.ts);
      SignalsOfConcat(e.emitted, r.emitted, c);
      SignalsOfAll(r.emitted, c, d);
      assert SignalsOf(e.emitted, c) + [] == SignalsOf(e.emitted, c);
    }
  }

  /** Spaced signals fit a budget of one plus the gaps that fit after the first. */
  lemma {:induction false} BudgetOf(params: Params, signals: seq<Emitted>, barCount: nat)
    requires Spaced(params, signals, barCount) && signals != []
    ensures FirstBar(params) + (|signals| - 1) * Gap(params) <= signals[|signals|-1].bar
  {
    hide FirstBar, Gap;
    if |signals| > 1 {
      var init, last := signals[..|signals|-1], signals[|signals|-1];
      SpacedInit(params, signals, barCount);
      BudgetOf(params, init, barCount);
      assert last.bar - init[|init|-1].bar >= Gap(params);
      hide Spaced;
      OneMoreGap(|init| - 1, Gap(params));
    }
  }

  lemma SpacedInit(params: Params, signals: seq<Emitted>, barCount: nat)
    requires Spaced(params, signals, barCount) && signals != []
    ensures Spaced(params, signals[..|signals|-1], barCount)
  {
  }

  lemma OneMoreGap(k: nat, gap: nat)
    ensures (k + 1) * gap == k * gap + gap
  {
  }

  /** How many signals fit into `n` bars. */
  function Budget(params: Params, n: nat): nat
  {
    if n < FirstBar(params) then 0 else 1 + (n - FirstBar(params)) / Gap(params)
  }

  /** How many thresholds' worth of the coin has traded. */
  ghost function BarsTraded(params: Params, trades: seq<VolumeBars.Trade>, c: Coin): nat
    requires params.Declared()
  {
    BarsConserve(params.thresholdFor(c), trades, Buy);
    (Traded(trades, None) / params.thresholdFor(c)).Floor
  }

  /** On any stream, with or without the breadth guard: a coin that has traded n
      thresholds' worth emits no signal before bar FirstBar, keeps consecutive
      signals at least Gap bars apart, emits at most 1 + (n - FirstBar) / Gap of
      them, each with confidence in [0, 1]. */
  lemma SignalBudget(params: Params, breadth: Option<Breadth>, events: seq<Event>, c: Coin)
    requires params.Declared()
    ensures var signals := SignalsOf(Run(params, Engine(map[], breadth, []), events).emitted, c);
            var n := BarsTraded(params, TradesOf(events, c), c);
            Spaced(params, signals, n) && |signals| <= Budget(params, n)
  {
    IdleIsSound(params, breadth);
    hide *;
    RunFollows(params, breadth, events, c);
    var e := Run(params, Engine(map[], breadth, []), events);
    FollowedBars(params, e, c, TradesOf(events, c));
    BudgetBound(params, SignalsOf(e.emitted, c), StateOf(e, c).barCount);
  }

  lemma IdleIsSound(params: Params, breadth: Option<Breadth>)
    requires params.Declared()
    ensures Sound(params, Engine(map[], breadth, []))
  {
  }

  lemma FollowedBars(params: Params, e: Engine, c: Coin, trades: seq<VolumeBars.Trade>)
    requires params.Declared() && Follows(params, e, c, trades)
    ensures StateOf(e, c).barCount == BarsTraded(params, trades, c)
    ensures Spaced(params, SignalsOf(e.emitted, c), StateOf(e, c).barCount)
  {
    hide BarsOf, Traded;
    BarsConserve(params.thresholdFor(c), trades, Buy);
  }

  lemma BudgetBound(params: Params, signals: seq<Emitted>, n: nat)
    requires Spaced(params, signals, n)
    ensures |signals| <= Budget(params, n)
  {
    if signals != [] {
      assert FirstBar(params) <= signals[0].bar <= n;
      BudgetOf(params, signals, n);
      DivBound(|signals| - 1, Gap(params), n - FirstBar(params));
    }
  }

  lemma DivBound(k: nat, gap: nat, room: int)
    requires gap >= 1 && k * gap <= room
    ensures k <= room / gap
  {
    var q := room / gap;
    assert (q + 1 - k) * gap == q * gap + gap - k * gap > 0;
    PositiveFactor(q + 1 - k, gap);
  }

  lemma PositiveFactor(x: int, g: int)
    requires g >= 1 && x * g > 0
    ensures x > 0
  {
  }
}
