/** src/strategy/dvsla.py: the cascade engine, as a function of the event stream.
    The trackers appear here by what they compute over the whole history; their
    incremental forms are proved equal to it in their own modules. */
module Dvsla {
  import opened Prelude
  import opened RollingStatistics
  import opened FlowImbalance
  import opened VolumeBars
  import opened OiZScore
  import MarketBreadth

  const OI_Z_CLAMP: real := 10.0
  const MIN_HURST_RETURNS: nat := 16

  /** `root` is the square root and `hurst` the R/S estimate: both deterministic
      platform computations, otherwise unconstrained. */
  datatype Params = Params(
    thresholdFor: Coin -> real,
    retZWindow: nat, retZEntry: real, retMinAbsPct: real, retZClamp: real, retZReject: real,
    flowWindow: nat, flowImbalanceMin: real,
    oiZWindow: nat, oiZDrop: real, fadeOiZVeto: bool,
    hurstWindow: nat, hurstMax: real,
    warmupBars: nat, cooldownBars: nat, invert: bool,
    root: real -> real, hurst: seq<real> -> real)
  {
    /** The bounds the parameter model declares. */
    ghost predicate Declared()
    {
      && (forall c :: thresholdFor(c) > 0.0)
      && retZWindow > 1 && retZEntry > 0.0 && retMinAbsPct >= 0.0 && retZClamp > 0.0 && retZReject >= 0.0
      && flowWindow > 0 && 0.0 <= flowImbalanceMin <= 1.0
      && oiZWindow > 1 && oiZDrop < 0.0
      && hurstWindow > MIN_HURST_RETURNS && 0.0 < hurstMax < 1.0
    }

    function Oi(): OiParams { OiParams(oiZWindow, true, OI_Z_CLAMP) }
  }

  /** Per-symbol state.  `flows` and `rets` are full histories, of which the
      trackers keep their windows; `barRets` is the Hurst deque itself. */
  datatype SymState = SymState(
    acc: Option<Bar>, flows: seq<Flow>, rets: seq<real>, oi: OiState, barRets: seq<real>,
    barCount: nat, lastSignalBar: Option<nat>, markPx: Option<real>, oraclePx: Option<real>, lastOiZ: real)

  const FRESH := SymState(None, [], [], OI_START, [], 0, None, None, None, 0.0)

  datatype TradeSignal = TradeSignal(coin: Coin, side: Side, entryMarkPrice: real, confidence: real, timestamp: Instant)

  /** A signal as the callback receives it, with the bar it fired on. */
  datatype Emitted = Emitted(bar: nat, signal: TradeSignal)

  /** The correlation guard: its settings and its deque. */
  datatype Breadth = Breadth(window: real, maxSameSide: int, marks: seq<MarketBreadth.Move>)

  datatype Payload =
    | Trade(px: real, sz: real, side: TradeSide)
    | AssetCtx(markPx: real, oraclePx: Option<real>, openInterest: real)
    | OtherPayload

  datatype Event = Event(payload: Payload, coin: Option<Coin>, ts: Instant)

  // ------------------------------------------------------------- gates

  /** Append to a deque of bounded length. */
  function Pushed(deque: seq<real>, x: real, maxLen: nat): seq<real>
    requires maxLen >= 1
  {
    (if |deque| >= maxLen then deque[1..] else deque) + [x]
  }

  /** The bar's return scored against the window before it, clamped. */
  function RetZ(params: Params, s: SymState, ret: real): real
  {
    var recent := LastN(s.rets, params.retZWindow);
    Clamp(-params.retZClamp, params.retZClamp, if |recent| >= 2 then ZScore(params.root, recent, ret) else 0.0)
  }

  function Counted(params: Params, s: SymState, ret: real): SymState
    requires params.hurstWindow >= 1
  {
    s.(rets := s.rets + [ret], barRets := Pushed(s.barRets, ret, params.hurstWindow), barCount := s.barCount + 1)
  }

  predicate CooldownElapsed(params: Params, s: SymState)
  {
    s.lastSignalBar.None? || s.barCount - s.lastSignalBar.value >= params.cooldownBars
  }

  function ClassifyCascade(params: Params, retZ: real): Option<MarketBreadth.Direction>
  {
    if retZ <= -params.retZEntry then Some(MarketBreadth.Down)
    else if retZ >= params.retZEntry then Some(MarketBreadth.Up)
    else None
  }

  function Imbalance(params: Params, s: SymState): real
  {
    ImbalanceOf(LastN(s.flows, params.flowWindow))
  }

  predicate FlowConfirms(params: Params, s: SymState, direction: MarketBreadth.Direction)
  {
    if direction == MarketBreadth.Down then Imbalance(params, s) <= -params.flowImbalanceMin
    else Imbalance(params, s) >= params.flowImbalanceMin
  }

  /** The cascade a counted bar confirms, before breadth and regime. */
  function Cascade(params: Params, s: SymState, ret: real, retZ: real): Option<MarketBreadth.Direction>
  {
    if s.barCount < params.warmupBars || !CooldownElapsed(params, s) then None
    else if RAbs(ret) < params.retMinAbsPct then None
    else if params.retZReject > 0.0 && RAbs(retZ) >= params.retZReject then None
    else
      var direction := ClassifyCascade(params, retZ);
      if direction.None? || !FlowConfirms(params, s, direction.value) then None
      else if params.fadeOiZVeto && !params.invert && s.lastOiZ >= RAbs(params.oiZDrop) then None
      else direction
  }

  /** The Hurst reading of the lead-up, None when the regime is not mean-reverting. */
  function MeanReverting(params: Params, s: SymState): Option<real>
  {
    if s.barRets == [] then None else
      var rets := s.barRets[..|s.barRets| - 1];
      if |rets| < MIN_HURST_RETURNS then None
      else if params.hurst(rets) < params.hurstMax then Some(params.hurst(rets))
      else None
  }

  function Recorded(breadth: Option<Breadth>, coin: Coin, direction: MarketBreadth.Direction, now: Instant): Option<Breadth>
  {
    if breadth.None? then None
    else
      var b := breadth.value;
      Some(b.(marks := MarketBreadth.Pruned(b.marks + [MarketBreadth.Move(coin, direction, now)], now - b.window)))
  }

  /** Enough other coins count as moving the same way; `marks` was pruned at `now`. */
  predicate Synchronized(breadth: Option<Breadth>, coin: Coin, direction: MarketBreadth.Direction)
  {
    breadth.Some? && breadth.value.maxSameSide > 0 &&
    |MarketBreadth.CoinsOf(breadth.value.marks, direction, Some(coin))| >= breadth.value.maxSameSide
  }

  // ------------------------------------------------------------- confidence

  /** Each component is its excess over the trigger, scaled to about [0, 1]. */
  function RawConfidence(params: Params, retZ: real, imbalance: real, oiZ: real, hurst: real): real
    requires params.retZEntry > 0.0 && params.flowImbalanceMin >= 0.0 && params.oiZDrop < 0.0
  {
    var flowMin := if params.flowImbalanceMin == 0.0 then 1.0 else params.flowImbalanceMin;
    var retScore := RMin(1.0, RAbs(retZ) / (params.retZEntry * 2.0));
    var flowScore := RMin(1.0, RAbs(imbalance) / RMin(1.0, flowMin * 2.0));
    var oiScore := RMin(1.0, RAbs(oiZ) / (RAbs(params.oiZDrop) * 2.0));
    var hurstScore := RMin(1.0, RMax(0.0, (0.5 - hurst) / 0.5));
    (retScore + flowScore + oiScore + hurstScore) / 4.0
  }

  /** Round half to even at four decimals. */
  function Round4(x: real): real
  {
    var scaled := x * 10000.0;
    var low := scaled.Floor;
    var up := scaled - low as real > 0.5 || (scaled - low as real == 0.5 && low % 2 == 1);
    (if up then low + 1 else low) as real / 10000.0
  }

  function Confidence(params: Params, retZ: real, imbalance: real, oiZ: real, hurst: real): (c: real)
    requires params.retZEntry > 0.0 && params.flowImbalanceMin >= 0.0 && params.oiZDrop < 0.0
    ensures 0.0 <= c <= 1.0
  {
    Round4(RMin(1.0, RMax(0.0, RawConfidence(params, retZ, imbalance, oiZ, hurst))))
  }

  /** `part` as a share of `whole`, at most one. */
  function Share(part: real, whole: real): real
    requires whole > 0.0
  {
    RMin(1.0, RAbs(part) / whole)
  }

  lemma ShareBounds(part: real, whole: real)
    requires whole > 0.0
    ensures 0.0 <= Share(part, whole) <= 1.0
    ensures Share(part, whole) == 1.0 <==> RAbs(part) >= whole
    ensures Share(part, whole) == 0.0 <==> part == 0.0
  {
    var q := RAbs(part) / whole;
    assert q * whole == RAbs(part);
    if q >= 1.0 { assert (q - 1.0) * whole >= 0.0; } else { assert (1.0 - q) * whole > 0.0; }
  }

  lemma ShareGrows(a: real, b: real, whole: real)
    requires whole > 0.0 && RAbs(a) <= RAbs(b)
    ensures Share(a, whole) <= Share(b, whole)
  {
    var p, q := RAbs(a) / whole, RAbs(b) / whole;
    assert p * whole == RAbs(a) && q * whole == RAbs(b);
    assert (q - p) * whole >= 0.0;
    NonNegativeFactor(q - p, whole);
  }

  lemma NonNegativeFactor(x: real, whole: real)
    requires whole > 0.0 && x * whole >= 0.0
    ensures x >= 0.0
  {
  }

  /** The share of an imbalance that counts as full. */
  function FullFlow(params: Params): real
  {
    RMin(1.0, if params.flowImbalanceMin == 0.0 then 2.0 else params.flowImbalanceMin * 2.0)
  }

  lemma RawIsMeanOfShares(params: Params, retZ: real, imbalance: real, oiZ: real, hurst: real)
    requires params.Declared()
    ensures RawConfidence(params, retZ, imbalance, oiZ, hurst) * 4.0 ==
              Share(retZ, params.retZEntry * 2.0) + Share(imbalance, FullFlow(params)) + Share(oiZ, -params.oiZDrop * 2.0)
              + (if hurst >= 0.5 then 0.0 else if hurst <= 0.0 then 1.0 else 1.0 - 2.0 * hurst)
  {
  }

  /** Confidence is full exactly when score and open interest are at twice their
      triggers, the flow at twice its minimum (or all one way) and the regime as
      reverting as can be; it is nil exactly when nothing speaks for the trade. */
  lemma ConfidenceExtremes(params: Params, retZ: real, imbalance: real, oiZ: real, hurst: real)
    requires params.Declared()
    ensures RawConfidence(params, retZ, imbalance, oiZ, hurst) == 1.0 <==>
              && RAbs(retZ) >= params.retZEntry * 2.0 && RAbs(imbalance) >= FullFlow(params)
              && RAbs(oiZ) >= -params.oiZDrop * 2.0 && hurst <= 0.0
    ensures RawConfidence(params, retZ, imbalance, oiZ, hurst) == 0.0 <==>
              retZ == 0.0 && imbalance == 0.0 && oiZ == 0.0 && hurst >= 0.5
    ensures 0.0 <= RawConfidence(params, retZ, imbalance, oiZ, hurst) <= 1.0
  {
    RawIsMeanOfShares(params, retZ, imbalance, oiZ, hurst);
    ShareBounds(retZ, params.retZEntry * 2.0);
    ShareBounds(imbalance, FullFlow(params));
    ShareBounds(oiZ, -params.oiZDrop * 2.0);
    hide RawConfidence, Share;
  }

  /** More of anything that speaks for the trade never makes it less confident. */
  lemma ConfidenceGrows(params: Params, z1: real, z2: real, flow1: real, flow2: real, oi1: real, oi2: real, h1: real, h2: real)
    requires params.Declared() && RAbs(z1) <= RAbs(z2) && RAbs(flow1) <= RAbs(flow2) && RAbs(oi1) <= RAbs(oi2) && h1 >= h2
    ensures Confidence(params, z1, flow1, oi1, h1) <= Confidence(params, z2, flow2, oi2, h2)
  {
    RawIsMeanOfShares(params, z1, flow1, oi1, h1);
    RawIsMeanOfShares(params, z2, flow2, oi2, h2);
    ShareGrows(z1, z2, params.retZEntry * 2.0);
    ShareGrows(flow1, flow2, FullFlow(params));
    ShareGrows(oi1, oi2, -params.oiZDrop * 2.0);
    hide RawConfidence, Share;
    var a, b := RawConfidence(params, z1, flow1, oi1, h1), RawConfidence(params, z2, flow2, oi2, h2);
    assert a <= b;
    RoundingGrows(RMin(1.0, RMax(0.0, a)), RMin(1.0, RMax(0.0, b)));
  }

  /** To the nearest multiple of a ten-thousandth, ties to the even one. */
  lemma RoundsToNearest(x: real)
    ensures -0.00005 <= Round4(x) - x <= 0.00005
    ensures var units := (Round4(x) * 10000.0).Floor;
            units as real == Round4(x) * 10000.0 && (x - Round4(x) == 0.00005 || Round4(x) - x == 0.00005 ==> units % 2 == 0)
  {
    var scaled := x * 10000.0;
    var low := scaled.Floor;
    var n := if scaled - low as real > 0.5 || (scaled - low as real == 0.5 && low % 2 == 1) then low + 1 else low;
    assert Round4(x) == n as real / 10000.0 && Round4(x) * 10000.0 == n as real;
    FloorOfInt(n);
  }

  lemma FloorOfInt(n: int)
    ensures (n as real).Floor == n
  {
  }

  /** What is reported is that confidence, rounded. */
  lemma ConfidenceIsRounded(params: Params, retZ: real, imbalance: real, oiZ: real, hurst: real)
    requires params.Declared()
    ensures -0.00005 <= Confidence(params, retZ, imbalance, oiZ, hurst) - RawConfidence(params, retZ, imbalance, oiZ, hurst) <= 0.00005
  {
    ConfidenceExtremes(params, retZ, imbalance, oiZ, hurst);
    RoundsToNearest(RawConfidence(params, retZ, imbalance, oiZ, hurst));
    hide RawConfidence, Round4;
  }

  lemma RoundingGrows(x: real, y: real)
    requires x <= y
    ensures Round4(x) <= Round4(y)
  {
    RoundsToNearest(x);
    RoundsToNearest(y);
    if (x * 10000.0).Floor == (y * 10000.0).Floor {
    } else {
      assert (x * 10000.0).Floor + 1 <= (y * 10000.0).Floor;
    }
  }

  // ------------------------------------------------------------- steps

  datatype BarResult = BarResult(s: SymState, breadth: Option<Breadth>, emitted: seq<Emitted>)

  function OnBarClose(params: Params, coin: Coin, s0: SymState, breadth: Option<Breadth>, bar: Bar, now: Instant): BarResult
    requires params.Declared()
  {
    var ret := bar.Ret();
    var retZ := RetZ(params, s0, ret);
    var s := Counted(params, s0, ret);
    var direction := Cascade(params, s, ret, retZ);
    if direction.None? then BarResult(s, breadth, []) else
      var heard := Recorded(breadth, coin, direction.value, now);
      var hurst := MeanReverting(params, s);
      if hurst.None? || Synchronized(heard, coin, direction.value) then BarResult(s, heard, []) else
        var fade := if direction.value == MarketBreadth.Down then Long else Short;
        var side := if params.invert then (if fade == Long then Short else Long) else fade;
        var entry := if s.markPx.Some? then s.markPx.value else bar.closePx;
        var confidence := Confidence(params, retZ, Imbalance(params, s), s.lastOiZ, hurst.value);
        BarResult(s.(lastSignalBar := Some(s.barCount)), heard,
                  [Emitted(s.barCount, TradeSignal(coin, side, entry, confidence, now))])
  }

  function OnBars(params: Params, coin: Coin, s: SymState, breadth: Option<Breadth>, bars: seq<Bar>, now: Instant): BarResult
    requires params.Declared()
  {
    if bars == [] then BarResult(s, breadth, []) else
      var r := OnBars(params, coin, s, breadth, bars[..|bars|-1], now);
      var last := OnBarClose(params, coin, r.s, r.breadth, bars[|bars|-1], now);
      last.(emitted := r.emitted + last.emitted)
  }

  predicate Settled(params: Params, coin: Coin, s: SymState)
  {
    Partial(params.thresholdFor(coin), s.acc)
  }

  function OnTrade(params: Params, coin: Coin, s: SymState, breadth: Option<Breadth>, t: VolumeBars.Trade): BarResult
    requires params.Declared() && Settled(params, coin, s)
  {
    var threshold := params.thresholdFor(coin);
    var (bars, acc) := if t.size <= 0.0 then ([], s.acc) else Absorb(threshold, s.acc, t, t.size);
    var fed := s.(flows := s.flows + [Flow(t.side, t.size)], acc := acc,
                  markPx := if s.markPx.None? then Some(t.px) else s.markPx);
    OnBars(params, coin, fed, breadth, bars, t.ts)
  }

  function OnEvent(params: Params, coin: Coin, s: SymState, breadth: Option<Breadth>, payload: Payload, now: Instant): BarResult
    requires params.Declared() && Settled(params, coin, s)
  {
    match payload
    case AssetCtx(markPx, oraclePx, openInterest) =>
      var oi := OiStep(params.Oi(), params.root, s.oi, openInterest);
      BarResult(s.(markPx := Some(markPx), oraclePx := oraclePx, oi := oi, lastOiZ := oi.lastZ), breadth, [])
    case Trade(px, sz, side) => OnTrade(params, coin, s, breadth, VolumeBars.Trade(px, sz, side, now))
    case OtherPayload => BarResult(s, breadth, [])
  }

  // ------------------------------------------------------------- the whole engine

  datatype Engine = Engine(symbols: map<Coin, SymState>, breadth: Option<Breadth>, emitted: seq<Emitted>)

  ghost predicate Sound(params: Params, e: Engine)
  {
    params.Declared() && forall c <- e.symbols :: Settled(params, c, e.symbols[c])
  }

  function StateOf(e: Engine, coin: Coin): SymState
  {
    if coin in e.symbols then e.symbols[coin] else FRESH
  }

  function Step(params: Params, e: Engine, event: Event): (f: Engine)
    requires Sound(params, e)
    ensures Sound(params, f)
  {
    if event.coin.None? then e else
      var coin := event.coin.value;
      var r := OnEvent(params, coin, StateOf(e, coin), e.breadth, event.payload, event.ts);
      StepKeepsSettled(params, coin, StateOf(e, coin), e.breadth, event.payload, event.ts);
      Engine(e.symbols[coin := r.s], r.breadth, e.emitted + r.emitted)
  }

  lemma {:induction false} BarsKeepAcc(params: Params, coin: Coin, s: SymState, breadth: Option<Breadth>, bars: seq<Bar>, now: Instant)
    requires params.Declared()
    ensures OnBars(params, coin, s, breadth, bars, now).s.acc == s.acc
  {
    hide RetZ, Cascade, MeanReverting, Synchronized, Recorded, Confidence;
    if bars != [] { BarsKeepAcc(params, coin, s, breadth, bars[..|bars|-1], now); }
  }

  lemma StepKeepsSettled(params: Params, coin: Coin, s: SymState, breadth: Option<Breadth>, payload: Payload, now: Instant)
    requires params.Declared() && Settled(params, coin, s)
    ensures Settled(params, coin, OnEvent(params, coin, s, breadth, payload, now).s)
  {
    hide OnBars, Absorb, OiStep;
    if payload.Trade? {
      var t := VolumeBars.Trade(payload.px, payload.sz, payload.side, now);
      var (bars, acc) := if t.size <= 0.0 then ([], s.acc) else Absorb(params.thresholdFor(coin), s.acc, t, t.size);
      var fed := s.(flows := s.flows + [Flow(t.side, t.size)], acc := acc,
                    markPx := if s.markPx.None? then Some(t.px) else s.markPx);
      BarsKeepAcc(params, coin, fed, breadth, bars, now);
    }
  }

  function Run(params: Params, e: Engine, events: seq<Event>): (f: Engine)
    requires Sound(params, e)
    ensures Sound(params, f)
  {
    if events == [] then e else Step(params, Run(params, e, events[..|events|-1]), events[|events|-1])
  }

  // ------------------------------------------------------------- non-interference

  /** The events of one coin, in order. */
  function Only(events: seq<Event>, c: Coin): seq<Event>
  {
    if events == [] then [] else
      var rest := Only(events[..|events|-1], c);
      if events[|events|-1].coin == Some(c) then rest + [events[|events|-1]] else rest
  }

  /** The signals of one coin, in order. */
  function SignalsOf(emitted: seq<Emitted>, c: Coin): seq<Emitted>
  {
    if emitted == [] then [] else
      var rest := SignalsOf(emitted[..|emitted|-1], c);
      if emitted[|emitted|-1].signal.coin == c then rest + [emitted[|emitted|-1]] else rest
  }

  lemma {:induction false} SignalsOfConcat(a: seq<Emitted>, b: seq<Emitted>, c: Coin)
    ensures SignalsOf(a + b, c) == SignalsOf(a, c) + SignalsOf(b, c)
  {
    if b == [] {
      assert a + b == a;
    } else {
      SignalsOfConcat(a, b[..|b|-1], c);
      assert (a + b)[..|a + b|-1] == a + b[..|b|-1];
    }
  }

  lemma {:induction false} SignalsOfAll(emitted: seq<Emitted>, c: Coin, d: Coin)
    requires forall x <- emitted :: x.signal.coin == d
    ensures SignalsOf(emitted, c) == if c == d then emitted else []
  {
    if emitted != [] { SignalsOfAll(emitted[..|emitted|-1], c, d); }
  }

  lemma {:induction false} BarsSignalOwnCoin(params: Params, coin: Coin, s: SymState, breadth: Option<Breadth>, bars: seq<Bar>, now: Instant)
    requires params.Declared()
    ensures forall x <- OnBars(params, coin, s, breadth, bars, now).emitted :: x.signal.coin == coin
    ensures breadth.None? ==> OnBars(params, coin, s, breadth, bars, now).breadth.None?
  {
    hide RetZ, Cascade, MeanReverting, Synchronized, Confidence, Counted;
    if bars != [] { BarsSignalOwnCoin(params, coin, s, breadth, bars[..|bars|-1], now); }
  }

  lemma EventSignalsOwnCoin(params: Params, coin: Coin, s: SymState, breadth: Option<Breadth>, payload: Payload, now: Instant)
    requires params.Declared() && Settled(params, coin, s)
    ensures forall x <- OnEvent(params, coin, s, breadth, payload, now).emitted :: x.signal.coin == coin
    ensures breadth.None? ==> OnEvent(params, coin, s, breadth, payload, now).breadth.None?
  {
    hide OnBars, Absorb, OiStep;
    if payload.Trade? {
      var t := VolumeBars.Trade(payload.px, payload.sz, payload.side, now);
      var (bars, acc) := if t.size <= 0.0 then ([], s.acc) else Absorb(params.thresholdFor(coin), s.acc, t, t.size);
      var fed := s.(flows := s.flows + [Flow(t.side, t.size)], acc := acc,
                    markPx := if s.markPx.None? then Some(t.px) else s.markPx);
      BarsSignalOwnCoin(params, coin, fed, breadth, bars, now);
    }
  }

  const IDLE := Engine(map[], None, [])

  /** Without a breadth tracker coins do not interfere: on any interleaved
      stream, a coin's state and signals are those of its own events alone. */
  lemma {:induction false} CoinsDoNotInterfere(params: Params, events: seq<Event>, c: Coin)
    requires params.Declared()
    ensures var all, alone := Run(params, IDLE, events), Run(params, IDLE, Only(events, c));
            && all.breadth.None? && alone.breadth.None?
            && StateOf(all, c) == StateOf(alone, c) && (c in all.symbols <==> c in alone.symbols)
            && SignalsOf(all.emitted, c) == alone.emitted
  {
    hide OnEvent;
    if events != [] {
      var init, last := events[..|events|-1], events[|events|-1];
      CoinsDoNotInterfere(params, init, c);
      var all, alone := Run(params, IDLE, init), Run(params, IDLE, Only(init, c));
      if last.coin.Some? {
        var d := last.coin.value;
        var r := OnEvent(params, d, StateOf(all, d), all.breadth, last.payload, last.ts);
        EventSignalsOwnCoin(params, d, StateOf(all, d), all.breadth, last.payload, last.ts);
        SignalsOfConcat(all.emitted, r.emitted, c);
        SignalsOfAll(r.emitted, c, d);
        if c == d {
          var mine := Only(init, c) + [last];
          assert mine[..|mine|-1] == Only(init, c);
        }
      }
    }
  }
}
