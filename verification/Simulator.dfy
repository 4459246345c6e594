/** backtest/simulator.py: the event-driven backtest.  The value-level functions
    say what one event does to the books; the class `BacktestSimulator` is the
    source's object, whose methods mutate positions in place. */
module Simulator {
  import opened Prelude

  datatype SimConfig = SimConfig(
    makerFeeBps: real, takerFeeBps: real, slippageBps: real,
    minNotional: real, maxNotional: real,
    takeProfitPct: real, stopLossPct: real, timeStopSeconds: real,
    trailingCallbackPct: real, breakEvenTriggerPct: real, feeBufferPct: real,
    makerEntryEnabled: bool, makerFillTimeoutSeconds: real,
    maxConcurrent: int)

  /** The dataclass defaults of the source. */
  const DEFAULT_CONFIG := SimConfig(
    1.5, 4.5, 2.0, 100.0, 1000.0, 0.006, 0.004, 300.0, 0.0, 0.0, 0.001, false, 60.0, 5)

  datatype Signal = Signal(coin: Coin, side: Side, entryMarkPrice: real, confidence: real, timestamp: Instant)

  datatype Payload = Trade(px: real) | AssetCtx(markPx: real) | OtherPayload

  datatype Event = Event(payload: Payload, coin: Option<Coin>, ts: Instant)

  /** What an open position never changes after entry. */
  datatype Terms = Terms(
    coin: Coin, side: Side, entryPx: real, qty: real, notional: real, entryTs: Instant,
    tpPx: real, risk: real, entryFee: real, confidence: real)

  datatype Position = Position(terms: Terms, stopPx: real, peakPx: real, breakEvenArmed: bool)

  datatype MakerOrder = MakerOrder(coin: Coin, side: Side, limitPx: real, placedTs: Instant, confidence: real)

  datatype ExitReason = StopExit | TakeProfitExit | TrailingStopExit | TimeStopExit | EodMark

  datatype Exit = Exit(px: real, reason: ExitReason)

  datatype ClosedTrade = ClosedTrade(
    terms: Terms, exitPx: real, exitTs: Instant,
    grossPnl: real, fees: real, netPnl: real, rMultiple: real, reason: ExitReason)

  datatype BacktestResult = BacktestResult(
    trades: seq<ClosedTrade>, signals: nat, skipped: nat, processed: nat,
    placed: nat, filled: nat, expired: nat)

  const EMPTY_RESULT := BacktestResult([], 0, 0, 0, 0, 0, 0)

  /** The whole observable state of a simulator. */
  datatype SimState = SimState(
    open: map<Coin, Position>, pending: map<Coin, MakerOrder>,
    marks: map<Coin, real>, result: BacktestResult)

  // ------------------------------------------------------------- one position

  function Opened(cfg: SimConfig, coin: Coin, side: Side, entryPx: real, ts: Instant, confidence: real): (p: Position)
    requires entryPx != 0.0
    ensures p.terms.coin == coin && p.terms.entryPx == entryPx
  {
    var notional := cfg.minNotional + (cfg.maxNotional - cfg.minNotional) * confidence;
    var rate := if cfg.makerEntryEnabled then cfg.makerFeeBps else cfg.takerFeeBps;
    var tp := if side == Long then entryPx * (1.0 + cfg.takeProfitPct) else entryPx * (1.0 - cfg.takeProfitPct);
    var stop := if side == Long then entryPx * (1.0 - cfg.stopLossPct) else entryPx * (1.0 + cfg.stopLossPct);
    Position(
      Terms(coin, side, entryPx, notional / entryPx, notional, ts, tp,
            notional * cfg.stopLossPct, notional * rate / BPS, confidence),
      stop, entryPx, false)
  }

  /** Peak first, then break-even: what a print does to a position it does not close. */
  function Advance(cfg: SimConfig, p: Position, price: real): (q: Position)
    requires p.terms.entryPx != 0.0
    ensures q.terms == p.terms
  {
    var entry := p.terms.entryPx;
    var isLong := p.terms.side == Long;
    var q := p.(peakPx := if isLong then RMax(p.peakPx, price) else RMin(p.peakPx, price));
    var gain := (price - entry) / entry;
    if cfg.breakEvenTriggerPct > 0.0 && !p.breakEvenArmed
       && (if isLong then gain else -gain) >= cfg.breakEvenTriggerPct
    then
      q.(stopPx := if isLong then RMax(q.stopPx, entry * (1.0 + cfg.feeBufferPct))
                   else RMin(q.stopPx, entry * (1.0 - cfg.feeBufferPct)),
         breakEvenArmed := true)
    else q
  }

  /** The bracket, then the trail, then the time stop, on an advanced position. */
  function ExitOf(cfg: SimConfig, p: Position, price: real, ts: Instant): Option<Exit>
  {
    var isLong := p.terms.side == Long;
    var cb := cfg.trailingCallbackPct;
    if (if isLong then price <= p.stopPx else price >= p.stopPx) then
      Some(Exit(p.stopPx, StopExit))
    else if cfg.takeProfitPct > 0.0 && (if isLong then price >= p.terms.tpPx else price <= p.terms.tpPx) then
      Some(Exit(p.terms.tpPx, TakeProfitExit))
    else if cb > 0.0 && (if isLong then price <= p.peakPx * (1.0 - cb) else price >= p.peakPx * (1.0 + cb)) then
      Some(Exit(price, TrailingStopExit))
    else if cfg.timeStopSeconds > 0.0 && ts - p.terms.entryTs >= cfg.timeStopSeconds then
      Some(Exit(price, TimeStopExit))
    else None
  }

  /** Taker slippage moves the fill against the position. */
  function FillPx(cfg: SimConfig, side: Side, exitPx: real): real
  {
    var slip := exitPx * cfg.slippageBps / BPS;
    if side == Long then exitPx - slip else exitPx + slip
  }

  function GrossPnl(t: Terms, fillPx: real): real
  {
    if t.side == Long then (fillPx - t.entryPx) * t.qty else (t.entryPx - fillPx) * t.qty
  }

  function Fees(cfg: SimConfig, t: Terms, fillPx: real): real
  {
    var exitNotional := fillPx * t.qty;
    t.entryFee + exitNotional * cfg.takerFeeBps / BPS
  }

  function RMultiple(t: Terms, net: real): real
  {
    if t.risk > 0.0 then net / t.risk else 0.0
  }

  function Booked(cfg: SimConfig, p: Position, exitPx: real, ts: Instant, reason: ExitReason): ClosedTrade
  {
    var fill := FillPx(cfg, p.terms.side, exitPx);
    var gross, fees := GrossPnl(p.terms, fill), Fees(cfg, p.terms, fill);
    ClosedTrade(p.terms, fill, ts, gross, fees, gross - fees, RMultiple(p.terms, gross - fees), reason)
  }

  // ------------------------------------------------------------- one event

  predicate Tradeable(s: SimState)
  {
    && s.open.Keys !! s.pending.Keys
    && (forall c <- s.open :: s.open[c].terms.coin == c && s.open[c].terms.entryPx > 0.0)
    && (forall c <- s.pending :: s.pending[c].coin == c && s.pending[c].limitPx > 0.0)
  }

  lemma OpenEntryIsPositive(s: SimState, c: Coin)
    requires Tradeable(s) && c in s.open
    ensures s.open[c].terms.coin == c && s.open[c].terms.entryPx > 0.0
  {
  }

  lemma CountersDoNotTrade(s: SimState, r: BacktestResult)
    requires Tradeable(s)
    ensures Tradeable(s.(result := r))
  {
  }

  lemma AdvancingIsTradeable(s: SimState, c: Coin, p: Position)
    requires Tradeable(s) && c in s.open && p.terms == s.open[c].terms
    ensures Tradeable(s.(open := s.open[c := p]))
  {
  }

  lemma RestingIsTradeable(s: SimState, o: MakerOrder, r: BacktestResult)
    requires Tradeable(s) && o.coin !in s.open && o.limitPx > 0.0
    ensures Tradeable(s.(pending := s.pending[o.coin := o], result := r))
  {
  }

  lemma OpeningIsTradeable(s: SimState, p: Position)
    requires Tradeable(s) && p.terms.coin !in s.pending && p.terms.entryPx > 0.0
    ensures Tradeable(s.(open := s.open[p.terms.coin := p]))
  {
  }

  function AfterExits(cfg: SimConfig, s: SimState, coin: Coin, price: real, ts: Instant): (t: SimState)
    requires Tradeable(s)
    ensures Tradeable(t)
  {
    hide Advance, ExitOf, Booked;
    if coin !in s.open then s else
      var p := Advance(cfg, s.open[coin], price);
      match ExitOf(cfg, p, price, ts)
      case None => s.(open := s.open[coin := p])
      case Some(e) =>
        s.(open := s.open - {coin},
           result := s.result.(trades := s.result.trades + [Booked(cfg, p, e.px, ts, e.reason)]))
  }

  predicate TimedOut(cfg: SimConfig, o: MakerOrder, ts: Instant)
  {
    cfg.makerFillTimeoutSeconds > 0.0 && ts - o.placedTs >= cfg.makerFillTimeoutSeconds
  }

  /** A resting buy is touched by a print at or below its limit, a sell at or above. */
  predicate Touches(side: Side, limitPx: real, price: real)
  {
    if side == Long then price <= limitPx else price >= limitPx
  }

  function AfterFills(cfg: SimConfig, s: SimState, coin: Coin, price: real, ts: Instant): (t: SimState)
    requires Tradeable(s)
    ensures Tradeable(t)
  {
    hide Opened, TimedOut, Touches;
    if coin !in s.pending then s else
      var o := s.pending[coin];
      if TimedOut(cfg, o, ts) then
        s.(pending := s.pending - {coin},
           result := s.result.(expired := s.result.expired + 1, skipped := s.result.skipped + 1))
      else if !Touches(o.side, o.limitPx, price) then s
      else
        s.(pending := s.pending - {coin},
           open := s.open[coin := Opened(cfg, coin, o.side, o.limitPx, ts, o.confidence)],
           result := s.result.(filled := s.result.filled + 1))
  }

  predicate Refused(cfg: SimConfig, s: SimState, signal: Signal)
  {
    || signal.coin in s.open
    || signal.coin in s.pending
    || |s.open| + |s.pending| >= cfg.maxConcurrent
    || signal.entryMarkPrice <= 0.0
  }

  function AfterSignal(cfg: SimConfig, s: SimState, signal: Signal): (t: SimState)
    requires Tradeable(s)
    ensures Tradeable(t)
  {
    hide Opened;
    if Refused(cfg, s, signal) then
      s.(result := s.result.(skipped := s.result.skipped + 1))
    else
      var confidence := Clamp(0.0, 1.0, signal.confidence);
      if cfg.makerEntryEnabled then
        s.(pending := s.pending[signal.coin :=
             MakerOrder(signal.coin, signal.side, signal.entryMarkPrice, signal.timestamp, confidence)],
           result := s.result.(placed := s.result.placed + 1))
      else
        s.(open := s.open[signal.coin :=
             Opened(cfg, signal.coin, signal.side, signal.entryMarkPrice, signal.timestamp, confidence)])
  }

  function PriceOf(event: Event): Option<real>
  {
    if event.coin.None? then None else
      match event.payload
      case Trade(px) => Some(px)
      case AssetCtx(markPx) => Some(markPx)
      case OtherPayload => None
  }

  /** Books after the price part of an event: exits before fills. */
  function AfterPrice(cfg: SimConfig, s: SimState, event: Event): (t: SimState)
    requires Tradeable(s)
    ensures Tradeable(t)
  {
    hide AfterExits, AfterFills;
    var s1 := s.(result := s.result.(processed := s.result.processed + 1));
    match PriceOf(event)
    case None => s1
    case Some(price) =>
      var coin := event.coin.value;
      AfterFills(cfg, AfterExits(cfg, s1.(marks := s1.marks[coin := price]), coin, price, event.ts),
                 coin, price, event.ts)
  }

  /** One iteration of the replay loop; `response` is what the strategy returned. */
  function AfterEvent(cfg: SimConfig, s: SimState, event: Event, response: Option<Signal>): (t: SimState)
    requires Tradeable(s)
    ensures Tradeable(t)
  {
    hide AfterPrice, AfterSignal;
    var s1 := AfterPrice(cfg, s, event);
    match response
    case None => s1
    case Some(signal) =>
      AfterSignal(cfg, s1.(result := s1.result.(signals := s1.result.signals + 1)), signal)
  }

  function AfterEvents(cfg: SimConfig, s: SimState, events: seq<Event>, responses: seq<Option<Signal>>): (t: SimState)
    requires Tradeable(s) && |events| == |responses|
    ensures Tradeable(t)
  {
    hide AfterEvent;
    if events == [] then s else
      var n := |events| - 1;
      AfterEvent(cfg, AfterEvents(cfg, s, events[..n], responses[..n]), events[n], responses[n])
  }

  // ------------------------------------------------------------- conservation

  /** Every signal is exactly one of skipped, resting, open or traded, and every
      order placed is exactly one of filled, expired or resting. */
  predicate Conserved(cfg: SimConfig, s: SimState)
  {
    && Tradeable(s)
    && |s.open| + |s.pending| <= (if cfg.maxConcurrent > 0 then cfg.maxConcurrent else 0)
    && s.result.signals == s.result.skipped + |s.pending| + |s.open| + |s.result.trades|
    && s.result.placed == s.result.filled + s.result.expired + |s.pending|
  }

  lemma MapInsertSize<V>(m: map<Coin, V>, c: Coin, v: V)
    requires c !in m
    ensures |m[c := v]| == |m| + 1
  {
    assert m[c := v].Keys == m.Keys + {c};
  }

  lemma MapReplaceSize<V>(m: map<Coin, V>, c: Coin, v: V)
    requires c in m
    ensures |m[c := v]| == |m|
  {
    assert m[c := v].Keys == m.Keys;
  }

  lemma MapRemoveSize<V>(m: map<Coin, V>, c: Coin)
    requires c in m
    ensures |m - {c}| == |m| - 1
  {
    assert (m - {c}).Keys == m.Keys - {c};
  }

  lemma ExitsConserve(cfg: SimConfig, s: SimState, coin: Coin, price: real, ts: Instant)
    requires Conserved(cfg, s)
    ensures Conserved(cfg, AfterExits(cfg, s, coin, price, ts))
  {
    hide Advance, ExitOf, Booked;
    if coin in s.open {
      MapReplaceSize(s.open, coin, Advance(cfg, s.open[coin], price));
      MapRemoveSize(s.open, coin);
    }
  }

  lemma FillsConserve(cfg: SimConfig, s: SimState, coin: Coin, price: real, ts: Instant)
    requires Conserved(cfg, s)
    ensures Conserved(cfg, AfterFills(cfg, s, coin, price, ts))
  {
    hide Opened, TimedOut, Touches;
    if coin in s.pending {
      MapRemoveSize(s.pending, coin);
      var o := s.pending[coin];
      MapInsertSize(s.open, coin, Opened(cfg, coin, o.side, o.limitPx, ts, o.confidence));
    }
  }

  lemma SignalConserves(cfg: SimConfig, s: SimState, signal: Signal)
    requires Conserved(cfg, s)
    ensures Conserved(cfg, AfterSignal(cfg, s.(result := s.result.(signals := s.result.signals + 1)), signal))
  {
    hide Opened;
    var t := s.(result := s.result.(signals := s.result.signals + 1));
    if !Refused(cfg, t, signal) {
      var confidence := Clamp(0.0, 1.0, signal.confidence);
      MapInsertSize(s.pending, signal.coin,
        MakerOrder(signal.coin, signal.side, signal.entryMarkPrice, signal.timestamp, confidence));
      MapInsertSize(s.open, signal.coin,
        Opened(cfg, signal.coin, signal.side, signal.entryMarkPrice, signal.timestamp, confidence));
    }
  }

  lemma ConservedIsTradeable(cfg: SimConfig, s: SimState)
    requires Conserved(cfg, s)
    ensures Tradeable(s)
  {
  }

  lemma ObservingConserves(cfg: SimConfig, s: SimState, marks: map<Coin, real>, processed: nat)
    requires Conserved(cfg, s)
    ensures Conserved(cfg, s.(marks := marks, result := s.result.(processed := processed)))
  {
  }

  lemma EventConserves(cfg: SimConfig, s: SimState, event: Event, response: Option<Signal>)
    requires Conserved(cfg, s)
    ensures Conserved(cfg, AfterEvent(cfg, s, event, response))
  {
    hide AfterExits, AfterFills, AfterSignal, Conserved, Tradeable;
    assert Tradeable(s) by { ConservedIsTradeable(cfg, s); }
    var s1 := s.(result := s.result.(processed := s.result.processed + 1));
    assert Conserved(cfg, s1) by { ObservingConserves(cfg, s, s.marks, s1.result.processed); }
    if PriceOf(event).Some? {
      var coin, price := event.coin.value, PriceOf(event).value;
      var s2 := s1.(marks := s1.marks[coin := price]);
      ObservingConserves(cfg, s1, s2.marks, s1.result.processed);
      ExitsConserve(cfg, s2, coin, price, event.ts);
      FillsConserve(cfg, AfterExits(cfg, s2, coin, price, event.ts), coin, price, event.ts);
    }
    if response.Some? {
      assert Tradeable(AfterPrice(cfg, s, event));
      SignalConserves(cfg, AfterPrice(cfg, s, event), response.value);
    }
  }

  /** The books of a new simulator add up. */
  lemma EmptyConserves(cfg: SimConfig)
    ensures Conserved(cfg, SimState(map[], map[], map[], EMPTY_RESULT))
  {
  }

  /** Conservation in every reachable state of every run. */
  lemma {:induction false} RunConserves(cfg: SimConfig, s: SimState, events: seq<Event>, responses: seq<Option<Signal>>)
    requires Conserved(cfg, s) && |events| == |responses|
    ensures Conserved(cfg, AfterEvents(cfg, s, events, responses))
  {
    hide AfterEvent;
    if events != [] {
      var n := |events| - 1;
      RunConserves(cfg, s, events[..n], responses[..n]);
      EventConserves(cfg, AfterEvents(cfg, s, events[..n], responses[..n]), events[n], responses[n]);
    }
  }

  // ------------------------------------------------------------- the objects

  class OpenPosition {
    const terms: Terms
    var stopPx: real
    var peakPx: real
    var breakEvenArmed: bool

    constructor (p: Position)
      ensures View() == p
    {
      terms, stopPx, peakPx, breakEvenArmed := p.terms, p.stopPx, p.peakPx, p.breakEvenArmed;
    }

    function View(): Position
      reads this
    {
      Position(terms, stopPx, peakPx, breakEvenArmed)
    }
  }

  class BacktestSimulator {
    var cfg: SimConfig
    var open: map<Coin, OpenPosition>
    var pending: map<Coin, MakerOrder>
    var marks: map<Coin, real>
    var result: BacktestResult
    ghost var book: map<Coin, Position>  // the values of the open positions
    ghost var repr: set<OpenPosition>    // every position object ever opened

    ghost function View(): SimState
      reads this
    {
      SimState(book, pending, marks, result)
    }

    ghost predicate Valid()
      reads this, repr
    {
      && open.Keys == book.Keys
      && (forall c <- open :: open[c] in repr && open[c].View() == book[c])
      && (forall a, b | a in open && b in open && a != b :: open[a] != open[b])
      && Tradeable(View())
    }

    constructor (cfg: SimConfig)
      ensures Valid() && this.cfg == cfg && repr == {}
      ensures open == map[] && View() == SimState(map[], map[], map[], EMPTY_RESULT)
    {
      this.cfg := cfg;
      book, repr := map[], {};
      open, pending, marks, result := map[], map[], map[], EMPTY_RESULT;
    }

    method CheckExits(coin: Coin, price: real, ts: Instant)
      requires Valid()
      modifies this`open, this`result, this`book, repr
      ensures Valid() && fresh(repr - old(repr))
      ensures View() == AfterExits(cfg, old(View()), coin, price, ts)
    {
      hide Advance, ExitOf, Booked, Tradeable, Valid;
      BooksMatch();
      if coin !in open { return; }
      MarkPosition(coin, price);
      var exit := DecideExit(open[coin], price, ts);
      if exit.Some? { Close(coin, exit.value.px, ts, exit.value.reason); }
    }

    /** Advance one open position in place. */
    method MarkPosition(coin: Coin, price: real)
      requires Valid() && coin in open
      modifies this`book, open[coin]
      ensures Valid() && coin in open && old(book[coin]).terms.entryPx > 0.0 && book == old(book)[coin := Advance(cfg, old(book[coin]), price)]
      ensures open[coin].View() == book[coin]
    {
      hide Advance, Tradeable;
      OpenEntryIsPositive(View(), coin);
      AdvancingIsTradeable(View(), coin, Advance(cfg, book[coin], price));
      AdvancePosition(open[coin], price);
      book := book[coin := open[coin].View()];
    }

    /** Book one open position and let go of it. */
    method Close(coin: Coin, exitPx: real, ts: Instant, reason: ExitReason)
      requires Valid() && coin in book
      modifies this`open, this`result, this`book
      ensures Valid() && book == old(book) - {coin} && open == old(open) - {coin}
      ensures result == old(result).(trades := old(result.trades) + [Booked(cfg, old(book[coin]), exitPx, ts, reason)])
    {
      hide Booked, Tradeable;
      CloseIsTradeable(View(), coin);
      CountersDoNotTrade(View().(open := book - {coin}),
        result.(trades := result.trades + [Booked(cfg, book[coin], exitPx, ts, reason)]));
      BookExit(open[coin], exitPx, ts, reason);
      open, book := open - {coin}, book - {coin};
    }

    /** Peak, then break-even. */
    method AdvancePosition(pos: OpenPosition, price: real)
      requires pos.terms.entryPx != 0.0
      modifies pos
      ensures pos.View() == Advance(cfg, old(pos.View()), price)
    {
      var entry, isLong := pos.terms.entryPx, pos.terms.side == Long;
      pos.peakPx := if isLong then RMax(pos.peakPx, price) else RMin(pos.peakPx, price);
      if cfg.breakEvenTriggerPct > 0.0 && !pos.breakEvenArmed {
        var gain := (price - entry) / entry;
        if !isLong { gain := -gain; }
        if gain >= cfg.breakEvenTriggerPct {
          if isLong {
            pos.stopPx := RMax(pos.stopPx, entry * (1.0 + cfg.feeBufferPct));
          } else {
            pos.stopPx := RMin(pos.stopPx, entry * (1.0 - cfg.feeBufferPct));
          }
          pos.breakEvenArmed := true;
        }
      }
    }

    /** Bracket, then trail, then time stop. */
    method DecideExit(pos: OpenPosition, price: real, ts: Instant) returns (exit: Option<Exit>)
      ensures exit == ExitOf(cfg, pos.View(), price, ts)
    {
      exit := None;
      var isLong := pos.terms.side == Long;
      if isLong {
        if price <= pos.stopPx {
          exit := Some(Exit(pos.stopPx, StopExit));
        } else if cfg.takeProfitPct > 0.0 && price >= pos.terms.tpPx {
          exit := Some(Exit(pos.terms.tpPx, TakeProfitExit));
        }
      } else {
        if price >= pos.stopPx {
          exit := Some(Exit(pos.stopPx, StopExit));
        } else if cfg.takeProfitPct > 0.0 && price <= pos.terms.tpPx {
          exit := Some(Exit(pos.terms.tpPx, TakeProfitExit));
        }
      }
      var callback := cfg.trailingCallbackPct;
      if exit == None && callback > 0.0 {
        if isLong {
          if price <= pos.peakPx * (1.0 - callback) { exit := Some(Exit(price, TrailingStopExit)); }
        } else if price >= pos.peakPx * (1.0 + callback) {
          exit := Some(Exit(price, TrailingStopExit));
        }
      }
      if exit == None && cfg.timeStopSeconds > 0.0 {
        if ts - pos.terms.entryTs >= cfg.timeStopSeconds { exit := Some(Exit(price, TimeStopExit)); }
      }
    }

    method BookExit(pos: OpenPosition, exitPx: real, ts: Instant, reason: ExitReason)
      modifies this`result
      ensures result == old(result).(trades := old(result.trades) + [Booked(cfg, pos.View(), exitPx, ts, reason)])
    {
      hide FillPx, GrossPnl, Fees, RMultiple;
      var fillPx, gross := PriceFill(pos.terms, exitPx);
      var fees := TotalFees(pos.terms, fillPx);
      var net := gross - fees;
      var r := PerRisk(pos.terms, net);
      result := result.(trades := result.trades + [ClosedTrade(pos.terms, fillPx, ts, gross, fees, net, r, reason)]);
    }

    method PriceFill(terms: Terms, exitPx: real) returns (fillPx: real, gross: real)
      ensures fillPx == FillPx(cfg, terms.side, exitPx) && gross == GrossPnl(terms, fillPx)
    {
      var slip := exitPx * cfg.slippageBps / BPS;
      if terms.side == Long {
        fillPx := exitPx - slip;
        gross := (fillPx - terms.entryPx) * terms.qty;
      } else {
        fillPx := exitPx + slip;
        gross := (terms.entryPx - fillPx) * terms.qty;
      }
    }

    method TotalFees(terms: Terms, fillPx: real) returns (fees: real)
      ensures fees == Fees(cfg, terms, fillPx)
    {
      var exitNotional := fillPx * terms.qty;
      var exitFee := exitNotional * cfg.takerFeeBps / BPS;
      fees := terms.entryFee + exitFee;
    }

    method PerRisk(terms: Terms, net: real) returns (r: real)
      ensures r == RMultiple(terms, net)
    {
      r := if terms.risk > 0.0 then net / terms.risk else 0.0;
    }

    method OpenPositionAt(coin: Coin, side: Side, entryPx: real, ts: Instant, confidence: real)
      requires Valid() && entryPx > 0.0 && coin !in pending
      modifies this`open, this`book, this`repr
      ensures Valid() && fresh(repr - old(repr))
      ensures View() == old(View()).(open := old(View()).open[coin := Opened(cfg, coin, side, entryPx, ts, confidence)])
    {
      hide Opened, Tradeable;
      var p := PriceEntry(coin, side, entryPx, ts, confidence);
      OpeningIsTradeable(View(), p);
      var pos := new OpenPosition(p);
      Install(pos);
    }

    method Install(pos: OpenPosition)
      requires Valid() && pos !in repr && Tradeable(View().(open := book[pos.terms.coin := pos.View()]))
      modifies this`open, this`book, this`repr
      ensures Valid() && repr == old(repr) + {pos}
      ensures View() == old(View()).(open := old(book)[pos.terms.coin := pos.View()])
    {
      hide Tradeable;
      open, book, repr := open[pos.terms.coin := pos], book[pos.terms.coin := pos.View()], repr + {pos};
    }

    /** Size, fee and bracket of a new position. */
    method PriceEntry(coin: Coin, side: Side, entryPx: real, ts: Instant, confidence: real) returns (p: Position)
      requires entryPx > 0.0
      ensures p == Opened(cfg, coin, side, entryPx, ts, confidence)
    {
      var notional := cfg.minNotional + (cfg.maxNotional - cfg.minNotional) * confidence;
      var qty := notional / entryPx;
      var entryRate := if cfg.makerEntryEnabled then cfg.makerFeeBps else cfg.takerFeeBps;
      var entryFee := notional * entryRate / BPS;
      var tpPx, stopPx;
      if side == Long {
        tpPx, stopPx := entryPx * (1.0 + cfg.takeProfitPct), entryPx * (1.0 - cfg.stopLossPct);
      } else {
        tpPx, stopPx := entryPx * (1.0 - cfg.takeProfitPct), entryPx * (1.0 + cfg.stopLossPct);
      }
      p := Position(Terms(coin, side, entryPx, qty, notional, ts, tpPx, notional * cfg.stopLossPct, entryFee, confidence),
                    stopPx, entryPx, false);
    }

    method CheckPendingFills(coin: Coin, price: real, ts: Instant)
      requires Valid()
      modifies this`open, this`pending, this`result, this`book, this`repr
      ensures Valid() && fresh(repr - old(repr))
      ensures View() == AfterFills(cfg, old(View()), coin, price, ts)
    {
      hide Opened;
      if coin !in pending { return; }
      var order := pending[coin];
      var timeout := cfg.makerFillTimeoutSeconds;
      if timeout > 0.0 && ts - order.placedTs >= timeout {
        pending := pending - {coin};
        result := result.(expired := result.expired + 1, skipped := result.skipped + 1);
        return;
      }
      var filled := if order.side == Long then price <= order.limitPx else price >= order.limitPx;
      if !filled { return; }
      pending := pending - {coin};
      result := result.(filled := result.filled + 1);
      OpenPositionAt(coin, order.side, order.limitPx, ts, order.confidence);
    }

    method OpenFromSignal(signal: Signal)
      requires Valid()
      modifies this`open, this`pending, this`result, this`book, this`repr
      ensures Valid() && fresh(repr - old(repr))
      ensures View() == AfterSignal(cfg, old(View()), signal)
    {
      hide Opened, Clamp, Tradeable, Valid;
      BooksMatch();
      if signal.coin in open || signal.coin in pending || |open| + |pending| >= cfg.maxConcurrent {
        Skip();
        return;
      }
      var entryPx := signal.entryMarkPrice;
      if entryPx <= 0.0 {
        Skip();
        return;
      }
      var confidence := Clamp(0.0, 1.0, signal.confidence);
      if cfg.makerEntryEnabled {
        Rest(MakerOrder(signal.coin, signal.side, entryPx, signal.timestamp, confidence));
        return;
      }
      OpenPositionAt(signal.coin, signal.side, entryPx, signal.timestamp, confidence);
    }

    lemma BooksMatch()
      requires Valid()
      ensures |open| == |book| && open.Keys == book.Keys && Tradeable(View()) && forall c <- open :: open[c] in repr
    {
      assert |open| == |open.Keys| == |book.Keys| == |book|;
    }

    method Skip()
      requires Valid()
      modifies this`result
      ensures Valid() && View() == old(View()).(result := old(result).(skipped := old(result).skipped + 1))
    {
      hide Tradeable;
      CountersDoNotTrade(View(), result.(skipped := result.skipped + 1));
      result := result.(skipped := result.skipped + 1);
    }

    method Rest(order: MakerOrder)
      requires Valid() && order.coin !in open && order.limitPx > 0.0
      modifies this`pending, this`result
      ensures Valid()
      ensures View() == old(View()).(pending := old(pending)[order.coin := order],
                                     result := old(result).(placed := old(result).placed + 1))
    {
      hide Tradeable;
      RestingIsTradeable(View(), order, result.(placed := result.placed + 1));
      pending := pending[order.coin := order];
      result := result.(placed := result.placed + 1);
    }

    method PriceAndTs(event: Event) returns (price: Option<real>)
      requires Valid()
      modifies this`marks
      ensures Valid() && price == PriceOf(event)
      ensures View() == old(View()).(marks := if price.None? then old(marks) else old(marks)[event.coin.value := price.value])
    {
      price := None;
      if event.coin.Some? {
        if event.payload.Trade? {
          marks := marks[event.coin.value := event.payload.px];
          price := Some(event.payload.px);
        } else if event.payload.AssetCtx? {
          marks := marks[event.coin.value := event.payload.markPx];
          price := Some(event.payload.markPx);
        }
      }
    }

    method OnPrice(event: Event)
      requires Valid()
      modifies this`open, this`pending, this`marks, this`result, this`book, this`repr, repr
      ensures Valid() && fresh(repr - old(repr))
      ensures View() == AfterPrice(cfg, old(View()), event)
    {
      hide AfterExits, AfterFills, Tradeable;
      CountersDoNotTrade(View(), result.(processed := result.processed + 1));
      result := result.(processed := result.processed + 1);
      var price := PriceAndTs(event);
      if price.Some? {
        CheckExits(event.coin.value, price.value, event.ts);
        CheckPendingFills(event.coin.value, price.value, event.ts);
      }
    }

    /** The loop body: `response` is what the strategy answers to the event. */
    method OnEvent(event: Event, response: Option<Signal>)
      requires Valid()
      modifies this`open, this`pending, this`marks, this`result, this`book, this`repr, repr
      ensures Valid() && fresh(repr - old(repr))
      ensures View() == AfterEvent(cfg, old(View()), event, response)
    {
      hide AfterPrice, AfterSignal, Tradeable;
      OnPrice(event);
      if response.Some? {
        CountersDoNotTrade(View(), result.(signals := result.signals + 1));
        result := result.(signals := result.signals + 1);
        OpenFromSignal(response.value);
      }
    }

    method Run(events: seq<Event>, responses: seq<Option<Signal>>)
      requires Valid() && Conserved(cfg, View()) && |events| == |responses|
      modifies this, repr
      ensures Valid() && open == map[] && pending == map[]
      ensures var end := AfterEvents(cfg, old(View()), events, responses);
              && marks == end.marks
              && BooksClosed(cfg, end, result)
      ensures result.signals == result.skipped + |result.trades|
      ensures result.placed == result.filled + result.expired
    {
      hide AfterEvent, Conserved, BooksClosed;
      for i := 0 to |events|
        invariant Valid() && cfg == old(cfg) && fresh(repr - old(repr))
        invariant View() == AfterEvents(cfg, old(View()), events[..i], responses[..i])
      {
        assert events[..i+1][..i] == events[..i] && responses[..i+1][..i] == responses[..i];
        OnEvent(events[i], responses[i]);
      }
      assert events[..|events|] == events && responses[..|events|] == responses;
      RunConserves(cfg, old(View()), events, responses);
      CloseRemaining();
    }

    /** Mark-to-market whatever is still open, in some order of the open coins. */
    method CloseRemaining()
      requires Valid()
      modifies this`open, this`pending, this`result, this`book, this`repr
      ensures Valid() && open == map[] && pending == map[] && marks == old(marks)
      ensures BooksClosed(cfg, old(View()), result)
      ensures Conserved(cfg, old(View())) ==>
                result.signals == result.skipped + |result.trades| && result.placed == result.filled + result.expired
    {
      hide MarkedToMarket, Tradeable;
      result := result.(expired := result.expired + |pending|, skipped := result.skipped + |pending|);
      pending := map[];
      DroppingOrdersIsTradeable(old(View()), result);
      var order := ListOf(open.Keys);
      CloseAll(order);
      MarkedIgnoresCounters(cfg, old(View()), old(View()).(pending := map[], result :=
        old(result).(expired := old(result).expired + |old(pending)|, skipped := old(result).skipped + |old(pending)|)), order);
    }

    method CloseAll(order: seq<Coin>)
      requires Valid() && IsOrderOf(order, book.Keys)
      modifies this`open, this`result, this`book
      ensures Valid() && book == map[]
      ensures result == old(result).(trades := old(result.trades) + MarkedToMarket(cfg, old(View()), order))
    {
      hide Valid, Marked, MarkedToMarket;
      NothingMarked(cfg, View());
      for i := 0 to |order|
        invariant Valid() && |book| == |order| - i && cfg == old(cfg)
        invariant forall j | i <= j < |order| :: order[j] in book && book[order[j]] == old(book)[order[j]]
        invariant result == old(result).(trades := old(result.trades) + MarkedToMarket(cfg, old(View()), order[..i]))
      {
        MarkedStep(cfg, old(View()), View(), order, i);
        CloseAtMark(order[i]);
      }
      assert order[..|order|] == order;
    }

    method CloseAtMark(key: Coin)
      requires Valid() && key in book
      modifies this`open, this`result, this`book
      ensures Valid() && book == old(book) - {key} && |book| == |old(book)| - 1
      ensures result == old(result).(trades := old(result.trades) + [Marked(cfg, old(View()), key)])
    {
      hide Booked, Tradeable, Valid;
      BooksMatch();
      MapRemoveSize(book, key);
      var pos := open[key];
      var mark := if key in marks then marks[key] else pos.terms.entryPx;
      SameTerms(key);
      Close(key, mark, pos.terms.entryTs, EodMark);
    }

    lemma SameTerms(key: Coin)
      requires Valid() && key in open
      ensures key in book && open[key].terms == book[key].terms
    {
    }
  }

  /** `order` lists the members of `keys`, each once. */
  ghost predicate IsOrderOf(order: seq<Coin>, keys: set<Coin>)
  {
    && (forall c :: c in keys <==> c in order)
    && (forall i, j | 0 <= i < j < |order| :: order[i] != order[j])
    && |order| == |keys|
  }

  method ListOf(keys: set<Coin>) returns (order: seq<Coin>)
    ensures IsOrderOf(order, keys)
  {
    order := [];
    var rest := keys;
    while rest != {}
      invariant forall c :: c in keys <==> c in rest || c in order
      invariant forall c <- order :: c !in rest
      invariant forall i, j | 0 <= i < j < |order| :: order[i] != order[j]
      invariant |order| + |rest| == |keys|
    {
      var c :| c in rest;
      order, rest := order + [c], rest - {c};
    }
  }

  /** A position booked at its coin's last mark, or at entry if never marked. */
  function Marked(cfg: SimConfig, s: SimState, c: Coin): ClosedTrade
    requires c in s.open
  {
    var p := s.open[c];
    Booked(cfg, p, if c in s.marks then s.marks[c] else p.terms.entryPx, p.terms.entryTs, EodMark)
  }

  /** The end-of-run trades for the coins of `order`. */
  function MarkedToMarket(cfg: SimConfig, s: SimState, order: seq<Coin>): (trades: seq<ClosedTrade>)
    requires forall c <- order :: c in s.open
    ensures |trades| == |order|
  {
    if order == [] then [] else
      MarkedToMarket(cfg, s, order[..|order|-1]) + [Marked(cfg, s, order[|order|-1])]
  }

  lemma MarkedStep(cfg: SimConfig, s: SimState, t: SimState, order: seq<Coin>, i: nat)
    requires i < |order| && (forall d <- order :: d in s.open)
    requires order[i] in t.open && t.open[order[i]] == s.open[order[i]] && t.marks == s.marks
    ensures MarkedToMarket(cfg, s, order[..i+1]) == MarkedToMarket(cfg, s, order[..i]) + [Marked(cfg, t, order[i])]
  {
    hide Booked;
    assert order[..i+1][..i] == order[..i];
  }

  lemma {:induction false} MarkedIgnoresCounters(cfg: SimConfig, s: SimState, t: SimState, order: seq<Coin>)
    requires s.open == t.open && s.marks == t.marks && forall c <- order :: c in s.open
    ensures MarkedToMarket(cfg, s, order) == MarkedToMarket(cfg, t, order)
  {
    if order != [] {
      MarkedIgnoresCounters(cfg, s, t, order[..|order|-1]);
    }
  }

  lemma CloseIsTradeable(s: SimState, key: Coin)
    requires Tradeable(s)
    ensures Tradeable(s.(open := s.open - {key}))
  {
  }

  lemma DroppingOrdersIsTradeable(s: SimState, r: BacktestResult)
    requires Tradeable(s)
    ensures Tradeable(s.(pending := map[], result := r))
  {
  }

  lemma NothingMarked(cfg: SimConfig, s: SimState)
    ensures MarkedToMarket(cfg, s, []) == []
  {
  }

  /** The final result: resting orders expire unfilled and every open position
      is marked to market exactly once. */
  ghost predicate BooksClosed(cfg: SimConfig, s: SimState, r: BacktestResult)
  {
    exists order: seq<Coin> | IsOrderOf(order, s.open.Keys) ::
      r == s.result.(
        expired := s.result.expired + |s.pending|,
        skipped := s.result.skipped + |s.pending|,
        trades := s.result.trades + MarkedToMarket(cfg, s, order))
  }

  /** What closing adds to the counters: one trade per open position, one expired
      and skipped order per resting one. */
  lemma ClosingBalances(cfg: SimConfig, s: SimState, r: BacktestResult)
    requires BooksClosed(cfg, s, r)
    ensures |r.trades| == |s.result.trades| + |s.open| && r.signals == s.result.signals
    ensures r.skipped == s.result.skipped + |s.pending| && r.expired == s.result.expired + |s.pending|
    ensures r.placed == s.result.placed && r.filled == s.result.filled
  {
    hide MarkedToMarket;
    assert |s.open| == |s.open.Keys|;
  }
}
