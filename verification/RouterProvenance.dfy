/** Every position the live router opens is that of a signal it admitted, said of
    the signals, the exchange's answers and the marks alone. */
module RouterProvenance {
  import opened Prelude
  import opened EntryOrders
  import Sim = Simulator
  import Pm = PositionManagement

  /** What happens around the router.  Between its own steps positions are
      managed: they change and leave, but none appears. */
  datatype Act =
    | Route(signal: Sim.Signal, ctx: EntryContext)
    | Mark(coin: Coin, px: real, at: Instant, atrPct: Option<real>)
    | Leave(p: Pm.Managed, response: Pm.Response, on: Instant)
    | Manage(live: Pm.Live)

  function After(settings: Pm.Settings, slippagePct: real, v: RouterView, act: Act): RouterView
  {
    match act
    case Route(signal, ctx) => AfterRoute(settings, slippagePct, v, signal, ctx)
    case Mark(coin, px, at, atrPct) => AfterOnMark(settings, v, coin, px, at, atrPct)
    case Leave(p, response, on) => AfterRouteExit(slippagePct, v, p, response, on)
    case Manage(live) => if live.book.Keys <= v.live.book.Keys then v.(live := live) else v
  }

  function Run(settings: Pm.Settings, slippagePct: real, v: RouterView, acts: seq<Act>): RouterView
  {
    if acts == [] then v
    else After(settings, slippagePct, Run(settings, slippagePct, v, acts[..|acts| - 1]), acts[|acts| - 1])
  }

  // ------------------------------------------------------------- what an entry is

  /** The offset, if there is one, moves the quote towards the market. */
  function Quote(settings: Pm.Settings, s: Sim.Signal): real
  {
    if settings.makerEntryOffsetBps <= 0.0 then s.entryMarkPrice
    else match s.side
      case Long => s.entryMarkPrice * (1.0 + settings.makerEntryOffsetBps / 10000.0)
      case Short => s.entryMarkPrice * (1.0 - settings.makerEntryOffsetBps / 10000.0)
  }

  /** How far from entry the first stop is: two percent, or the scaled ATR
      reading but no less than its floor. */
  predicate FirstStopAway(settings: Pm.Settings, atrPct: Option<real>, dist: real)
  {
    if settings.atrStopEnabled && atrPct.Some? && atrPct.value > 0.0 then
      && dist >= atrPct.value * settings.atrStopMult && dist >= settings.atrStopMinPct
      && (dist == atrPct.value * settings.atrStopMult || dist == settings.atrStopMinPct)
    else dist == 0.02
  }

  predicate StopsAway(p: Pm.Managed, dist: real)
  {
    p.stopPx == match p.side case Long => p.entryPx - p.entryPx * dist case Short => p.entryPx + p.entryPx * dist
  }

  /** The signal's own side and coin, at this price and size, unarmed, with the
      peak at the entry and the first stop that far against it. */
  ghost predicate Enters(settings: Pm.Settings, p: Pm.Managed, s: Sim.Signal, entryPx: real, size: real, now: Instant, atrPct: Option<real>)
  {
    && p.coin == s.coin && p.side == s.side && p.entryPx == entryPx && p.size == size
    && !p.breakEvenArmed && p.peakPx == Some(entryPx) && p.openedAt == now
    && exists dist :: FirstStopAway(settings, atrPct, dist) && StopsAway(p, dist)
  }

  /** The gates that do not depend on the books. */
  predicate Cleared(s: Sim.Signal, ctx: EntryContext)
  {
    && !ctx.tripped && !ctx.feedWarmingUp && (ctx.confidenceFloor <= 0.0 || s.confidence >= ctx.confidenceFloor)
    && ctx.size.Some? && ctx.size.value > 0.0 && ctx.response == Pm.Accepted
  }

  predicate AtOrBetter(side: Side, px: real, limit: real)
  {
    match side case Long => px <= limit case Short => px >= limit
  }

  predicate Through(side: Side, limit: real, px: real)
  {
    match side case Long => limit > px case Short => limit < px
  }

  predicate Marks(act: Act, c: Coin) { act.Mark? && act.coin == c }

  ghost predicate Arrived(acts: seq<Act>, i: nat, n: nat, c: Coin)
    requires n <= |acts|
  {
    exists k | i < k < n :: Marks(acts[k], c)
  }

  predicate InTime(settings: Pm.Settings, at: Instant, placedAt: Instant)
  {
    settings.maxHoldSeconds <= 0.0 || at - placedAt < settings.maxHoldSeconds
  }

  /** Act `k` leaves the order of route `i` resting. */
  ghost predicate Stays(settings: Pm.Settings, acts: seq<Act>, i: nat, k: nat)
    requires i < k < |acts| && acts[i].Route?
  {
    var s := acts[i].signal;
    Marks(acts[k], s.coin) ==>
      if !Arrived(acts, i, k, s.coin) then !Through(s.side, Quote(settings, s), acts[k].px)
      else !AtOrBetter(s.side, acts[k].px, Quote(settings, s)) && InTime(settings, acts[k].at, acts[i].ctx.now)
  }

  /** Signal `i` was cleared to rest, and rests still at act `n`. */
  ghost predicate RestsFrom(settings: Pm.Settings, acts: seq<Act>, n: nat, i: nat)
    requires n <= |acts|
  {
    && i < n && acts[i].Route? && Cleared(acts[i].signal, acts[i].ctx)
    && settings.botDryRun && settings.makerEntryEnabled
    && forall k | i < k < n :: Stays(settings, acts, i, k)
  }

  ghost predicate OrderOf(settings: Pm.Settings, acts: seq<Act>, n: nat, i: nat, o: Resting)
    requires n <= |acts| && i < n && acts[i].Route?
  {
    var s, ctx := acts[i].signal, acts[i].ctx;
    && o.coin == s.coin && o.side == s.side && o.limitPx == Quote(settings, s)
    && ctx.size == Some(o.size) && o.placedAt == ctx.now
    && (o.arrived <==> Arrived(acts, i, n, s.coin))
  }

  ghost predicate Explained(settings: Pm.Settings, acts: seq<Act>, n: nat, o: Resting)
    requires n <= |acts|
  {
    exists i: nat | i < n :: RestsFrom(settings, acts, n, i) && OrderOf(settings, acts, n, i, o)
  }

  ghost predicate OrdersExplained(settings: Pm.Settings, acts: seq<Act>, n: nat, resting: map<Coin, Resting>)
    requires n <= |acts|
  {
    forall c <- resting :: resting[c].coin == c && Explained(settings, acts, n, resting[c])
  }

  /** Opened by act `k`: at once, by the signal it routes; or by a mark that
      touches the quote of an earlier signal, in time and not the first one. */
  ghost predicate OpenedAt(settings: Pm.Settings, acts: seq<Act>, k: nat, p: Pm.Managed)
    requires k < |acts|
  {
    match acts[k]
    case Route(s, ctx) =>
      && Cleared(s, ctx) && !(settings.botDryRun && settings.makerEntryEnabled)
      && Enters(settings, p, s, s.entryMarkPrice, ctx.size.value, ctx.now, ctx.atrPct)
    case Mark(coin, px, at, atrPct) =>
      exists i: nat | i < k :: RestsFrom(settings, acts, k, i) && FilledBy(settings, acts, k, i, p)
    case _ => false
  }

  ghost predicate FilledBy(settings: Pm.Settings, acts: seq<Act>, k: nat, i: nat, p: Pm.Managed)
    requires i < k < |acts| && acts[k].Mark? && acts[i].Route?
  {
    var s, ctx, mark := acts[i].signal, acts[i].ctx, acts[k];
    && mark.coin == s.coin && Arrived(acts, i, k, s.coin)
    && AtOrBetter(s.side, mark.px, Quote(settings, s)) && InTime(settings, mark.at, ctx.now)
    && ctx.size.Some? && Enters(settings, p, s, Quote(settings, s), ctx.size.value, mark.at, mark.atrPct)
  }

  // ------------------------------------------------------------- one step

  lemma QuotesAgree(settings: Pm.Settings, s: Sim.Signal)
    ensures MakerLimitPrice(settings.makerEntryOffsetBps, s.entryMarkPrice, s.side) == Quote(settings, s)
  {
  }

  lemma EntersAsItsSignal(settings: Pm.Settings, atrPct: Option<real>, s: Sim.Signal, entryPx: real, size: real, now: Instant)
    ensures Enters(settings, EnteredPosition(settings, atrPct, s.coin, s.side, entryPx, size, now), s, entryPx, size, now, atrPct)
  {
    var dist := Pm.StopDistance(settings, atrPct);
    assert FirstStopAway(settings, atrPct, dist);
    hide Pm.StopDistance, FirstStopAway;
    var p := EnteredPosition(settings, atrPct, s.coin, s.side, entryPx, size, now);
    assert entryPx * (1.0 - dist) == entryPx - entryPx * dist && entryPx * (1.0 + dist) == entryPx + entryPx * dist;
    assert StopsAway(p, dist);
  }

  lemma RegisteredHas(live: Pm.Live, p: Pm.Managed)
    ensures Pm.Registered(live, p).book.Keys == live.book.Keys + {p.coin}
    ensures p.peakPx.Some? ==> Pm.Registered(live, p).book[p.coin] == p
  {
  }

  lemma ArrivedLater(acts: seq<Act>, i: nat, n: nat, c: Coin)
    requires i < n < |acts|
    ensures Arrived(acts, i, n + 1, c) <==> Arrived(acts, i, n, c) || Marks(acts[n], c)
  {
  }

  /** An order rests on unless a mark of its coin ends it. */
  lemma RestsOn(settings: Pm.Settings, acts: seq<Act>, n: nat, o: Resting)
    requires n < |acts| && Explained(settings, acts, n, o)
    requires Marks(acts[n], o.coin) ==> RouterOutcome(settings.maxHoldSeconds, o, acts[n].px, acts[n].at) in {Rests, Waits}
    ensures Explained(settings, acts, n + 1, o.(arrived := o.arrived || Marks(acts[n], o.coin)))
  {
    var i: nat :| i < n && RestsFrom(settings, acts, n, i) && OrderOf(settings, acts, n, i, o);
    ArrivedLater(acts, i, n, o.coin);
    hide Arrived, Quote, Cleared;
    assert Stays(settings, acts, i, n);
    hide Stays;
    assert RestsFrom(settings, acts, n + 1, i);
    assert OrderOf(settings, acts, n + 1, i, o.(arrived := o.arrived || Marks(acts[n], o.coin)));
  }

  lemma FillIsItsSignals(settings: Pm.Settings, acts: seq<Act>, n: nat, o: Resting)
    requires n < |acts| && Explained(settings, acts, n, o) && Marks(acts[n], o.coin)
    requires RouterOutcome(settings.maxHoldSeconds, o, acts[n].px, acts[n].at).Filled?
    ensures OpenedAt(settings, acts, n, EnteredPosition(settings, acts[n].atrPct, o.coin, o.side, o.limitPx, o.size, acts[n].at))
  {
    var i: nat :| i < n && RestsFrom(settings, acts, n, i) && OrderOf(settings, acts, n, i, o);
    EntersAsItsSignal(settings, acts[n].atrPct, acts[i].signal, o.limitPx, o.size, acts[n].at);
    hide Arrived, Quote, Cleared, Enters, RestsFrom, EnteredPosition;
    assert FilledBy(settings, acts, n, i, EnteredPosition(settings, acts[n].atrPct, o.coin, o.side, o.limitPx, o.size, acts[n].at));
  }

  lemma SignalRests(settings: Pm.Settings, acts: seq<Act>, n: nat)
    requires n < |acts| && acts[n].Route? && Cleared(acts[n].signal, acts[n].ctx) && Simulates(settings)
    ensures Explained(settings, acts, n + 1, RestingOrder(settings, acts[n].signal, acts[n].ctx.Size(), acts[n].ctx.now))
  {
    QuotesAgree(settings, acts[n].signal);
    assert RestsFrom(settings, acts, n + 1, n);
    assert OrderOf(settings, acts, n + 1, n, RestingOrder(settings, acts[n].signal, acts[n].ctx.Size(), acts[n].ctx.now));
  }

  lemma OthersRest(settings: Pm.Settings, acts: seq<Act>, n: nat, resting: map<Coin, Resting>, c: Coin)
    requires n < |acts| && OrdersExplained(settings, acts, n, resting) && c in resting && !Marks(acts[n], c)
    ensures Explained(settings, acts, n + 1, resting[c])
  {
    RestsOn(settings, acts, n, resting[c]);
  }

  lemma MarkIsExplained(settings: Pm.Settings, slippagePct: real, acts: seq<Act>, n: nat, v: RouterView)
    requires n < |acts| && acts[n].Mark? && OrdersExplained(settings, acts, n, v.resting)
    ensures var t := After(settings, slippagePct, v, acts[n]);
            && OrdersExplained(settings, acts, n + 1, t.resting)
            && forall c | c !in v.live.book && c in t.live.book :: t.live.book[c].coin == c && OpenedAt(settings, acts, n, t.live.book[c])
  {
    hide Explained, OpenedAt, RouterOutcome, Pm.Registered;
    var c := acts[n].coin;
    forall d <- v.resting | d != c ensures Explained(settings, acts, n + 1, v.resting[d]) {
      OthersRest(settings, acts, n, v.resting, d);
    }
    if c in v.resting {
      var o := v.resting[c];
      var outcome := RouterOutcome(settings.maxHoldSeconds, o, acts[n].px, acts[n].at);
      if outcome.Filled? {
        FillIsItsSignals(settings, acts, n, o);
        RegisteredHas(v.live, EnteredPosition(settings, acts[n].atrPct, o.coin, o.side, o.limitPx, o.size, acts[n].at));
      } else if outcome == Rests || outcome == Waits {
        RestsOn(settings, acts, n, o);
        WaitingHasArrived(settings, o, acts[n].px, acts[n].at);
      } else {
        NoOrderIsForNone(settings, o, acts[n].px, acts[n].at);
      }
    }
  }

  lemma WaitingHasArrived(settings: Pm.Settings, o: Resting, px: real, at: Instant)
    ensures RouterOutcome(settings.maxHoldSeconds, o, px, at) == Waits ==> o == o.(arrived := true)
  {
  }

  lemma NoOrderIsForNone(settings: Pm.Settings, o: Resting, px: real, at: Instant)
    ensures RouterOutcome(settings.maxHoldSeconds, o, px, at) != NoOrder
  {
  }

  lemma RouteIsExplained(settings: Pm.Settings, slippagePct: real, acts: seq<Act>, n: nat, v: RouterView)
    requires n < |acts| && acts[n].Route? && OrdersExplained(settings, acts, n, v.resting)
    ensures var t := After(settings, slippagePct, v, acts[n]);
            && OrdersExplained(settings, acts, n + 1, t.resting)
            && forall c | c !in v.live.book && c in t.live.book :: t.live.book[c].coin == c && OpenedAt(settings, acts, n, t.live.book[c])
  {
    hide Explained, Enters, EntryOrder, RestingOrder, EnteredPosition, Pm.Registered;
    var s, ctx := acts[n].signal, acts[n].ctx;
    forall d <- v.resting ensures Explained(settings, acts, n + 1, v.resting[d]) { OthersRest(settings, acts, n, v.resting, d); }
    if Admits(v, s, ctx) && ctx.response == Pm.Accepted {
      assert Cleared(s, ctx);
      if Simulates(settings) {
        SignalRests(settings, acts, n);
        assert RestingOrder(settings, s, ctx.Size(), ctx.now).coin == s.coin by { RestsForItsCoin(settings, s, ctx); }
      } else {
        EntersAsItsSignal(settings, ctx.atrPct, s, s.entryMarkPrice, ctx.Size(), ctx.now);
        var p := EnteredPosition(settings, ctx.atrPct, s.coin, s.side, s.entryMarkPrice, ctx.Size(), ctx.now);
        EntersItsCoin(settings, p, s, s.entryMarkPrice, ctx.Size(), ctx.now, ctx.atrPct);
        RegisteredHas(v.live, p);
      }
    }
  }

  lemma RestsForItsCoin(settings: Pm.Settings, s: Sim.Signal, ctx: EntryContext)
    ensures RestingOrder(settings, s, ctx.Size(), ctx.now).coin == s.coin
  {
  }

  lemma EntersItsCoin(settings: Pm.Settings, p: Pm.Managed, s: Sim.Signal, entryPx: real, size: real, now: Instant, atrPct: Option<real>)
    requires Enters(settings, p, s, entryPx, size, now, atrPct)
    ensures p.coin == s.coin && p.peakPx.Some?
  {
  }

  lemma StepIsExplained(settings: Pm.Settings, slippagePct: real, acts: seq<Act>, n: nat, v: RouterView)
    requires n < |acts| && OrdersExplained(settings, acts, n, v.resting)
    ensures var t := After(settings, slippagePct, v, acts[n]);
            && OrdersExplained(settings, acts, n + 1, t.resting)
            && forall c | c !in v.live.book && c in t.live.book :: t.live.book[c].coin == c && OpenedAt(settings, acts, n, t.live.book[c])
  {
    hide Explained, OpenedAt, AfterRoute, AfterOnMark;
    if acts[n].Route? {
      RouteIsExplained(settings, slippagePct, acts, n, v);
    } else if acts[n].Mark? {
      MarkIsExplained(settings, slippagePct, acts, n, v);
    } else {
      forall d <- v.resting ensures Explained(settings, acts, n + 1, v.resting[d]) { OthersRest(settings, acts, n, v.resting, d); }
    }
  }

  // ------------------------------------------------------------- whole runs

  lemma {:induction false} RunIsExplained(settings: Pm.Settings, slippagePct: real, v: RouterView, acts: seq<Act>, n: nat)
    requires v.resting == map[] && n <= |acts|
    ensures OrdersExplained(settings, acts, n, Run(settings, slippagePct, v, acts[..n]).resting)
  {
    hide After, OrdersExplained;
    if n == 0 {
      NothingRests(settings, acts);
    } else {
      assert acts[..n][..n - 1] == acts[..n - 1];
      RunIsExplained(settings, slippagePct, v, acts, n - 1);
      StepIsExplained(settings, slippagePct, acts, n - 1, Run(settings, slippagePct, v, acts[..n - 1]));
    }
  }

  lemma NothingRests(settings: Pm.Settings, acts: seq<Act>)
    ensures OrdersExplained(settings, acts, 0, map[])
  {
  }

  /** In every run, however signals, marks, exits and position management mix: a
      position that appears is the one of a cleared signal, on its side, at its
      mark or its quote, in its size - at once, or by the first mark that could
      fill its order. */
  lemma EntriesAreTheirSignals(settings: Pm.Settings, slippagePct: real, v: RouterView, acts: seq<Act>, k: nat, c: Coin)
    requires v.resting == map[] && k < |acts|
    requires c !in Run(settings, slippagePct, v, acts[..k]).live.book
    requires c in Run(settings, slippagePct, v, acts[..k + 1]).live.book
    ensures var p := Run(settings, slippagePct, v, acts[..k + 1]).live.book[c];
            p.coin == c && OpenedAt(settings, acts, k, p)
  {
    hide After, OrdersExplained, OpenedAt;
    RunIsExplained(settings, slippagePct, v, acts, k);
    assert acts[..k + 1][..k] == acts[..k];
    StepIsExplained(settings, slippagePct, acts, k, Run(settings, slippagePct, v, acts[..k]));
  }

  /** Its stop is strictly on the losing side of the signal's own side. */
  lemma EntryStopLoses(settings: Pm.Settings, p: Pm.Managed, s: Sim.Signal, entryPx: real, size: real, now: Instant, atrPct: Option<real>)
    requires Enters(settings, p, s, entryPx, size, now, atrPct) && entryPx > 0.0 && settings.atrStopMult > 0.0
    ensures match s.side case Long => p.stopPx < entryPx case Short => p.stopPx > entryPx
  {
    var dist :| FirstStopAway(settings, atrPct, dist) && StopsAway(p, dist);
    if settings.atrStopEnabled && atrPct.Some? && atrPct.value > 0.0 { Positive(atrPct.value, settings.atrStopMult); }
    hide FirstStopAway;
    assert dist > 0.0;
    Positive(entryPx, dist);
  }

  lemma Positive(x: real, y: real)
    requires x > 0.0 && y > 0.0
    ensures x * y > 0.0
  {
  }

  // ------------------------------------------------------------- what is sent

  /** An entry order is sent exactly for a signal that passes every gate, buys
      exactly for a long and never reduces; post-only orders are at the quote,
      others give way by the slippage in the order's own direction. */
  lemma EntryIsSentIff(settings: Pm.Settings, slippagePct: real, v: RouterView, signal: Sim.Signal, ctx: EntryContext)
    ensures var t := AfterRoute(settings, slippagePct, v, signal, ctx);
            var passes :=
              && !ctx.tripped && !ctx.feedWarmingUp && (ctx.confidenceFloor <= 0.0 || signal.confidence >= ctx.confidenceFloor)
              && signal.coin !in v.live.book && signal.coin !in v.resting && ctx.size.Some? && ctx.size.value > 0.0
              && (ctx.reentryCooldown > 0.0 && signal.coin in v.lastExitAt ==> ctx.now - v.lastExitAt[signal.coin] >= ctx.reentryCooldown);
            if !passes then t == v
            else
              && |t.sent| == |v.sent| + 1 && v.sent == t.sent[..|v.sent|]
              && (ctx.response != Pm.Accepted ==> t == v.(sent := t.sent))
              && var o := t.sent[|v.sent|];
                 && o.coin == signal.coin && o.isBuy == (signal.side == Long) && o.size == ctx.size.value && !o.reduceOnly
                 && o.postOnly == settings.makerEntryEnabled
                 && o.limitPx == if o.postOnly then Quote(settings, signal)
                                 else if o.isBuy then signal.entryMarkPrice + signal.entryMarkPrice * slippagePct
                                 else signal.entryMarkPrice - signal.entryMarkPrice * slippagePct
  {
    QuotesAgree(settings, signal);
    Slips(signal.entryMarkPrice, slippagePct);
    hide Quote, MakerLimitPrice, Pm.Registered, EnteredPosition, RestingOrder, SlippagePrice;
  }

  lemma Slips(mark: real, slippagePct: real)
    ensures SlippagePrice(mark, true, slippagePct) == mark + mark * slippagePct
    ensures SlippagePrice(mark, false, slippagePct) == mark - mark * slippagePct
  {
  }

  /** An exit order is on the other side of the position, of its size, and can only
      reduce it; an accepted one takes the position out and starts the cooldown. */
  lemma ExitClosesItsPosition(slippagePct: real, v: RouterView, p: Pm.Managed, response: Pm.Response, now: Instant)
    ensures var t := AfterRouteExit(slippagePct, v, p, response, now);
            if p.coin !in v.live.book then t == v
            else
              && |t.sent| == |v.sent| + 1 && v.sent == t.sent[..|v.sent|] && t.resting == v.resting
              && (if response == Pm.Accepted then
                    t.live.book == v.live.book - {p.coin} && t.lastExitAt == v.lastExitAt[p.coin := now]
                  else t == v.(sent := t.sent))
              && var o := t.sent[|v.sent|];
                 && o.coin == p.coin && o.size == p.size && o.reduceOnly && !o.postOnly && o.isBuy == (p.side == Short)
                 && var from := if p.peakPx.Some? && p.peakPx.value != 0.0 then p.peakPx.value else p.entryPx;
                    o.limitPx == if o.isBuy then from + from * slippagePct else from - from * slippagePct
  {
    Slips(if p.peakPx.Some? && p.peakPx.value != 0.0 then p.peakPx.value else p.entryPx, slippagePct);
    hide SlippagePrice;
  }
}
