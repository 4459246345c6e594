/** The post-only entry lifecycle, coded twice in the source: OrderRouter.on_mark
    (src/execution/order_router.py) and AggressiveEntrySimulator
    (scripts/sweep_entry_aggression.py). */
module EntryOrders {
  import opened Prelude
  import Sim = Simulator
  import Pm = PositionManagement

  /** A post-only entry that has been sent but is not a position yet. */
  datatype Resting = Resting(coin: Coin, side: Side, limitPx: real, size: real, placedAt: Instant, arrived: bool)

  /** What one mark does to a resting order. */
  datatype Outcome = NoOrder | Rests | Rejected | Expired | Waits | Filled(px: real)

  /** A post-only order through the market on arrival would take liquidity. */
  predicate Crosses(side: Side, limitPx: real, mark: real)
  {
    if side == Long then limitPx > mark else limitPx < mark
  }

  // ------------------------------------------------------------- the router's coding

  function MakerLimitPrice(offsetBps: real, mark: real, side: Side): real
  {
    if offsetBps <= 0.0 then mark else mark * (1.0 + Sign(side) * offsetBps / BPS)
  }

  function RouterOutcome(timeout: real, o: Resting, mark: real, now: Instant): Outcome
  {
    if !o.arrived then (if Crosses(o.side, o.limitPx, mark) then Rejected else Rests)
    else if timeout > 0.0 && now - o.placedAt >= timeout then Expired
    else if (if o.side == Long then mark <= o.limitPx else mark >= o.limitPx) then Filled(o.limitPx)
    else Waits
  }

  function RouterOutcomeAt(timeout: real, resting: map<Coin, Resting>, coin: Coin, mark: real, now: Instant): Outcome
  {
    if coin in resting then RouterOutcome(timeout, resting[coin], mark, now) else NoOrder
  }

  /** The resting orders after one mark. */
  function RestingAfter(timeout: real, resting: map<Coin, Resting>, coin: Coin, mark: real, now: Instant): map<Coin, Resting>
  {
    match RouterOutcomeAt(timeout, resting, coin, mark, now)
    case NoOrder => resting
    case Waits => resting
    case Rests => resting[coin := resting[coin].(arrived := true)]
    case _ => resting - {coin}
  }

  /** A new position, its peak at the entry and its stop at the initial distance. */
  function EnteredPosition(settings: Pm.Settings, atrPct: Option<real>, coin: Coin, side: Side, entryPx: real, size: real, now: Instant): Pm.Managed
  {
    Pm.Managed(coin, side, entryPx, size, Pm.InitialStop(settings, atrPct, entryPx, side), false, Some(entryPx), now)
  }

  // ------------------------------------------------------------- the router

  /** What goes to the exchange. */
  datatype OrderRequest = OrderRequest(coin: Coin, isBuy: bool, size: real, limitPx: real, reduceOnly: bool, postOnly: bool)

  /** Everything `route_entry` reads from outside the router: the switch, the
      confidence floor, the feed, the re-entry cooldown, the sized order and the
      exchange's answer. */
  datatype EntryContext = EntryContext(
    tripped: bool, confidenceFloor: real, feedWarmingUp: bool, reentryCooldown: real,
    size: Option<real>, response: Pm.Response, atrPct: Option<real>, now: Instant)
  {
    function Size(): real { if size.Some? then size.value else 0.0 }
  }

  /** The router with the positions it opens; `sent` are the orders placed. */
  datatype RouterView = RouterView(
    resting: map<Coin, Resting>, live: Pm.Live, lastExitAt: map<Coin, Instant>, sent: seq<OrderRequest>)

  function SlippagePrice(mark: real, isBuy: bool, slippagePct: real): real
  {
    if isBuy then mark * (1.0 + slippagePct) else mark * (1.0 - slippagePct)
  }

  predicate InCooldown(lastExitAt: map<Coin, Instant>, coin: Coin, cooldown: real, now: Instant)
  {
    cooldown > 0.0 && coin in lastExitAt && now - lastExitAt[coin] < cooldown
  }

  /** The gates before an order is placed. */
  predicate Admits(v: RouterView, signal: Sim.Signal, ctx: EntryContext)
  {
    && !ctx.tripped
    && !(ctx.confidenceFloor > 0.0 && signal.confidence < ctx.confidenceFloor)
    && !ctx.feedWarmingUp
    && signal.coin !in v.live.book
    && signal.coin !in v.resting
    && !InCooldown(v.lastExitAt, signal.coin, ctx.reentryCooldown, ctx.now)
    && ctx.Size() > 0.0
  }

  function EntryOrder(settings: Pm.Settings, slippagePct: real, signal: Sim.Signal, size: real): OrderRequest
  {
    var isBuy := signal.side == Long;
    if settings.makerEntryEnabled then
      OrderRequest(signal.coin, isBuy, size, MakerLimitPrice(settings.makerEntryOffsetBps, signal.entryMarkPrice, signal.side), false, true)
    else
      OrderRequest(signal.coin, isBuy, size, SlippagePrice(signal.entryMarkPrice, isBuy, slippagePct), false, false)
  }

  predicate Simulates(settings: Pm.Settings) { settings.botDryRun && settings.makerEntryEnabled }

  function RestingOrder(settings: Pm.Settings, signal: Sim.Signal, size: real, now: Instant): Resting
  {
    Resting(signal.coin, signal.side, MakerLimitPrice(settings.makerEntryOffsetBps, signal.entryMarkPrice, signal.side), size, now, false)
  }

  /** An admitted signal is sent; accepted, it becomes a resting order where
      dry-run has to simulate post-only handling, and a position at the signal
      mark otherwise. */
  function AfterRoute(settings: Pm.Settings, slippagePct: real, v: RouterView, signal: Sim.Signal, ctx: EntryContext): RouterView
  {
    if !Admits(v, signal, ctx) then v else
      var placed := v.(sent := v.sent + [EntryOrder(settings, slippagePct, signal, ctx.Size())]);
      if ctx.response != Pm.Accepted then placed
      else if Simulates(settings) then
        placed.(resting := v.resting[signal.coin := RestingOrder(settings, signal, ctx.Size(), ctx.now)])
      else
        placed.(live := Pm.Registered(v.live,
          EnteredPosition(settings, ctx.atrPct, signal.coin, signal.side, signal.entryMarkPrice, ctx.Size(), ctx.now)))
  }

  function AfterOnMark(settings: Pm.Settings, v: RouterView, coin: Coin, mark: real, now: Instant, atrPct: Option<real>): RouterView
  {
    var next := v.(resting := RestingAfter(settings.maxHoldSeconds, v.resting, coin, mark, now));
    if !RouterOutcomeAt(settings.maxHoldSeconds, v.resting, coin, mark, now).Filled? then next else
      var o := v.resting[coin];
      next.(live := Pm.Registered(v.live, EnteredPosition(settings, atrPct, o.coin, o.side, o.limitPx, o.size, now)))
  }

  function ExitOrder(slippagePct: real, p: Pm.Managed): OrderRequest
  {
    var isBuy := p.side == Short;
    var mark := if p.peakPx.Some? && p.peakPx.value != 0.0 then p.peakPx.value else p.entryPx;
    OrderRequest(p.coin, isBuy, p.size, SlippagePrice(mark, isBuy, slippagePct), true, false)
  }

  function AfterRouteExit(slippagePct: real, v: RouterView, p: Pm.Managed, response: Pm.Response, now: Instant): RouterView
  {
    if p.coin !in v.live.book then v else
      var placed := v.(sent := v.sent + [ExitOrder(slippagePct, p)]);
      if response != Pm.Accepted then placed
      else placed.(live := Pm.Removed(v.live, p.coin), lastExitAt := v.lastExitAt[p.coin := now])
  }

  class PendingEntry {
    var now: Resting

    constructor (o: Resting)
      ensures now == o
    {
      now := o;
    }
  }

  class OrderRouter {
    const settings: Pm.Settings
    const slippagePct: real
    const manager: Pm.PositionManager
    var pending: map<Coin, PendingEntry>
    var lastExitAt: map<Coin, Instant>
    var sent: seq<OrderRequest>
    ghost var resting: map<Coin, Resting>

    ghost predicate Valid()
      reads this`pending, this`resting, pending.Values, manager`book
    {
      && pending.Keys == resting.Keys
      && (forall c <- pending :: pending[c].now == resting[c] && resting[c].coin == c)
      && resting.Keys !! manager.book.Keys
    }

    ghost function View(): RouterView
      reads this, manager, manager.store
    {
      RouterView(resting, manager.View(), lastExitAt, sent)
    }

    constructor (settings: Pm.Settings, slippagePct: real, manager: Pm.PositionManager)
      ensures Valid() && this.settings == settings && this.slippagePct == slippagePct && this.manager == manager
      ensures View() == RouterView(map[], manager.View(), map[], [])
    {
      this.settings, this.slippagePct, this.manager := settings, slippagePct, manager;
      pending, lastExitAt, resting, sent := map[], map[], map[], [];
    }

    method RouteEntry(signal: Sim.Signal, ctx: EntryContext) returns (routed: bool)
      requires Valid() && manager.Valid()
      modifies this`pending, this`resting, this`sent, manager, manager.store
      ensures Valid() && manager.Valid() && View() == AfterRoute(settings, slippagePct, old(View()), signal, ctx)
      ensures routed <==> Admits(old(View()), signal, ctx) && ctx.response == Pm.Accepted
    {
      hide Pm.PositionManager.Valid, Pm.InitialStop, MakerLimitPrice, SlippagePrice, Pm.Registered;
      manager.ValidIsKeyed();
      var coin := signal.coin;
      if ctx.tripped { return false; }
      if ctx.confidenceFloor > 0.0 && signal.confidence < ctx.confidenceFloor { return false; }
      if ctx.feedWarmingUp { return false; }
      if coin in manager.positions || coin in pending { return false; }
      if InCooldown(lastExitAt, coin, ctx.reentryCooldown, ctx.now) { return false; }
      if ctx.size.None? || ctx.size.value <= 0.0 { return false; }
      var order := PriceOrder(signal, ctx.size.value);
      sent := sent + [order];
      if ctx.response != Pm.Accepted { return false; }
      if settings.botDryRun && settings.makerEntryEnabled {
        var o := Resting(coin, signal.side, order.limitPx, ctx.size.value, ctx.now, false);
        var entry := new PendingEntry(o);
        pending, resting := pending[coin := entry], resting[coin := o];
      } else {
        OpenPosition(coin, signal.side, signal.entryMarkPrice, ctx.size.value, ctx.atrPct, ctx.now);
      }
      return true;
    }

    /** Post-only at the offset limit, or immediate with the slippage allowed. */
    method PriceOrder(signal: Sim.Signal, size: real) returns (order: OrderRequest)
      ensures order == EntryOrder(settings, slippagePct, signal, size)
    {
      var isBuy := signal.side == Long;
      var limitPx, postOnly;
      if settings.makerEntryEnabled {
        limitPx, postOnly := MakerLimitPrice(settings.makerEntryOffsetBps, signal.entryMarkPrice, signal.side), true;
      } else {
        limitPx, postOnly := SlippagePrice(signal.entryMarkPrice, isBuy, slippagePct), false;
      }
      order := OrderRequest(signal.coin, isBuy, size, limitPx, false, postOnly);
    }

    method OpenPosition(coin: Coin, side: Side, entryPx: real, size: real, atrPct: Option<real>, now: Instant)
      requires Valid() && manager.Valid() && coin !in resting
      modifies manager, manager.store
      ensures Valid() && manager.Valid()
      ensures manager.View() == Pm.Registered(old(manager.View()), EnteredPosition(settings, atrPct, coin, side, entryPx, size, now))
    {
      hide Pm.InitialStop;
      var stopPx := Pm.InitialStop(settings, atrPct, entryPx, side);
      var position := new Pm.ManagedPosition(Pm.Managed(coin, side, entryPx, size, stopPx, false, Some(entryPx), now));
      manager.RegisterPosition(position);
    }

    /** Age the resting order of `coin` against a fresh mark. */
    method OnMark(coin: Coin, mark: real, now: Instant, atrPct: Option<real>)
      requires Valid() && manager.Valid()
      modifies this`pending, this`resting, pending.Values, manager, manager.store
      ensures Valid() && manager.Valid() && View() == AfterOnMark(settings, old(View()), coin, mark, now, atrPct)
    {
      hide Pm.PositionManager.Valid, Pm.InitialStop, RouterOutcome, RestingAfter, Pm.Registered;
      if coin !in pending {
        NotResting(coin, mark, now);
        return;
      }
      var o := pending[coin].now;
      var filled := Age(coin, mark, now);
      if filled { OpenPosition(coin, o.side, o.limitPx, o.size, atrPct, now); }
    }

    lemma NotResting(coin: Coin, mark: real, now: Instant)
      requires coin !in resting
      ensures RestingAfter(settings.maxHoldSeconds, resting, coin, mark, now) == resting
      ensures !RouterOutcomeAt(settings.maxHoldSeconds, resting, coin, mark, now).Filled?
    {
    }

    /** The order's own share of a mark; true when it fills. */
    method Age(coin: Coin, mark: real, now: Instant) returns (filled: bool)
      requires Valid() && coin in pending
      modifies this`pending, this`resting, pending[coin]
      ensures Valid() && resting == RestingAfter(settings.maxHoldSeconds, old(resting), coin, mark, now)
      ensures filled <==> RouterOutcomeAt(settings.maxHoldSeconds, old(resting), coin, mark, now).Filled?
      ensures filled ==> coin !in resting
    {
      var entry := pending[coin];
      var o := entry.now;
      if !o.arrived {
        entry.now := o.(arrived := true);
        resting := resting[coin := entry.now];
        var crosses := if o.side == Long then o.limitPx > mark else o.limitPx < mark;
        if crosses { pending, resting := pending - {coin}, resting - {coin}; }
        return false;
      }
      var timeout := settings.maxHoldSeconds;
      if timeout > 0.0 {
        var age := now - o.placedAt;
        if age >= timeout {
          pending, resting := pending - {coin}, resting - {coin};
          return false;
        }
      }
      filled := if o.side == Long then mark <= o.limitPx else mark >= o.limitPx;
      if !filled { return false; }
      pending, resting := pending - {coin}, resting - {coin};
    }

    /** A tracked position leaves only on an accepted order. */
    method RouteExit(p: Pm.Managed, response: Pm.Response, now: Instant)
      requires Valid() && manager.Valid()
      modifies this`lastExitAt, this`sent, manager, manager.store
      ensures Valid() && manager.Valid() && View() == AfterRouteExit(slippagePct, old(View()), p, response, now)
    {
      hide Pm.PositionManager.Valid, SlippagePrice;
      manager.ValidIsKeyed();
      if p.coin !in manager.positions { return; }
      var isBuy := p.side == Short;
      var mark := if p.peakPx.Some? && p.peakPx.value != 0.0 then p.peakPx.value else p.entryPx;
      sent := sent + [OrderRequest(p.coin, isBuy, p.size, SlippagePrice(mark, isBuy, slippagePct), true, false)];
      if response != Pm.Accepted { return; }
      manager.RemovePosition(p.coin);
      lastExitAt := lastExitAt[p.coin := now];
    }
  }
}
