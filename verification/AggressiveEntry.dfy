/** scripts/sweep_entry_aggression.py: the second coding of the post-only
    lifecycle, on top of the simulator. */
module AggressiveEntry {
  import opened Prelude
  import opened EntryOrders
  import Sim = Simulator

  /** What happens to an order that would cross on arrival. */
  datatype OnCross = Alo | Chase

  datatype AggState = AggState(sim: Sim.SimState, unarrived: set<Coin>, rejected: nat, chased: nat)

  function QuotedLimit(offsetBps: real, mark: real, side: Side): real
  {
    mark * (1.0 + Sign(side) * offsetBps / BPS)
  }

  lemma QuotedLimitIsPositive(offsetBps: real, mark: real, side: Side)
    requires -BPS < offsetBps < BPS && mark > 0.0
    ensures QuotedLimit(offsetBps, mark, side) > 0.0
  {
    assert -1.0 < offsetBps / BPS < 1.0;
    assert 1.0 + Sign(side) * offsetBps / BPS > 0.0;
  }

  predicate Sound(a: AggState)
  {
    Sim.Tradeable(a.sim) && a.unarrived <= a.sim.pending.Keys
  }

  function AfterSignal(cfg: Sim.SimConfig, offsetBps: real, a: AggState, signal: Sim.Signal): (b: AggState)
    requires Sound(a) && -BPS < offsetBps < BPS
    ensures Sound(b)
  {
    var r := a.sim.result;
    if Sim.Refused(cfg, a.sim, signal) then
      a.(sim := a.sim.(result := r.(skipped := r.skipped + 1)))
    else
      QuotedLimitIsPositive(offsetBps, signal.entryMarkPrice, signal.side);
      var order := Sim.MakerOrder(signal.coin, signal.side, QuotedLimit(offsetBps, signal.entryMarkPrice, signal.side),
                                  signal.timestamp, Clamp(0.0, 1.0, signal.confidence));
      a.(sim := a.sim.(pending := a.sim.pending[signal.coin := order], result := r.(placed := r.placed + 1)),
         unarrived := a.unarrived + {signal.coin})
  }

  function AfterFills(cfg: Sim.SimConfig, onCross: OnCross, a: AggState, coin: Coin, price: real, ts: Instant): (b: AggState)
    requires Sound(a) && price > 0.0
    ensures Sound(b)
  {
    hide Sim.Opened, Sim.AfterFills;
    if coin !in a.sim.pending then a
    else if coin !in a.unarrived then
      PendingOnlyShrinks(cfg, a.sim, coin, price, ts);
      a.(sim := Sim.AfterFills(cfg, a.sim, coin, price, ts))
    else
      var o := a.sim.pending[coin];
      var r := a.sim.result;
      if !Crosses(o.side, o.limitPx, price) then a.(unarrived := a.unarrived - {coin})
      else if onCross == Chase then
        a.(sim := a.sim.(
             pending := a.sim.pending - {coin},
             open := a.sim.open[coin := Sim.Opened(cfg.(makerEntryEnabled := false), coin, o.side, price, ts, o.confidence)],
             result := r.(filled := r.filled + 1)),
           unarrived := a.unarrived - {coin}, chased := a.chased + 1)
      else
        a.(sim := a.sim.(pending := a.sim.pending - {coin}, result := r.(skipped := r.skipped + 1)),
           unarrived := a.unarrived - {coin}, rejected := a.rejected + 1)
  }

  lemma PendingOnlyShrinks(cfg: Sim.SimConfig, s: Sim.SimState, coin: Coin, price: real, ts: Instant)
    requires Sim.Tradeable(s)
    ensures s.pending.Keys - {coin} <= Sim.AfterFills(cfg, s, coin, price, ts).pending.Keys <= s.pending.Keys
  {
  }

  /** The sweep's own ledger: a placed order is filled, expired, rejected or
      still resting, and a signal is skipped, resting, open or traded. */
  predicate Ledger(cfg: Sim.SimConfig, a: AggState)
  {
    && Sound(a)
    && |a.sim.open| + |a.sim.pending| <= (if cfg.maxConcurrent > 0 then cfg.maxConcurrent else 0)
    && a.sim.result.signals == a.sim.result.skipped + |a.sim.pending| + |a.sim.open| + |a.sim.result.trades|
    && a.sim.result.placed == a.sim.result.filled + a.sim.result.expired + a.rejected + |a.sim.pending|
  }

  function Signalled(a: AggState): AggState
  {
    a.(sim := a.sim.(result := a.sim.result.(signals := a.sim.result.signals + 1)))
  }

  lemma SignalKeepsAccount(cfg: Sim.SimConfig, offsetBps: real, a: AggState, signal: Sim.Signal)
    requires Ledger(cfg, a) && -BPS < offsetBps < BPS
    ensures Ledger(cfg, AfterSignal(cfg, offsetBps, Signalled(a), signal))
  {
    if !Sim.Refused(cfg, a.sim, signal) {
      Sim.MapInsertSize(a.sim.pending, signal.coin, AfterSignal(cfg, offsetBps, a, signal).sim.pending[signal.coin]);
    }
  }

  lemma FillsKeepAccount(cfg: Sim.SimConfig, onCross: OnCross, a: AggState, coin: Coin, price: real, ts: Instant)
    requires Ledger(cfg, a) && price > 0.0
    ensures Ledger(cfg, AfterFills(cfg, onCross, a, coin, price, ts))
  {
    hide Sim.Opened, Sim.TimedOut, Sim.Touches;
    if coin in a.sim.pending {
      var o := a.sim.pending[coin];
      Sim.MapRemoveSize(a.sim.pending, coin);
      Sim.MapInsertSize(a.sim.open, coin, Sim.Opened(cfg, coin, o.side, o.limitPx, ts, o.confidence));
      Sim.MapInsertSize(a.sim.open, coin, Sim.Opened(cfg.(makerEntryEnabled := false), coin, o.side, price, ts, o.confidence));
    }
  }

  lemma ExitsKeepOrders(cfg: Sim.SimConfig, s: Sim.SimState, coin: Coin, price: real, ts: Instant)
    requires Sim.Tradeable(s)
    ensures Sim.AfterExits(cfg, s, coin, price, ts).pending == s.pending
  {
    hide Sim.Advance, Sim.ExitOf, Sim.Booked;
  }

  lemma ExitsKeepAccount(cfg: Sim.SimConfig, a: AggState, coin: Coin, price: real, ts: Instant)
    requires Ledger(cfg, a)
    ensures Ledger(cfg, a.(sim := Sim.AfterExits(cfg, a.sim, coin, price, ts)))
  {
    hide Sim.Advance, Sim.ExitOf, Sim.Booked;
    if coin in a.sim.open {
      Sim.MapReplaceSize(a.sim.open, coin, Sim.Advance(cfg, a.sim.open[coin], price));
      Sim.MapRemoveSize(a.sim.open, coin);
    }
  }

  /** Prints are positive; a chase divides by the print it fills at. */
  predicate Priced(event: Sim.Event)
  {
    Sim.PriceOf(event).Some? ==> Sim.PriceOf(event).value > 0.0
  }

  function Noted(a: AggState, event: Sim.Event): (b: AggState)
    requires Sound(a)
    ensures Sound(b)
  {
    var s := a.sim.(result := a.sim.result.(processed := a.sim.result.processed + 1));
    a.(sim := if Sim.PriceOf(event).None? then s else s.(marks := s.marks[event.coin.value := Sim.PriceOf(event).value]))
  }

  function AfterPrice(cfg: Sim.SimConfig, onCross: OnCross, a: AggState, event: Sim.Event): (b: AggState)
    requires Sound(a) && Priced(event)
    ensures Sound(b)
  {
    hide Sim.AfterExits, AfterFills;
    var noted := Noted(a, event);
    if Sim.PriceOf(event).None? then noted
    else
      var coin, price := event.coin.value, Sim.PriceOf(event).value;
      ExitsKeepOrders(cfg, noted.sim, coin, price, event.ts);
      AfterFills(cfg, onCross, noted.(sim := Sim.AfterExits(cfg, noted.sim, coin, price, event.ts)), coin, price, event.ts)
  }

  /** The inherited loop with the overridden entry steps: exits, then resting
      orders, then the strategy's signal. */
  function AfterEvent(cfg: Sim.SimConfig, offsetBps: real, onCross: OnCross, a: AggState,
                      event: Sim.Event, response: Option<Sim.Signal>): (b: AggState)
    requires Sound(a) && -BPS < offsetBps < BPS && Priced(event)
    ensures Sound(b)
  {
    hide AfterPrice, AfterSignal;
    var priced := AfterPrice(cfg, onCross, a, event);
    if response.None? then priced else AfterSignal(cfg, offsetBps, Signalled(priced), response.value)
  }

  function AfterEvents(cfg: Sim.SimConfig, offsetBps: real, onCross: OnCross, a: AggState,
                       events: seq<Sim.Event>, responses: seq<Option<Sim.Signal>>): (b: AggState)
    requires Sound(a) && -BPS < offsetBps < BPS && |events| == |responses|
    requires forall i | 0 <= i < |events| :: Priced(events[i])
    ensures Sound(b)
  {
    hide AfterEvent;
    if events == [] then a else
      var n := |events| - 1;
      AfterEvent(cfg, offsetBps, onCross, AfterEvents(cfg, offsetBps, onCross, a, events[..n], responses[..n]), events[n], responses[n])
  }

  lemma EventKeepsAccount(cfg: Sim.SimConfig, offsetBps: real, onCross: OnCross, a: AggState,
                          event: Sim.Event, response: Option<Sim.Signal>)
    requires Ledger(cfg, a) && -BPS < offsetBps < BPS && Priced(event)
    ensures Ledger(cfg, AfterEvent(cfg, offsetBps, onCross, a, event, response))
  {
    hide Sim.AfterExits, AfterFills, AfterSignal;
    var noted := Noted(a, event);
    assert Ledger(cfg, noted);
    var priced := noted;
    if Sim.PriceOf(event).Some? {
      var coin, price := event.coin.value, Sim.PriceOf(event).value;
      ExitsKeepAccount(cfg, noted, coin, price, event.ts);
      ExitsKeepOrders(cfg, noted.sim, coin, price, event.ts);
      var exited := noted.(sim := Sim.AfterExits(cfg, noted.sim, coin, price, event.ts));
      hide Ledger, Noted;
      FillsKeepAccount(cfg, onCross, exited, coin, price, event.ts);
      priced := AfterFills(cfg, onCross, exited, coin, price, event.ts);
    }
    if response.Some? { SignalKeepsAccount(cfg, offsetBps, priced, response.value); }
  }

  /** In both crossing modes, after every run: the ledger holds. */
  lemma {:induction false} RunKeepsAccount(cfg: Sim.SimConfig, offsetBps: real, onCross: OnCross, a: AggState,
                                           events: seq<Sim.Event>, responses: seq<Option<Sim.Signal>>)
    requires Ledger(cfg, a) && -BPS < offsetBps < BPS && |events| == |responses|
    requires forall i | 0 <= i < |events| :: Priced(events[i])
    ensures Ledger(cfg, AfterEvents(cfg, offsetBps, onCross, a, events, responses))
  {
    hide AfterEvent, Ledger;
    LedgerIsSound(cfg, a);
    if events != [] {
      var n := |events| - 1;
      RunKeepsAccount(cfg, offsetBps, onCross, a, events[..n], responses[..n]);
      EventKeepsAccount(cfg, offsetBps, onCross,
        AfterEvents(cfg, offsetBps, onCross, a, events[..n], responses[..n]), events[n], responses[n]);
    }
  }

  lemma LedgerIsSound(cfg: Sim.SimConfig, a: AggState)
    requires Ledger(cfg, a)
    ensures Sound(a)
  {
  }

  // ------------------------------------------------------------- the object

  class AggressiveEntrySimulator {
    const base: Sim.BacktestSimulator
    const offsetBps: real
    const onCross: OnCross
    var unarrived: set<Coin>
    var rejected: nat
    var chased: nat

    ghost function View(): AggState
      reads this, base
    {
      AggState(base.View(), unarrived, rejected, chased)
    }

    ghost predicate Valid()
      reads this, base, base.repr
    {
      base.Valid() && Sound(View()) && -BPS < offsetBps < BPS
    }

    constructor (cfg: Sim.SimConfig, offsetBps: real, onCross: OnCross)
      requires -BPS < offsetBps < BPS
      ensures Valid() && fresh(base) && base.cfg == cfg && this.offsetBps == offsetBps && this.onCross == onCross
      ensures View() == AggState(Sim.SimState(map[], map[], map[], Sim.EMPTY_RESULT), {}, 0, 0)
    {
      base := new Sim.BacktestSimulator(cfg);
      this.offsetBps, this.onCross := offsetBps, onCross;
      unarrived, rejected, chased := {}, 0, 0;
    }

    method OpenFromSignal(signal: Sim.Signal)
      requires Valid()
      modifies this`unarrived, base`pending, base`result
      ensures Valid() && View() == AfterSignal(base.cfg, offsetBps, old(View()), signal)
    {
      hide Sim.Tradeable;
      ghost var after := AfterSignal(base.cfg, offsetBps, View(), signal);
      assert |base.open| == |base.open.Keys| == |base.book.Keys| == |base.book|;
      var r := base.result;
      if signal.coin in base.open || signal.coin in base.pending
         || |base.open| + |base.pending| >= base.cfg.maxConcurrent || signal.entryMarkPrice <= 0.0 {
        base.result := r.(skipped := r.skipped + 1);
        assert View() == after;
        return;
      }
      var limitPx := signal.entryMarkPrice * (1.0 + Sign(signal.side) * offsetBps / BPS);
      assert limitPx == QuotedLimit(offsetBps, signal.entryMarkPrice, signal.side);
      assert !Sim.Refused(base.cfg, base.View(), signal);
      var order := Sim.MakerOrder(signal.coin, signal.side, limitPx, signal.timestamp, Clamp(0.0, 1.0, signal.confidence));
      base.pending := base.pending[signal.coin := order];
      base.result := r.(placed := r.placed + 1);
      unarrived := unarrived + {signal.coin};
      assert base.pending == after.sim.pending;
      assert base.result == after.sim.result;
      assert View() == after;
    }

    method OnPrice(event: Sim.Event)
      requires Valid() && Priced(event)
      modifies this`unarrived, this`rejected, this`chased, base, base.repr
      ensures Valid() && base.cfg == old(base.cfg) && fresh(base.repr - old(base.repr))
      ensures View() == AfterPrice(base.cfg, onCross, old(View()), event)
    {
      hide Sim.AfterExits, AfterFills, Sim.Tradeable;
      ghost var noted := Noted(View(), event);
      Sim.CountersDoNotTrade(base.View(), base.result.(processed := base.result.processed + 1));
      base.result := base.result.(processed := base.result.processed + 1);
      var price := base.PriceAndTs(event);
      assert View() == noted;
      if price.Some? {
        ExitsKeepOrders(base.cfg, noted.sim, event.coin.value, price.value, event.ts);
        base.CheckExits(event.coin.value, price.value, event.ts);
        CheckPendingFills(event.coin.value, price.value, event.ts);
      }
    }

    /** The loop body: exits, resting orders, then the strategy's answer. */
    method OnEvent(event: Sim.Event, response: Option<Sim.Signal>)
      requires Valid() && Priced(event)
      modifies this`unarrived, this`rejected, this`chased, base, base.repr
      ensures Valid() && base.cfg == old(base.cfg) && fresh(base.repr - old(base.repr))
      ensures View() == AfterEvent(base.cfg, offsetBps, onCross, old(View()), event, response)
    {
      hide AfterPrice, AfterSignal, Sim.Tradeable;
      OnPrice(event);
      if response.Some? {
        Sim.CountersDoNotTrade(base.View(), base.result.(signals := base.result.signals + 1));
        base.result := base.result.(signals := base.result.signals + 1);
        OpenFromSignal(response.value);
      }
    }

    /** A whole run from a fresh simulator, closed at its end. */
    method Run(events: seq<Sim.Event>, responses: seq<Option<Sim.Signal>>)
      requires Valid() && Ledger(base.cfg, View()) && |events| == |responses|
      requires forall i | 0 <= i < |events| :: Priced(events[i])
      modifies this`unarrived, this`rejected, this`chased, base, base.repr
      ensures base.open == map[] && base.pending == map[]
      ensures var end := AfterEvents(old(base.cfg), offsetBps, onCross, old(View()), events, responses);
              && Sim.BooksClosed(old(base.cfg), end.sim, base.result)
              && rejected == end.rejected && chased == end.chased
      ensures base.result.signals == base.result.skipped + |base.result.trades|
      ensures base.result.placed == base.result.filled + base.result.expired + rejected
    {
      hide AfterEvent, Ledger, Sim.BooksClosed, Sim.Tradeable;
      for i := 0 to |events|
        invariant Valid() && base.cfg == old(base.cfg) && fresh(base.repr - old(base.repr))
        invariant View() == AfterEvents(base.cfg, offsetBps, onCross, old(View()), events[..i], responses[..i])
      {
        assert events[..i + 1][..i] == events[..i] && responses[..i + 1][..i] == responses[..i];
        OnEvent(events[i], responses[i]);
      }
      assert events[..|events|] == events && responses[..|events|] == responses;
      RunKeepsAccount(base.cfg, offsetBps, onCross, old(View()), events, responses);
      ghost var end := View();
      base.CloseRemaining();
      Balanced(base.cfg, end, base.result);
    }

    /** One fill charged as a taker: the config flag moves and moves back. */
    method OpenTaker(order: Sim.MakerOrder, price: real, ts: Instant)
      requires base.Valid() && price > 0.0 && order.coin !in base.pending
      modifies base`cfg, base`open, base`book, base`repr
      ensures base.Valid() && base.cfg == old(base.cfg) && fresh(base.repr - old(base.repr))
      ensures base.View() == old(base.View()).(open := old(base.book)[order.coin :=
                Sim.Opened(base.cfg.(makerEntryEnabled := false), order.coin, order.side, price, ts, order.confidence)])
    {
      hide Sim.Opened, Sim.Tradeable;
      var wasMaker := base.cfg.makerEntryEnabled;
      base.cfg := base.cfg.(makerEntryEnabled := false);
      base.OpenPositionAt(order.coin, order.side, price, ts, order.confidence);
      base.cfg := base.cfg.(makerEntryEnabled := wasMaker);
    }

    method CheckPendingFills(coin: Coin, price: real, ts: Instant)
      requires Valid() && price > 0.0
      modifies this`unarrived, this`rejected, this`chased, base`cfg, base`open, base`book, base`repr, base`pending, base`result
      ensures Valid() && base.cfg == old(base.cfg) && fresh(base.repr - old(base.repr))
      ensures View() == AfterFills(base.cfg, onCross, old(View()), coin, price, ts)
    {
      hide Sim.Opened, Sim.AfterFills, Sim.Tradeable;
      ghost var after := AfterFills(base.cfg, onCross, View(), coin, price, ts);
      if coin !in base.pending { return; }
      if coin !in unarrived {
        base.CheckPendingFills(coin, price, ts);
        assert View() == after;
        return;
      }
      Arrive(coin, price, ts);
    }

    method Arrive(coin: Coin, price: real, ts: Instant)
      requires Valid() && price > 0.0 && coin in unarrived
      modifies this`unarrived, this`rejected, this`chased, base`cfg, base`open, base`book, base`repr, base`pending, base`result
      ensures Valid() && base.cfg == old(base.cfg) && fresh(base.repr - old(base.repr))
      ensures View() == AfterFills(base.cfg, onCross, old(View()), coin, price, ts)
    {
      hide Sim.Opened, Sim.AfterFills, Sim.Tradeable;
      ghost var after := AfterFills(base.cfg, onCross, View(), coin, price, ts);
      var order := base.pending[coin];
      unarrived := unarrived - {coin};
      var crosses := if order.side == Long then order.limitPx > price else order.limitPx < price;
      if crosses {
        Dropping(base.View(), coin);
        base.pending := base.pending - {coin};
        if onCross == Chase {
          chased := chased + 1;
          base.result := base.result.(filled := base.result.filled + 1);
          OpenTaker(order, price, ts);
        } else {
          rejected := rejected + 1;
          base.result := base.result.(skipped := base.result.skipped + 1);
        }
      }
      assert View() == after;
    }
  }

  /** Closing settles the ledger. */
  lemma Balanced(cfg: Sim.SimConfig, a: AggState, r: Sim.BacktestResult)
    requires Ledger(cfg, a) && Sim.BooksClosed(cfg, a.sim, r)
    ensures r.signals == r.skipped + |r.trades| && r.placed == r.filled + r.expired + a.rejected
  {
    hide Sim.BooksClosed;
    Sim.ClosingBalances(cfg, a.sim, r);
  }

  lemma Dropping(s: Sim.SimState, coin: Coin)
    requires Sim.Tradeable(s)
    ensures coin in s.pending ==> s.pending[coin].coin == coin
    ensures forall r :: Sim.Tradeable(s.(pending := s.pending - {coin}, result := r))
  {
  }
}
