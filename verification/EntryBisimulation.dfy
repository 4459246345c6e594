/** The two codings of the post-only lifecycle agree, mark by mark, over every
    run; and what that common lifecycle amounts to. */
module EntryBisimulation {
  import opened Prelude
  import opened EntryOrders
  import Sim = Simulator
  import Pm = PositionManagement
  import Agg = AggressiveEntry
  import Lockstep

  // ------------------------------------------------------------- one mark

  /** What a mark does to the sweep's resting order, read off its state. */
  function SweepOutcome(cfg: Sim.SimConfig, a: Agg.AggState, coin: Coin, mark: real, ts: Instant): Outcome
  {
    if coin !in a.sim.pending then NoOrder else
      var o := a.sim.pending[coin];
      if coin in a.unarrived then (if Crosses(o.side, o.limitPx, mark) then Rejected else Rests)
      else if Sim.TimedOut(cfg, o, ts) then Expired
      else if Sim.Touches(o.side, o.limitPx, mark) then Filled(o.limitPx)
      else Waits
  }

  /** The outcome is what the sweep's books record. */
  lemma SweepOutcomeIsBooked(cfg: Sim.SimConfig, a: Agg.AggState, coin: Coin, mark: real, ts: Instant)
    requires Agg.Sound(a) && mark > 0.0
    ensures var b := Agg.AfterFills(cfg, Agg.Alo, a, coin, mark, ts);
            var gone := b.sim.pending == a.sim.pending - {coin} && coin in a.sim.pending;
            match SweepOutcome(cfg, a, coin, mark, ts)
            case Rejected => gone && b.sim.open == a.sim.open && b.rejected == a.rejected + 1
            case Expired => gone && b.sim.open == a.sim.open && b.sim.result.expired == a.sim.result.expired + 1
            case Filled(px) =>
              && gone && b.sim.result.filled == a.sim.result.filled + 1
              && b.sim.open.Keys == a.sim.open.Keys + {coin} && b.sim.open[coin].terms.entryPx == px
            case _ => b.sim == a.sim
  {
    hide Sim.Opened;
  }

  /** The same orders on both sides, unarrived on both or on neither. */
  predicate SameOrders(resting: map<Coin, Resting>, a: Agg.AggState)
  {
    && resting.Keys == a.sim.pending.Keys
    && a.unarrived <= a.sim.pending.Keys
    && forall c <- resting ::
      var o, p := resting[c], a.sim.pending[c];
      o.side == p.side && o.limitPx == p.limitPx && o.placedAt == p.placedTs && (c in a.unarrived <==> !o.arrived)
  }

  lemma MarksAgree(cfg: Sim.SimConfig, resting: map<Coin, Resting>, a: Agg.AggState, coin: Coin, mark: real, ts: Instant)
    requires Agg.Sound(a) && mark > 0.0 && SameOrders(resting, a)
    ensures var timeout := cfg.makerFillTimeoutSeconds;
            && RouterOutcomeAt(timeout, resting, coin, mark, ts) == SweepOutcome(cfg, a, coin, mark, ts)
            && SameOrders(RestingAfter(timeout, resting, coin, mark, ts), Agg.AfterFills(cfg, Agg.Alo, a, coin, mark, ts))
  {
    hide Sim.Opened;
  }

  /** The two limit formulas agree exactly for non-negative offsets: the router
      ignores a negative one, the sweep quotes away from the market by it. */
  lemma LimitsAgreeIff(offsetBps: real, mark: real, side: Side)
    requires mark > 0.0
    ensures MakerLimitPrice(offsetBps, mark, side) == Agg.QuotedLimit(offsetBps, mark, side) <==> offsetBps >= 0.0
  {
    if offsetBps < 0.0 {
      var shift := Sign(side) * offsetBps / BPS;
      assert shift != 0.0;
      assert mark * (1.0 + shift) == mark + mark * shift;
      assert mark * shift != 0.0 by { if shift > 0.0 { assert mark * shift > 0.0; } else { assert mark * shift < 0.0; } }
    }
  }

  // ------------------------------------------------------------- whole runs

  /** `Left`: both engines have closed their position in the coin. */
  datatype EntryEvent = Placed(signal: Sim.Signal, size: real) | Marked(coin: Coin, px: real, ts: Instant) | Left(coin: Coin)

  datatype RouterState = RouterState(resting: map<Coin, Resting>, held: set<Coin>)

  function RouterStep(timeout: real, offsetBps: real, r: RouterState, e: EntryEvent): (RouterState, Outcome)
  {
    match e
    case Placed(signal, size) =>
      if signal.coin in r.resting || signal.coin in r.held then (r, NoOrder) else
        var limit := MakerLimitPrice(offsetBps, signal.entryMarkPrice, signal.side);
        (r.(resting := r.resting[signal.coin := Resting(signal.coin, signal.side, limit, size, signal.timestamp, false)]), NoOrder)
    case Marked(coin, px, ts) =>
      var outcome := RouterOutcomeAt(timeout, r.resting, coin, px, ts);
      (RouterState(RestingAfter(timeout, r.resting, coin, px, ts), if outcome.Filled? then r.held + {coin} else r.held), outcome)
    case Left(coin) => (r.(held := r.held - {coin}), NoOrder)
  }

  function SweepStep(cfg: Sim.SimConfig, offsetBps: real, a: Agg.AggState, e: EntryEvent): (result: (Agg.AggState, Outcome))
    requires Agg.Sound(a) && 0.0 <= offsetBps < BPS && (e.Marked? ==> e.px > 0.0)
    ensures Agg.Sound(result.0)
  {
    match e
    case Placed(signal, _) => (Agg.AfterSignal(cfg, offsetBps, a, signal), NoOrder)
    case Marked(coin, px, ts) => (Agg.AfterFills(cfg, Agg.Alo, a, coin, px, ts), SweepOutcome(cfg, a, coin, px, ts))
    case Left(coin) => (a.(sim := a.sim.(open := a.sim.open - {coin})), NoOrder)
  }

  /** The router has no concurrency cap and sees only positive marks. */
  predicate Comparable(cfg: Sim.SimConfig, a: Agg.AggState, e: EntryEvent)
  {
    match e
    case Placed(signal, _) => signal.entryMarkPrice > 0.0 && |a.sim.open| + |a.sim.pending| < cfg.maxConcurrent
    case Marked(_, px, _) => px > 0.0
    case Left(_) => true
  }

  predicate ComparableRun(cfg: Sim.SimConfig, offsetBps: real, a: Agg.AggState, events: seq<EntryEvent>)
    requires Agg.Sound(a) && 0.0 <= offsetBps < BPS
    decreases |events|
  {
    events == [] ||
    (Comparable(cfg, a, events[0]) && ComparableRun(cfg, offsetBps, SweepStep(cfg, offsetBps, a, events[0]).0, events[1..]))
  }

  function RouterRun(timeout: real, offsetBps: real, r: RouterState, events: seq<EntryEvent>): (RouterState, seq<Outcome>)
    decreases |events|
  {
    if events == [] then (r, []) else
      var (r1, o) := RouterStep(timeout, offsetBps, r, events[0]);
      var (r2, os) := RouterRun(timeout, offsetBps, r1, events[1..]);
      (r2, [o] + os)
  }

  function SweepRun(cfg: Sim.SimConfig, offsetBps: real, a: Agg.AggState, events: seq<EntryEvent>): (Agg.AggState, seq<Outcome>)
    requires Agg.Sound(a) && 0.0 <= offsetBps < BPS && ComparableRun(cfg, offsetBps, a, events)
    decreases |events|
  {
    if events == [] then (a, []) else
      var (a1, o) := SweepStep(cfg, offsetBps, a, events[0]);
      var (a2, os) := SweepRun(cfg, offsetBps, a1, events[1..]);
      (a2, [o] + os)
  }

  predicate Bisimilar(r: RouterState, a: Agg.AggState)
  {
    SameOrders(r.resting, a) && r.held == a.sim.open.Keys
  }

  lemma StepsAgree(cfg: Sim.SimConfig, offsetBps: real, r: RouterState, a: Agg.AggState, e: EntryEvent)
    requires Agg.Sound(a) && 0.0 <= offsetBps < BPS && Comparable(cfg, a, e) && Bisimilar(r, a)
    ensures var (r1, o1) := RouterStep(cfg.makerFillTimeoutSeconds, offsetBps, r, e);
            var (a1, o2) := SweepStep(cfg, offsetBps, a, e);
            o1 == o2 && Bisimilar(r1, a1)
  {
    match e
    case Placed(signal, size) => PlacementsAgree(cfg, offsetBps, r, a, signal, size);
    case Marked(coin, px, ts) =>
      hide Sim.Opened, SameOrders, Agg.AfterFills, RestingAfter, RouterOutcomeAt, SweepOutcome;
      MarksAgree(cfg, r.resting, a, coin, px, ts);
      HeldAgree(cfg, a, coin, px, ts);
    case Left(_) =>
  }

  lemma HeldAgree(cfg: Sim.SimConfig, a: Agg.AggState, coin: Coin, mark: real, ts: Instant)
    requires Agg.Sound(a) && mark > 0.0
    ensures Agg.AfterFills(cfg, Agg.Alo, a, coin, mark, ts).sim.open.Keys ==
            if SweepOutcome(cfg, a, coin, mark, ts).Filled? then a.sim.open.Keys + {coin} else a.sim.open.Keys
  {
    SweepOutcomeIsBooked(cfg, a, coin, mark, ts);
  }

  lemma PlacementsAgree(cfg: Sim.SimConfig, offsetBps: real, r: RouterState, a: Agg.AggState, signal: Sim.Signal, size: real)
    requires Agg.Sound(a) && 0.0 <= offsetBps < BPS && Comparable(cfg, a, Placed(signal, size)) && Bisimilar(r, a)
    ensures Bisimilar(RouterStep(cfg.makerFillTimeoutSeconds, offsetBps, r, Placed(signal, size)).0,
                      SweepStep(cfg, offsetBps, a, Placed(signal, size)).0)
  {
    hide MakerLimitPrice, Agg.QuotedLimit;
    LimitsAgreeIff(offsetBps, signal.entryMarkPrice, signal.side);
  }

  /** From bisimilar states every comparable run gives the same outcome at each
      event and ends bisimilar: the same orders unarrived and resting, the same
      coins held. */
  lemma {:induction false} RunsAgree(cfg: Sim.SimConfig, offsetBps: real, r: RouterState, a: Agg.AggState, events: seq<EntryEvent>)
    requires Agg.Sound(a) && 0.0 <= offsetBps < BPS && ComparableRun(cfg, offsetBps, a, events) && Bisimilar(r, a)
    ensures var (r1, os1) := RouterRun(cfg.makerFillTimeoutSeconds, offsetBps, r, events);
            var (a1, os2) := SweepRun(cfg, offsetBps, a, events);
            os1 == os2 && Bisimilar(r1, a1)
    decreases |events|
  {
    hide Bisimilar, RouterStep, SweepStep;
    if events != [] {
      StepsAgree(cfg, offsetBps, r, a, events[0]);
      RunsAgree(cfg, offsetBps, RouterStep(cfg.makerFillTimeoutSeconds, offsetBps, r, events[0]).0,
                SweepStep(cfg, offsetBps, a, events[0]).0, events[1..]);
    }
  }

  // ------------------------------------------------------------- the lifecycle itself

  datatype Life = Live(o: Resting) | Ended(at: nat, outcome: Outcome)

  function LifeOf(timeout: real, o: Resting, ticks: seq<Lockstep.Tick>): Life
  {
    if ticks == [] then Live(o) else
      var n := |ticks| - 1;
      match LifeOf(timeout, o, ticks[..n])
      case Ended(at, outcome) => Ended(at, outcome)
      case Live(q) =>
        var outcome := RouterOutcome(timeout, q, ticks[n].px, ticks[n].ts);
        if outcome == Rests then Live(q.(arrived := true)) else if outcome == Waits then Live(q) else Ended(n, outcome)
  }

  predicate TooOld(timeout: real, o: Resting, t: Lockstep.Tick)
  {
    timeout > 0.0 && t.ts - o.placedAt >= timeout
  }

  /** Neither expired nor touched at any mark after the arrival and before `n`. */
  predicate Undisturbed(timeout: real, o: Resting, ticks: seq<Lockstep.Tick>, n: nat)
    requires n <= |ticks|
  {
    forall k | 1 <= k < n :: !TooOld(timeout, o, ticks[k]) && !Sim.Touches(o.side, o.limitPx, ticks[k].px)
  }

  /** A fresh order is rejected by its first mark exactly when that mark crosses
      it; it fills, at its limit, at the first later mark that touches it before
      the timeout; it expires at the first later mark past the timeout. */
  lemma {:induction false} OrderFate(timeout: real, o: Resting, ticks: seq<Lockstep.Tick>)
    requires !o.arrived
    ensures match LifeOf(timeout, o, ticks)
            case Live(q) =>
              && q == o.(arrived := ticks != [])
              && (ticks != [] ==> !Crosses(o.side, o.limitPx, ticks[0].px))
              && Undisturbed(timeout, o, ticks, |ticks|)
            case Ended(at, outcome) =>
              && at < |ticks|
              && (outcome == Rejected || outcome == Expired || outcome == Filled(o.limitPx))
              && (outcome == Rejected <==> at == 0)
              && (Crosses(o.side, o.limitPx, ticks[0].px) <==> outcome == Rejected)
              && (at > 0 ==>
                    && Undisturbed(timeout, o, ticks, at)
                    && (outcome == Expired <==> TooOld(timeout, o, ticks[at]))
                    && (outcome.Filled? ==> Sim.Touches(o.side, o.limitPx, ticks[at].px)))
  {
    if ticks != [] {
      var n := |ticks| - 1;
      OrderFate(timeout, o, ticks[..n]);
      match LifeOf(timeout, o, ticks[..n])
      case Live(_) => assert forall k | 0 <= k < n :: ticks[..n][k] == ticks[k];
      case Ended(at, _) => assert forall k | 0 <= k <= at :: ticks[..n][k] == ticks[k];
    }
  }

  // ------------------------------------------------------------- the fill mark

  /** The one place where the layers part: live management sees the mark that
      filled the entry, the simulator starts at the next one.  They are still in
      step after that mark exactly when it is neither at the stop nor beyond the
      trail measured from the entry. */
  lemma FillMarkInStepIff(cfg: Sim.SimConfig, settings: Pm.Settings, sim: Sim.Position, live: Pm.Managed, mark: real, target: Option<real>)
    requires Lockstep.Mirrors(cfg, settings) && Lockstep.InStep(sim, live) && mark > 0.0
    requires sim.peakPx == sim.terms.entryPx && !sim.breakEvenArmed
    requires Sim.Touches(sim.terms.side, sim.terms.entryPx, mark)
    ensures var now := live.openedAt;
            var managed := Pm.Advanced(settings, live, mark);
            var cb := cfg.trailingCallbackPct;
            var beyond := if sim.terms.side == Long then mark <= sim.stopPx || (cb > 0.0 && mark <= sim.terms.entryPx * (1.0 - cb))
                          else mark >= sim.stopPx || (cb > 0.0 && mark >= sim.terms.entryPx * (1.0 + cb));
            && (Pm.ExitDecision(settings, managed, mark, now, target).Some? <==> beyond)
            && Lockstep.InStep(sim, managed)
  {
    var entry := sim.terms.entryPx;
    assert (if sim.terms.side == Long then mark - entry else entry - mark) <= 0.0;
    NonPositiveGain(entry, mark, sim.terms.side);
  }

  lemma NonPositiveGain(entry: real, mark: real, side: Side)
    requires entry > 0.0 && (if side == Long then mark <= entry else mark >= entry)
    ensures (if side == Long then (mark - entry) / entry * 100.0 else (entry - mark) / entry * 100.0) <= 0.0
  {
    var move := if side == Long then mark - entry else entry - mark;
    QuotientSign(move, entry);
  }

  lemma QuotientSign(x: real, y: real)
    requires x <= 0.0 && y > 0.0
    ensures x / y <= 0.0
  {
    assert -x / y >= 0.0;
  }
}
