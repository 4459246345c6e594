/** The tasks of src/main.py:405-434 that touch positions - one signal consumer,
    one mark consumer, the risk worker behind the kill switch - cut at their real
    suspension points: network reads and orders, the journal write, and the store
    behind its FIFO lock.  Between two suspension points a task runs undisturbed,
    so each step below is one such stretch. */
module Interleaving {
  import opened Prelude
  import opened EntryOrders
  import Sim = Simulator
  import Pm = PositionManagement

  /** `simulated`: dry-run with post-only entries; `timeout` is max_hold_seconds. */
  datatype Config = Config(simulated: bool, timeout: real, offsetBps: real)

  datatype Position = Position(id: nat, coin: Coin, side: Side, entryPx: real)

  datatype SignalPc =
    | SIdle
    | SSizing(signal: Sim.Signal)                // awaiting the collateral snapshot
    | SPlacing(signal: Sim.Signal, size: real)   // awaiting the exchange
    | SSaving                                    // awaiting the store

  /** `rest` holds the positions a panic close has still to visit. */
  datatype MarkPc =
    | MIdle
    | MFilled(coin: Coin)                        // entry filled, awaiting the store
    | MPeakSaving(p: Position)
    | MBreakEvenSaving(p: Position)
    | MJournaling(p: Position, rest: seq<Position>)
    | MExiting(p: Position, rest: seq<Position>) // awaiting the exchange
    | MRemoving(rest: seq<Position>)             // popped, awaiting the store

  datatype Task = SignalTask | MarkTask

  /** A queued store call: its task is suspended until it has run. */
  datatype StoreOp = Put(coin: Coin, task: Task) | Drop(coin: Coin, task: Task)

  /** What happened, in order. */
  datatype Event =
    | Routed(coin: Coin)                              // a signal passed the untripped switch
    | Rested(coin: Coin, side: Side, limitPx: real, at: Instant)
    | Observed(coin: Coin, px: real, at: Instant)     // a fresh mark reached the resting entries
    | Opened(p: Position)
    | ExitAccepted(p: Position)

  /** Where in the log a resting order was placed and where it arrived. */
  datatype Origin = Origin(placed: nat, arrived: nat)

  datatype State = State(
    tripped: bool,
    resting: map<Coin, Resting>, positions: map<Coin, Position>,
    signalTask: SignalPc, markTask: MarkPc,
    shelf: set<Coin>, lock: seq<StoreOp>,
    nextId: nat, log: seq<Event>, origin: map<Coin, Origin>)

  /** The synchronous stretch of position management ends in one of these. */
  datatype Act = PersistPeak | ArmBreakEven | RequestExit | Done

  datatype Step =
    | Trip
    | Untrip
    | TakeSignal(signal: Sim.Signal, gatesOpen: bool)
    | Sized(size: Option<real>)
    | EntryAnswered(entryResponse: Pm.Response, now: Instant)
    | EntrySaved
    | TakeMark(coin: Coin, px: real, at: Instant, isFresh: bool, act: Act)
    | StartPanic(victims: seq<Position>)
    | Resume(next: Act)
    | Journaled(ok: bool)
    | ExitAnswered(exitResponse: Pm.Response)
    | ExitSaved
    | StoreRuns

  // ------------------------------------------------------------- the steps

  predicate Queued(s: State, task: Task)
  {
    exists i | 0 <= i < |s.lock| :: s.lock[i].task == task
  }

  /** `victims` lists the open positions, each once. */
  predicate ListsAll(victims: seq<Position>, positions: map<Coin, Position>)
  {
    && (forall p <- victims :: p.coin in positions && positions[p.coin] == p)
    && (forall c <- positions :: positions[c] in victims)
    && (forall i, j | 0 <= i < j < |victims| :: victims[i].coin != victims[j].coin)
  }

  predicate Enabled(s: State, step: Step)
  {
    match step
    case Trip => !s.tripped
    case Untrip => s.tripped
    case TakeSignal(_, _) => s.signalTask.SIdle?
    case Sized(_) => s.signalTask.SSizing?
    case EntryAnswered(_, _) => s.signalTask.SPlacing?
    case EntrySaved => s.signalTask.SSaving? && !Queued(s, SignalTask)
    case TakeMark(_, _, _, _, _) => s.markTask.MIdle? && !s.tripped
    case StartPanic(victims) => s.markTask.MIdle? && s.tripped && ListsAll(victims, s.positions)
    case Resume(next) =>
      && !Queued(s, MarkTask)
      && (s.markTask.MFilled? || (s.markTask.MPeakSaving? && next != PersistPeak)
          || (s.markTask.MBreakEvenSaving? && (next == RequestExit || next == Done)))
    case Journaled(_) => s.markTask.MJournaling?
    case ExitAnswered(_) => s.markTask.MExiting?
    case ExitSaved => s.markTask.MRemoving? && !Queued(s, MarkTask)
    case StoreRuns => s.lock != []
  }

  function Logged(s: State, e: Event): State { s.(log := s.log + [e]) }

  function Enqueued(s: State, op: StoreOp): State { s.(lock := s.lock + [op]) }

  /** A new position enters management: memory first, then the store is asked. */
  function Entered(s: State, coin: Coin, side: Side, entryPx: real, task: Task): State
  {
    var p := Position(s.nextId, coin, side, entryPx);
    Enqueued(Logged(s.(positions := s.positions[coin := p], nextId := s.nextId + 1), Opened(p)), Put(coin, task))
  }

  /** On to the next panic victim, or back to the queue. */
  function Advance(s: State, rest: seq<Position>): State
  {
    s.(markTask := if rest == [] then MIdle else MJournaling(rest[0], rest[1..]))
  }

  /** Manage the position of `coin`, if there is one, up to the next suspension. */
  function Managed(s: State, coin: Coin, act: Act): State
  {
    if coin !in s.positions then s.(markTask := MIdle) else
      var p := s.positions[coin];
      match act
      case PersistPeak => Enqueued(s.(markTask := MPeakSaving(p)), Put(coin, MarkTask))
      case ArmBreakEven => Enqueued(s.(markTask := MBreakEvenSaving(p)), Put(coin, MarkTask))
      case RequestExit => s.(markTask := MJournaling(p, []))
      case Done => s.(markTask := MIdle)
  }

  /** The mark observer: on_mark up to its registration. */
  function MarkObserved(cfg: Config, s: State, coin: Coin, px: real, at: Instant): State
  {
    var t := Logged(s, Observed(coin, px, at));
    var outcome := RouterOutcomeAt(cfg.timeout, s.resting, coin, px, at);
    var resting := RestingAfter(cfg.timeout, s.resting, coin, px, at);
    match outcome
    case NoOrder => t
    case Waits => t
    case Rests => t.(resting := resting, origin := if coin in t.origin then t.origin[coin := t.origin[coin].(arrived := |s.log|)] else t.origin)
    case Filled(limit) =>
      Entered(t.(resting := resting, origin := t.origin - {coin}), coin, s.resting[coin].side, limit, MarkTask)
    case _ => t.(resting := resting, origin := t.origin - {coin})
  }

  function Apply(cfg: Config, s: State, step: Step): State
    requires Enabled(s, step)
  {
    match step
    case Trip => s.(tripped := true)
    case Untrip => s.(tripped := false)
    case TakeSignal(signal, gatesOpen) =>
      // gatesOpen: the confidence floor, feed warm-up and re-entry cooldown all pass
      if s.tripped || !gatesOpen || signal.coin in s.positions || signal.coin in s.resting then s
      else Logged(s.(signalTask := SSizing(signal)), Routed(signal.coin))
    case Sized(size) =>
      if size.None? || size.value <= 0.0 then s.(signalTask := SIdle)
      else s.(signalTask := SPlacing(s.signalTask.signal, size.value))
    case EntryAnswered(response, now) =>
      var signal, size := s.signalTask.signal, s.signalTask.size;
      if response != Pm.Accepted then s.(signalTask := SIdle)
      else if cfg.simulated then
        var limit := MakerLimitPrice(cfg.offsetBps, signal.entryMarkPrice, signal.side);
        var o := Resting(signal.coin, signal.side, limit, size, now, false);
        Logged(s.(signalTask := SIdle, resting := s.resting[signal.coin := o],
                  origin := s.origin[signal.coin := Origin(|s.log|, |s.log|)]),
               Rested(signal.coin, signal.side, limit, now))
      else Entered(s.(signalTask := SSaving), signal.coin, signal.side, signal.entryMarkPrice, SignalTask)
    case EntrySaved => s.(signalTask := SIdle)
    case TakeMark(coin, px, at, isFresh, act) =>
      if !isFresh then s else
        var t := MarkObserved(cfg, s, coin, px, at);
        if RouterOutcomeAt(cfg.timeout, s.resting, coin, px, at).Filled? then t.(markTask := MFilled(coin))
        else Managed(t, coin, act)
    case StartPanic(victims) => Advance(s, victims)
    case Resume(next) =>
      (match s.markTask
       case MFilled(coin) => Managed(s, coin, next)
       case MPeakSaving(p) => Managed(s, p.coin, next)
       case MBreakEvenSaving(p) => Managed(s, p.coin, next)
       case _ => s)
    case Journaled(ok) =>
      var p, rest := s.markTask.p, s.markTask.rest;
      // route_exit skips a coin that is no longer tracked
      if ok && p.coin in s.positions then s.(markTask := MExiting(p, rest)) else Advance(s, rest)
    case ExitAnswered(response) =>
      var p, rest := s.markTask.p, s.markTask.rest;
      if response != Pm.Accepted then Advance(s, rest)
      else Enqueued(Logged(s.(positions := s.positions - {p.coin}, markTask := MRemoving(rest)), ExitAccepted(p)),
                    Drop(p.coin, MarkTask))
    case ExitSaved => Advance(s, s.markTask.rest)
    case StoreRuns => s.(shelf := Ran(s.shelf, s.lock[0]), lock := s.lock[1..])
  }

  function Ran(shelf: set<Coin>, op: StoreOp): set<Coin>
  {
    match op
    case Put(c, _) => shelf + {c}
    case Drop(c, _) => shelf - {c}
  }

  /** The shelf once every queued call has run. */
  function Settled(shelf: set<Coin>, lock: seq<StoreOp>): set<Coin>
  {
    if lock == [] then shelf else Ran(Settled(shelf, lock[..|lock|-1]), lock[|lock|-1])
  }

  // ------------------------------------------------------------- the invariant

  predicate Tracked(s: State, p: Position)
  {
    p.coin in s.positions && s.positions[p.coin] == p
  }

  /** The positions a panic close has still to visit are tracked and distinct. */
  predicate Victims(s: State, rest: seq<Position>)
  {
    && (forall p <- rest :: Tracked(s, p))
    && (forall i, j | 0 <= i < j < |rest| :: rest[i].coin != rest[j].coin)
  }

  /** A signal between its checks and its order owns a coin nobody else holds. */
  predicate SignalExclusive(s: State)
  {
    (s.signalTask.SSizing? || s.signalTask.SPlacing?) ==>
      s.signalTask.signal.coin !in s.positions && s.signalTask.signal.coin !in s.resting
  }

  /** What the mark consumer is working on is still under management. */
  predicate MarkHolds(s: State)
  {
    match s.markTask
    case MPeakSaving(p) => Tracked(s, p)
    case MBreakEvenSaving(p) => Tracked(s, p)
    case MJournaling(p, rest) => Victims(s, [p] + rest)
    case MExiting(p, rest) => Victims(s, [p] + rest)
    case MRemoving(rest) => Victims(s, rest)
    case _ => true
  }

  predicate Keyed(s: State)
  {
    && (forall c <- s.positions :: s.positions[c].coin == c)
    && (forall c <- s.resting :: s.resting[c].coin == c)
  }

  /** Each resting order's history, as the log has it. */
  predicate HistoryOf(s: State, c: Coin)
    requires c in s.resting && c in s.origin
  {
    var o, og := s.resting[c], s.origin[c];
    && og.placed < |s.log| && s.log[og.placed] == Rested(c, o.side, o.limitPx, o.placedAt)
    && (!o.arrived ==> forall k | og.placed < k < |s.log| :: !ObservedFor(s.log[k], c))
    && (o.arrived ==>
          && og.placed < og.arrived < |s.log| && ObservedFor(s.log[og.arrived], c)
          && !Crosses(o.side, o.limitPx, s.log[og.arrived].px)
          && forall k | og.placed < k < og.arrived :: !ObservedFor(s.log[k], c))
  }

  predicate ObservedFor(e: Event, c: Coin) { e.Observed? && e.coin == c }

  predicate Histories(s: State)
  {
    s.origin.Keys == s.resting.Keys && forall c <- s.resting :: HistoryOf(s, c)
  }

  predicate Inv(s: State)
  {
    && s.resting.Keys !! s.positions.Keys
    && Keyed(s)
    && SignalExclusive(s)
    && MarkHolds(s)
    && Settled(s.shelf, s.lock) == s.positions.Keys
    && Histories(s)
  }

  /** After recovery: nothing resting, both consumers idle, the store in step. */
  predicate Init(s: State)
  {
    && s.resting == map[] && s.origin == map[] && s.log == []
    && s.signalTask == SIdle && s.markTask == MIdle
    && s.lock == [] && s.shelf == s.positions.Keys
    && forall c <- s.positions :: s.positions[c].coin == c
  }

  lemma SettledAppend(shelf: set<Coin>, lock: seq<StoreOp>, op: StoreOp)
    ensures Settled(shelf, lock + [op]) == Ran(Settled(shelf, lock), op)
  {
    assert (lock + [op])[..|lock|] == lock;
  }

  lemma {:induction false} SettledHead(shelf: set<Coin>, lock: seq<StoreOp>)
    requires lock != []
    ensures Settled(Ran(shelf, lock[0]), lock[1..]) == Settled(shelf, lock)
  {
    if |lock| > 1 {
      var n := |lock| - 1;
      SettledHead(shelf, lock[..n]);
      assert lock[..n][1..] == lock[1..][..n-1];
    } else {
      assert lock == [lock[0]];
    }
  }

  lemma LoggedKeepsHistories(s: State, e: Event)
    requires Histories(s) && !e.Observed?
    ensures Histories(Logged(s, e))
  {
    var t := Logged(s, e);
    forall c <- t.resting ensures HistoryOf(t, c) { assert HistoryOf(s, c); }
  }

  lemma EnteredKeepsInv(s: State, coin: Coin, side: Side, entryPx: real, task: Task)
    requires Inv(s) && coin !in s.positions && coin !in s.resting
    requires (s.signalTask.SSizing? || s.signalTask.SPlacing?) ==> s.signalTask.signal.coin != coin
    ensures Inv(Entered(s, coin, side, entryPx, task))
  {
    var p := Position(s.nextId, coin, side, entryPx);
    LoggedKeepsHistories(s, Opened(p));
    SettledAppend(s.shelf, s.lock, Put(coin, task));
    var t := Entered(s, coin, side, entryPx, task);
    assert forall q | Tracked(s, q) :: Tracked(t, q);
    forall c <- t.resting ensures HistoryOf(t, c) { assert HistoryOf(Logged(s, Opened(p)), c); }
  }

  lemma AdvanceKeepsInv(s: State, rest: seq<Position>)
    requires Inv(s.(markTask := MIdle)) && Victims(s, rest)
    ensures Inv(Advance(s, rest))
  {
    var t := Advance(s, rest);
    if rest != [] { assert [rest[0]] + rest[1..] == rest; }
    assert forall p <- rest :: Tracked(s, p) ==> Tracked(t, p);
    forall c <- t.resting ensures HistoryOf(t, c) { assert HistoryOf(s.(markTask := MIdle), c); }
  }

  /** Steps that touch neither books nor log keep everything but the facts about tasks. */
  lemma TasksKeepInv(s: State, t: State)
    requires Inv(s) && t == s.(tripped := t.tripped, signalTask := t.signalTask, markTask := t.markTask)
    requires SignalExclusive(t) && MarkHolds(t)
    ensures Inv(t)
  {
    forall c <- t.resting ensures HistoryOf(t, c) { assert HistoryOf(s, c); }
  }

  lemma ManagedKeepsInv(s: State, coin: Coin, act: Act)
    requires Inv(s.(markTask := MIdle))
    ensures Inv(Managed(s, coin, act))
  {
    var t := s.(markTask := MIdle);
    if coin in s.positions {
      var p := s.positions[coin];
      SettledAppend(s.shelf, s.lock, Put(coin, MarkTask));
      var u := Managed(s, coin, act);
      assert Tracked(u, p);
      assert Settled(u.shelf, u.lock) == u.positions.Keys;
      forall c <- u.resting ensures HistoryOf(u, c) { assert HistoryOf(t, c); }
    }
  }

  lemma RemovedKeepsInv(s: State, p: Position, rest: seq<Position>)
    requires Inv(s) && Victims(s, [p] + rest)
    ensures Inv(Enqueued(Logged(s.(positions := s.positions - {p.coin}, markTask := MRemoving(rest)), ExitAccepted(p)), Drop(p.coin, MarkTask)))
  {
    var t := s.(positions := s.positions - {p.coin}, markTask := MRemoving(rest));
    var u := Enqueued(Logged(t, ExitAccepted(p)), Drop(p.coin, MarkTask));
    SettledAppend(s.shelf, s.lock, Drop(p.coin, MarkTask));
    forall q <- rest ensures Tracked(u, q) {
      assert q in [p] + rest;
      var j :| 0 <= j < |rest| && rest[j] == q;
      assert ([p] + rest)[0] == p && ([p] + rest)[j + 1] == q;
    }
    forall i, j | 0 <= i < j < |rest| ensures rest[i].coin != rest[j].coin {
      assert ([p] + rest)[i + 1] == rest[i] && ([p] + rest)[j + 1] == rest[j];
    }
    forall c <- u.resting ensures HistoryOf(u, c) { assert HistoryOf(s, c); }
  }

  function OrderRested(s: State, o: Resting): State
  {
    Logged(s.(resting := s.resting[o.coin := o], origin := s.origin[o.coin := Origin(|s.log|, |s.log|)]),
           Rested(o.coin, o.side, o.limitPx, o.placedAt))
  }

  lemma RestedKeepsInv(s: State, o: Resting)
    requires Inv(s) && !o.arrived && o.coin !in s.resting && o.coin !in s.positions && !s.signalTask.SSizing? && !s.signalTask.SPlacing?
    ensures Inv(OrderRested(s, o))
  {
    hide MarkHolds, Settled, Histories, HistoryOf;
    RestedHistories(s, o);
    VictimsSame(s, OrderRested(s, o));
  }

  lemma RestedHistories(s: State, o: Resting)
    requires Histories(s) && !o.arrived && o.coin !in s.resting
    ensures Histories(OrderRested(s, o))
  {
    var t := OrderRested(s, o);
    forall c <- t.resting ensures HistoryOf(t, c) {
      if c != o.coin { assert HistoryOf(s, c); }
    }
  }

  /** The first mark of an order is its arrival; later ones leave it waiting,
      or end it. */
  lemma ObservedKeepsInv(cfg: Config, s: State, coin: Coin, px: real, at: Instant)
    requires Inv(s)
    ensures Inv(MarkObserved(cfg, s, coin, px, at))
  {
    hide HistoryOf, MarkHolds, Keyed, Settled;
    var outcome := RouterOutcomeAt(cfg.timeout, s.resting, coin, px, at);
    if coin !in s.resting || outcome == Waits {
      WaitingKeepsInv(s, coin, px, at);
    } else if outcome == Rests {
      ArrivalKeepsInv(s, coin, px, at);
    } else {
      EndedKeepsInv(s, coin, px, at);
      if outcome.Filled? {
        EnteredKeepsInv(OrderEnded(s, coin, px, at), coin, s.resting[coin].side, outcome.px, MarkTask);
      }
    }
  }

  lemma WaitingKeepsInv(s: State, coin: Coin, px: real, at: Instant)
    requires Inv(s) && (coin in s.resting ==> s.resting[coin].arrived)
    ensures Inv(Logged(s, Observed(coin, px, at)))
  {
    var t := Logged(s, Observed(coin, px, at));
    hide MarkHolds, Settled, Crosses;
    VictimsSame(s, t);
    forall c <- t.resting ensures HistoryOf(t, c) { assert HistoryOf(s, c); }
  }

  function OrderArrived(s: State, coin: Coin, px: real, at: Instant): State
    requires coin in s.resting && coin in s.origin
  {
    Logged(s, Observed(coin, px, at)).(
      resting := s.resting[coin := s.resting[coin].(arrived := true)],
      origin := s.origin[coin := s.origin[coin].(arrived := |s.log|)])
  }

  lemma ArrivalKeepsInv(s: State, coin: Coin, px: real, at: Instant)
    requires Inv(s) && coin in s.resting && coin in s.origin
    requires !s.resting[coin].arrived && !Crosses(s.resting[coin].side, s.resting[coin].limitPx, px)
    ensures Inv(OrderArrived(s, coin, px, at))
  {
    var t := OrderArrived(s, coin, px, at);
    hide MarkHolds, Settled, Crosses, Histories, HistoryOf;
    ArrivedHistories(s, coin, px, at);
    VictimsSame(s, t);
  }

  lemma ArrivedHistories(s: State, coin: Coin, px: real, at: Instant)
    requires Histories(s) && coin in s.resting && coin in s.origin
    requires !s.resting[coin].arrived && !Crosses(s.resting[coin].side, s.resting[coin].limitPx, px)
    ensures Histories(OrderArrived(s, coin, px, at))
  {
    var t := OrderArrived(s, coin, px, at);
    ArrivedHistory(s, coin, px, at);
    forall c <- t.resting | c != coin ensures HistoryOf(t, c) { OtherHistory(s, t, c, Observed(coin, px, at)); }
    hide HistoryOf;
  }

  lemma ArrivedHistory(s: State, coin: Coin, px: real, at: Instant)
    requires coin in s.resting && coin in s.origin && HistoryOf(s, coin)
    requires !s.resting[coin].arrived && !Crosses(s.resting[coin].side, s.resting[coin].limitPx, px)
    ensures HistoryOf(OrderArrived(s, coin, px, at), coin)
  {
    hide Crosses;
  }

  /** What is logged about others does not touch an order's history. */
  lemma OtherHistory(s: State, t: State, c: Coin, e: Event)
    requires c in s.resting && c in s.origin && HistoryOf(s, c) && !ObservedFor(e, c)
    requires c in t.resting && c in t.origin && t.resting[c] == s.resting[c] && t.origin[c] == s.origin[c] && t.log == s.log + [e]
    ensures HistoryOf(t, c)
  {
    hide Crosses;
  }

  function OrderEnded(s: State, coin: Coin, px: real, at: Instant): State
  {
    Logged(s, Observed(coin, px, at)).(resting := s.resting - {coin}, origin := s.origin - {coin})
  }

  lemma EndedKeepsInv(s: State, coin: Coin, px: real, at: Instant)
    requires Inv(s) && coin in s.resting
    ensures Inv(OrderEnded(s, coin, px, at))
  {
    var t := OrderEnded(s, coin, px, at);
    hide MarkHolds, Settled, Histories, HistoryOf;
    EndedHistories(s, coin, px, at);
    VictimsSame(s, t);
  }

  lemma EndedHistories(s: State, coin: Coin, px: real, at: Instant)
    requires Histories(s)
    ensures Histories(OrderEnded(s, coin, px, at))
  {
    var t := OrderEnded(s, coin, px, at);
    forall c <- t.resting ensures HistoryOf(t, c) { assert HistoryOf(s, c); }
  }

  /** The steps of an exit in progress and of a panic close. */
  lemma ClosingStepKeepsInv(cfg: Config, s: State, step: Step)
    requires Inv(s) && Enabled(s, step)
    requires step.StartPanic? || step.Journaled? || step.ExitAnswered? || step.ExitSaved?
    ensures Inv(Apply(cfg, s, step))
  {
    hide Histories, Settled, RouterOutcome, RestingAfter, MakerLimitPrice, MarkObserved, Managed, Entered, Advance, HistoryOf;
    TasksKeepInv(s, s.(markTask := MIdle));
    if step.StartPanic? {
      AdvanceKeepsInv(s, step.victims);
    } else if step.ExitSaved? {
      AdvanceKeepsInv(s, s.markTask.rest);
    } else {
      var p, rest := s.markTask.p, s.markTask.rest;
      VictimsTail(s, p, rest);
      AdvanceKeepsInv(s, rest);
      if step.ExitAnswered? {
        RemovedKeepsInv(s, p, rest);
      } else if p.coin in s.positions {
        VictimsIgnoreTask(s, MExiting(p, rest), [p] + rest);
        TasksKeepInv(s, s.(markTask := MExiting(p, rest)));
      }
    }
  }

  /** The answer to an entry: nothing, a resting order or a position. */
  lemma AnswerKeepsInv(cfg: Config, s: State, step: Step)
    requires Inv(s) && Enabled(s, step) && step.EntryAnswered?
    ensures Inv(Apply(cfg, s, step))
  {
    hide Histories, Settled, MakerLimitPrice, Entered, HistoryOf, MarkHolds, Keyed;
    var signal, size := s.signalTask.signal, s.signalTask.size;
    VictimsSame(s, s.(signalTask := SIdle));
    VictimsSame(s, s.(signalTask := SSaving));
    TasksKeepInv(s, s.(signalTask := SIdle));
    TasksKeepInv(s, s.(signalTask := SSaving));
    if step.entryResponse == Pm.Accepted {
      var limit := MakerLimitPrice(cfg.offsetBps, signal.entryMarkPrice, signal.side);
      RestedKeepsInv(s.(signalTask := SIdle), Resting(signal.coin, signal.side, limit, size, step.now, false));
      EnteredKeepsInv(s.(signalTask := SSaving), signal.coin, signal.side, signal.entryMarkPrice, SignalTask);
    }
  }

  /** A mark: the router's fill check, then the position manager. */
  lemma MarkKeepsInv(cfg: Config, s: State, step: Step)
    requires Inv(s) && Enabled(s, step) && step.TakeMark?
    ensures Inv(Apply(cfg, s, step))
  {
    hide Histories, Settled, RouterOutcome, MarkObserved, Managed, HistoryOf;
    if step.isFresh {
      ObservedKeepsInv(cfg, s, step.coin, step.px, step.at);
      var u := MarkObserved(cfg, s, step.coin, step.px, step.at);
      TasksKeepInv(u, u.(markTask := MFilled(step.coin)));
      TasksKeepInv(u, u.(markTask := MIdle));
      ManagedKeepsInv(u, step.coin, step.act);
    }
  }

  /** Every step of every task keeps the invariant. */
  lemma StepKeepsInv(cfg: Config, s: State, step: Step)
    requires Inv(s) && Enabled(s, step)
    ensures Inv(Apply(cfg, s, step))
  {
    hide Histories, Settled, RouterOutcome, RestingAfter, MakerLimitPrice, MarkObserved, Managed, Entered, Advance, HistoryOf;
    var t := Apply(cfg, s, step);
    match step
    case TakeSignal(signal, gatesOpen) =>
      if t != s {
        TasksKeepInv(s, s.(signalTask := SSizing(signal)));
        RoutedKeepsInv(s.(signalTask := SSizing(signal)), signal.coin);
      }
    case EntryAnswered(_, _) =>
      AnswerKeepsInv(cfg, s, step);
    case TakeMark(_, _, _, _, _) =>
      MarkKeepsInv(cfg, s, step);
    case Resume(next) =>
      TasksKeepInv(s, s.(markTask := MIdle));
      match s.markTask {
        case MFilled(coin) => ManagedKeepsInv(s, coin, next);
        case MPeakSaving(p) => ManagedKeepsInv(s, p.coin, next);
        case MBreakEvenSaving(p) => ManagedKeepsInv(s, p.coin, next);
        case _ =>
      }
    case StoreRuns =>
      SettledHead(s.shelf, s.lock);
      StoreKeepsInv(s, t);
    case _ =>
      if step.StartPanic? || step.Journaled? || step.ExitAnswered? || step.ExitSaved? {
        ClosingStepKeepsInv(cfg, s, step);
      } else {
        VictimsSame(s, t);
        TasksKeepInv(s, t);
      }
  }

  lemma VictimsSame(s: State, t: State)
    requires s.positions == t.positions && s.markTask == t.markTask && MarkHolds(s)
    ensures MarkHolds(t)
  {
    assert forall p | Tracked(s, p) :: Tracked(t, p);
  }

  lemma VictimsIgnoreTask(s: State, task: MarkPc, rest: seq<Position>)
    requires Victims(s, rest)
    ensures Victims(s.(markTask := task), rest)
  {
    var t := s.(markTask := task);
    assert forall p | Tracked(s, p) :: Tracked(t, p);
  }

  lemma VictimsTail(s: State, p: Position, rest: seq<Position>)
    requires Victims(s, [p] + rest)
    ensures Victims(s, rest)
  {
    forall q <- rest ensures Tracked(s, q) { assert q in [p] + rest; }
    forall i, j | 0 <= i < j < |rest| ensures rest[i].coin != rest[j].coin {
      assert ([p] + rest)[i + 1] == rest[i] && ([p] + rest)[j + 1] == rest[j];
    }
  }

  lemma RoutedKeepsInv(s: State, coin: Coin)
    requires Inv(s)
    ensures Inv(Logged(s, Routed(coin)))
  {
    LoggedKeepsHistories(s, Routed(coin));
    assert forall p | Tracked(s, p) :: Tracked(Logged(s, Routed(coin)), p);
  }

  lemma StoreKeepsInv(s: State, t: State)
    requires Inv(s) && t == s.(shelf := t.shelf, lock := t.lock) && Settled(t.shelf, t.lock) == Settled(s.shelf, s.lock)
    ensures Inv(t)
  {
    assert forall p | Tracked(s, p) :: Tracked(t, p);
    forall c <- t.resting ensures HistoryOf(t, c) { assert HistoryOf(s, c); }
  }

  // ------------------------------------------------------------- every run

  /** States joined by enabled steps, from a recovered start. */
  predicate IsRun(cfg: Config, states: seq<State>, steps: seq<Step>)
  {
    && |states| == |steps| + 1
    && Init(states[0])
    && forall i | 0 <= i < |steps| :: Enabled(states[i], steps[i]) && states[i+1] == Apply(cfg, states[i], steps[i])
  }

  lemma {:induction false} RunKeepsInv(cfg: Config, states: seq<State>, steps: seq<Step>, i: nat)
    requires IsRun(cfg, states, steps) && i < |states|
    ensures Inv(states[i])
  {
    hide Inv, Enabled, Apply;
    if i == 0 {
      InitIsInv(states[0]);
    } else {
      RunKeepsInv(cfg, states, steps, i - 1);
      assert Enabled(states[i-1], steps[i-1]) && states[(i-1)+1] == Apply(cfg, states[i-1], steps[i-1]);
      StepKeepsInv(cfg, states[i-1], steps[i-1]);
    }
  }

  lemma InitIsInv(s: State)
    requires Init(s)
    ensures Inv(s)
  {
  }

  /** In every reachable state no coin is both resting and open, and the store,
      once its queued calls have run, holds exactly the managed coins - so it
      does whenever neither consumer is waiting on it. */
  lemma ReachableStatesAreSafe(cfg: Config, states: seq<State>, steps: seq<Step>, i: nat)
    requires IsRun(cfg, states, steps) && i < |states|
    ensures states[i].resting.Keys !! states[i].positions.Keys
    ensures Settled(states[i].shelf, states[i].lock) == states[i].positions.Keys
    ensures states[i].lock == [] ==> states[i].shelf == states[i].positions.Keys
  {
    RunKeepsInv(cfg, states, steps, i);
  }

  /** No step overwrites a managed position, and one leaves only in the step that
      receives the exchange's acceptance of its own exit order. */
  lemma PositionsAreNeverOverwritten(cfg: Config, states: seq<State>, steps: seq<Step>, i: nat, c: Coin)
    requires IsRun(cfg, states, steps) && i < |steps| && c in states[i].positions
    ensures var s, t := states[i], states[i+1];
            (c in t.positions && t.positions[c] == s.positions[c])
            || (steps[i] == ExitAnswered(Pm.Accepted) && s.markTask.MExiting? && s.markTask.p == s.positions[c] && c !in t.positions)
  {
    RunKeepsInv(cfg, states, steps, i);
    StepKeepsPositions(cfg, states[i], steps[i], c);
  }

  lemma StepKeepsPositions(cfg: Config, s: State, step: Step, c: Coin)
    requires Inv(s) && Enabled(s, step) && c in s.positions
    ensures var t := Apply(cfg, s, step);
            (c in t.positions && t.positions[c] == s.positions[c])
            || (step == ExitAnswered(Pm.Accepted) && s.markTask.MExiting? && s.markTask.p == s.positions[c] && c !in t.positions)
  {
    hide Histories, Settled, RouterOutcome, MakerLimitPrice, Victims;
    if step.ExitAnswered? {
      assert Tracked(s, s.markTask.p) by { FirstVictim(s, s.markTask.p, s.markTask.rest); }
    }
  }

  lemma FirstVictim(s: State, p: Position, rest: seq<Position>)
    requires Victims(s, [p] + rest)
    ensures Tracked(s, p)
  {
    assert ([p] + rest)[0] == p;
  }

  /** A position opened by a mark comes from a resting order that was placed,
      then met a first mark it did not cross, then this later touching mark
      inside the timeout; it opens at its limit, with the switch untripped. */
  lemma RestingFillsAreHonest(cfg: Config, states: seq<State>, steps: seq<Step>, i: nat, c: Coin)
    requires IsRun(cfg, states, steps) && i < |steps| && steps[i].TakeMark?
    requires c !in states[i].positions && c in states[i+1].positions
    ensures c == steps[i].coin && c in states[i].resting && c in states[i].origin
    ensures var s, step := states[i], steps[i];
            var o, og, p := s.resting[c], s.origin[c], states[i+1].positions[c];
            && !s.tripped && step.isFresh
            && p.entryPx == o.limitPx && p.side == o.side
            && og.placed < og.arrived < |s.log|
            && s.log[og.placed] == Rested(c, o.side, o.limitPx, o.placedAt)
            && ObservedFor(s.log[og.arrived], c) && !Crosses(o.side, o.limitPx, s.log[og.arrived].px)
            && (forall k | og.placed < k < og.arrived :: !ObservedFor(s.log[k], c))
            && Sim.Touches(o.side, o.limitPx, step.px)
            && !(cfg.timeout > 0.0 && step.at - o.placedAt >= cfg.timeout)
  {
    RunKeepsInv(cfg, states, steps, i);
    assert Enabled(states[i], steps[i]) && states[i+1] == Apply(cfg, states[i], steps[i]);
    if c in states[i].resting { assert HistoryOf(states[i], c); }
  }

  /** Outside TakeMark, only an accepted immediate entry opens a position. */
  lemma OtherStepsOpenOnlyAcceptedEntries(cfg: Config, s: State, step: Step, c: Coin)
    requires Inv(s) && Enabled(s, step) && !step.TakeMark? && c !in s.positions && c in Apply(cfg, s, step).positions
    ensures !cfg.simulated && step.EntryAnswered? && step.entryResponse == Pm.Accepted && s.signalTask.signal.coin == c
    ensures var p, signal := Apply(cfg, s, step).positions[c], s.signalTask.signal;
            p.coin == c && p.side == signal.side && p.entryPx == signal.entryMarkPrice
  {
    hide Histories, Settled;
  }

  /** A signal keeps its task from its checks to the exchange's answer. */
  lemma SignalsAreCarried(cfg: Config, s: State, step: Step)
    requires Enabled(s, step)
    ensures var task := Apply(cfg, s, step).signalTask;
            task.SSizing? || task.SPlacing? ==>
              if step.TakeSignal? then task == SSizing(step.signal) && !s.tripped && step.gatesOpen
              else (s.signalTask.SSizing? || s.signalTask.SPlacing?) && task.signal == s.signalTask.signal
  {
    hide RouterOutcome, RestingAfter, MakerLimitPrice, MarkObserved, Ran;
    if step.TakeMark? { MarksKeepSignalTask(cfg, s, step.coin, step.px, step.at); }
  }

  lemma MarksKeepSignalTask(cfg: Config, s: State, coin: Coin, px: real, at: Instant)
    ensures MarkObserved(cfg, s, coin, px, at).signalTask == s.signalTask
  {
    hide RouterOutcome, RestingAfter;
  }

  /** An order that rests is the one the answered signal placed, on its side and
      at its quote, or was resting before and has at most arrived. */
  lemma OrdersAreTheirSignals(cfg: Config, s: State, step: Step, c: Coin)
    requires Inv(s) && Enabled(s, step) && c in Apply(cfg, s, step).resting
    ensures var o := Apply(cfg, s, step).resting[c];
            if c in s.resting then o == s.resting[c] || (step.TakeMark? && step.coin == c && o == s.resting[c].(arrived := true))
            else
              && cfg.simulated && step.EntryAnswered? && step.entryResponse == Pm.Accepted
              && var signal := s.signalTask.signal;
                 && o.coin == signal.coin == c && o.side == signal.side && o.size == s.signalTask.size && o.placedAt == step.now && !o.arrived
                 && o.limitPx == (if cfg.offsetBps <= 0.0 then signal.entryMarkPrice
                                  else match signal.side
                                    case Long => signal.entryMarkPrice * (1.0 + cfg.offsetBps / 10000.0)
                                    case Short => signal.entryMarkPrice * (1.0 - cfg.offsetBps / 10000.0))
  {
    hide Histories, Settled, Keyed, MarkHolds, RouterOutcome, MarkObserved, MakerLimitPrice;
    if step.TakeMark? {
      MarksOnlyArrive(cfg, s, step.coin, step.px, step.at, c);
    } else if step.EntryAnswered? {
      QuoteIs(cfg.offsetBps, s.signalTask.signal);
    } else {
      OthersLeaveOrders(cfg, s, step);
      hide Apply, Inv;
    }
  }

  lemma OthersLeaveOrders(cfg: Config, s: State, step: Step)
    requires Enabled(s, step) && !step.TakeMark? && !step.EntryAnswered?
    ensures Apply(cfg, s, step).resting == s.resting
  {
    hide Queued, ListsAll;
    match step {
      case TakeSignal(_, _) =>
      case Resume(_) =>
      case Journaled(_) =>
      case ExitAnswered(_) =>
      case _ =>
    }
  }

  lemma MarksOnlyArrive(cfg: Config, s: State, coin: Coin, px: real, at: Instant, c: Coin)
    ensures var t := MarkObserved(cfg, s, coin, px, at);
            c in t.resting ==> c in s.resting && (t.resting[c] == s.resting[c] || (c == coin && t.resting[c] == s.resting[c].(arrived := true)))
  {
    hide RouterOutcome;
  }

  lemma QuoteIs(offsetBps: real, signal: Sim.Signal)
    ensures MakerLimitPrice(offsetBps, signal.entryMarkPrice, signal.side) ==
              if offsetBps <= 0.0 then signal.entryMarkPrice
              else match signal.side
                case Long => signal.entryMarkPrice * (1.0 + offsetBps / 10000.0)
                case Short => signal.entryMarkPrice * (1.0 - offsetBps / 10000.0)
  {
  }

  /** The switch is read once, before the first suspension.  So a position opens
      in a tripped state exactly when an immediate (not simulated) entry that was
      routed earlier is accepted after the trip. */
  lemma OpensWhileTrippedIff(cfg: Config, s: State, step: Step, c: Coin)
    requires Inv(s) && Enabled(s, step) && s.tripped && c !in s.positions
    ensures c in Apply(cfg, s, step).positions <==>
            !cfg.simulated && step.EntryAnswered? && step.entryResponse == Pm.Accepted && s.signalTask.signal.coin == c
  {
    hide Histories, Settled;
  }

  /** Such a run exists: the trip lands while the order is at the exchange. */
  lemma TripDuringEntryStillOpens(cfg: Config, signal: Sim.Signal)
    requires !cfg.simulated
    ensures exists states: seq<State>, steps: seq<Step> :: IsRun(cfg, states, steps) && |steps| == 4
              && states[3].tripped && states[3].positions == map[] && signal.coin in states[4].positions
  {
    var s0 := State(false, map[], map[], SIdle, MIdle, {}, [], 0, [], map[]);
    var steps := [TakeSignal(signal, true), Sized(Some(1.0)), Trip, EntryAnswered(Pm.Accepted, 0.0)];
    var s1 := Apply(cfg, s0, steps[0]);
    var s2 := Apply(cfg, s1, steps[1]);
    var s3 := Apply(cfg, s2, steps[2]);
    var states := [s0, s1, s2, s3, Apply(cfg, s3, steps[3])];
    assert IsRun(cfg, states, steps);
  }
}
