/** src/execution/position_manager.py and src/core/open_position_store.py: live
    positions under stop management and their record on disk.  The manager and
    the store share position objects, as the source does, so a field changed
    through one is seen through the other. */
module PositionManagement {
  import opened Prelude

  const FEE_BUFFER_PCT: real := 0.001
  const INITIAL_STOP_PCT: real := 0.02
  const PEAK_PERSIST_DEBOUNCE_SECONDS: real := 5.0
  const SIZE_RECONCILE_TOLERANCE: real := 0.001

  datatype Settings = Settings(
    breakEvenTriggerPct: real, trailingCallbackPct: real,
    minHoldSeconds: real, maxHoldSeconds: real, markStalenessGapSeconds: real,
    reversionTpEnabled: bool, atrStopEnabled: bool, atrStopMult: real, atrStopMinPct: real,
    makerEntryEnabled: bool, makerEntryOffsetBps: real, makerFeeBps: real, takerFeeBps: real,
    botDryRun: bool)

  datatype Managed = Managed(
    coin: Coin, side: Side, entryPx: real, size: real, stopPx: real,
    breakEvenArmed: bool, peakPx: Option<real>, openedAt: Instant)

  datatype ExitReason = StopLoss | ReversionTp | TrailingStop | TimeStop | KillSwitchExit

  datatype ExitRequest = ExitRequest(reason: ExitReason, px: real)

  /** What the exchange said to an order. */
  datatype Response = Accepted | Rejected | Raised

  datatype JournalRow = JournalRow(position: Managed, exitPx: real, pnl: real, fee: real, net: real, reason: ExitReason)

  // ------------------------------------------------------------- decisions

  function GainPct(p: Managed, mark: real): real
  {
    if p.entryPx <= 0.0 then 0.0
    else if p.side == Long then (mark - p.entryPx) / p.entryPx * 100.0
    else (p.entryPx - mark) / p.entryPx * 100.0
  }

  function WithPeak(p: Managed, mark: real): (q: Managed)
    ensures q == p.(peakPx := q.peakPx) && q.peakPx.Some?
  {
    match p.peakPx
    case None => p.(peakPx := Some(mark))
    case Some(peak) => p.(peakPx := Some(if p.side == Long then RMax(peak, mark) else RMin(peak, mark)))
  }

  function WithBreakEven(settings: Settings, p: Managed, mark: real): (q: Managed)
    ensures q == p.(stopPx := q.stopPx, breakEvenArmed := q.breakEvenArmed)
    ensures q != p ==> q.breakEvenArmed && !p.breakEvenArmed
  {
    if settings.breakEvenTriggerPct <= 0.0 || p.breakEvenArmed || GainPct(p, mark) < settings.breakEvenTriggerPct then p
    else if p.side == Long then
      p.(stopPx := RMax(p.stopPx, p.entryPx * (1.0 + FEE_BUFFER_PCT)), breakEvenArmed := true)
    else
      p.(stopPx := RMin(p.stopPx, p.entryPx * (1.0 - FEE_BUFFER_PCT)), breakEvenArmed := true)
  }

  function Advanced(settings: Settings, p: Managed, mark: real): Managed
  {
    WithBreakEven(settings, WithPeak(p, mark), mark)
  }

  predicate HitHardStop(p: Managed, mark: real)
  {
    if p.side == Long then mark <= p.stopPx else mark >= p.stopPx
  }

  predicate WithinMinHold(settings: Settings, p: Managed, now: Instant)
  {
    settings.minHoldSeconds > 0.0 && now - p.openedAt < settings.minHoldSeconds
  }

  predicate ExceededMaxHold(settings: Settings, p: Managed, now: Instant)
  {
    settings.maxHoldSeconds > 0.0 && now - p.openedAt >= settings.maxHoldSeconds
  }

  /** `target` is the rolling mean mark, None until two marks were seen. */
  function ReversionTakeProfit(settings: Settings, p: Managed, mark: real, target: Option<real>): Option<real>
  {
    if !settings.reversionTpEnabled || target.None? then None
    else if p.side == Long then (if mark >= target.value && mark > p.entryPx then Some(mark) else None)
    else if mark <= target.value && mark < p.entryPx then Some(mark) else None
  }

  function TrailTrigger(settings: Settings, p: Managed, mark: real): Option<real>
  {
    var callback := settings.trailingCallbackPct;
    if p.peakPx.None? || p.peakPx.value <= 0.0 || callback <= 0.0 then None
    else if p.side == Long then
      var trigger := p.peakPx.value * (1.0 - callback);
      if mark <= trigger then Some(trigger) else None
    else
      var trigger := p.peakPx.value * (1.0 + callback);
      if mark >= trigger then Some(trigger) else None
  }

  /** Hard stop (unless inside min-hold), reversion, trail, horizon: first due wins. */
  function ExitDecision(settings: Settings, p: Managed, mark: real, now: Instant, target: Option<real>): Option<ExitRequest>
  {
    if HitHardStop(p, mark) && !WithinMinHold(settings, p, now) then Some(ExitRequest(StopLoss, mark))
    else
      var reversion := ReversionTakeProfit(settings, p, mark, target);
      if reversion.Some? then Some(ExitRequest(ReversionTp, reversion.value))
      else if TrailTrigger(settings, p, mark).Some? then Some(ExitRequest(TrailingStop, mark))
      else if ExceededMaxHold(settings, p, now) then Some(ExitRequest(TimeStop, mark))
      else None
  }

  function CalcPnlUsd(p: Managed, exitPx: real): real
  {
    if p.side == Long then (exitPx - p.entryPx) * p.size else (p.entryPx - exitPx) * p.size
  }

  /** src/core/trade_journal.py: maker or taker on entry, always taker on exit. */
  function CalcFeeUsd(entryPx: real, exitPx: real, size: real, makerEntry: bool, makerFeeBps: real, takerFeeBps: real): real
  {
    var entryRate := if makerEntry then makerFeeBps else takerFeeBps;
    entryPx * size * entryRate / BPS + exitPx * size * takerFeeBps / BPS
  }

  function RowOf(settings: Settings, p: Managed, request: ExitRequest): JournalRow
  {
    var pnl := CalcPnlUsd(p, request.px);
    var fee := CalcFeeUsd(p.entryPx, request.px, p.size, settings.makerEntryEnabled, settings.makerFeeBps, settings.takerFeeBps);
    JournalRow(p, request.px, pnl, fee, pnl - fee, request.reason)
  }

  /** The volatility stop when an ATR reading exists, else the fixed-percentage stop. */
  function StopDistance(settings: Settings, atrPct: Option<real>): real
  {
    if settings.atrStopEnabled && atrPct.Some? && atrPct.value > 0.0
    then RMax(atrPct.value * settings.atrStopMult, settings.atrStopMinPct)
    else INITIAL_STOP_PCT
  }

  function InitialStop(settings: Settings, atrPct: Option<real>, entryPx: real, side: Side): real
  {
    var dist := StopDistance(settings, atrPct);
    if side == Long then entryPx * (1.0 - dist) else entryPx * (1.0 + dist)
  }

  lemma InitialStopIsOnTheLosingSide(settings: Settings, atrPct: Option<real>, entryPx: real, side: Side)
    requires entryPx > 0.0 && settings.atrStopMult > 0.0
    ensures var stop := InitialStop(settings, atrPct, entryPx, side);
            if side == Long then stop < entryPx else stop > entryPx
  {
    var dist := StopDistance(settings, atrPct);
    if settings.atrStopEnabled && atrPct.Some? && atrPct.value > 0.0 {
      assert atrPct.value * settings.atrStopMult > 0.0;
    }
    assert dist > 0.0 && entryPx * dist > 0.0;
    assert entryPx * (1.0 - dist) == entryPx - entryPx * dist;
    assert entryPx * (1.0 + dist) == entryPx + entryPx * dist;
  }

  // ------------------------------------------------------------- the books

  /** Managed positions and their record.  `shelf` is what the store's own map
      holds; a coin in `shared` has one object in both maps, so a change through
      the manager also changes the shelf.  `disk` is the file. */
  datatype Live = Live(
    book: map<Coin, Managed>, shelf: map<Coin, Managed>, shared: set<Coin>, disk: map<Coin, Managed>,
    lastPeakPersist: map<Coin, Instant>, journal: seq<JournalRow>)

  /** A field of the managed object changes in place. */
  function Mutated(s: Live, p: Managed): Live
  {
    s.(book := s.book[p.coin := p], shelf := if p.coin in s.shared then s.shelf[p.coin := p] else s.shelf)
  }

  /** The store takes the managed object and rewrites the file from its shelf. */
  function Upserted(s: Live, coin: Coin): Live
    requires coin in s.book
  {
    var shelf := s.shelf[coin := s.book[coin]];
    s.(shelf := shelf, shared := s.shared + {coin}, disk := shelf)
  }

  function Removed(s: Live, coin: Coin): Live
  {
    s.(book := s.book - {coin}, shelf := s.shelf - {coin}, shared := s.shared - {coin},
       disk := if coin in s.shelf then s.shelf - {coin} else s.disk,
       lastPeakPersist := s.lastPeakPersist - {coin})
  }

  function Seeded(p: Managed): (q: Managed)
    ensures q == p.(peakPx := q.peakPx) && q.peakPx.Some?
  {
    if p.peakPx.None? then p.(peakPx := Some(p.entryPx)) else p
  }

  function Registered(s: Live, p: Managed): Live
  {
    Upserted(s.(book := s.book[p.coin := Seeded(p)]), p.coin)
  }

  function PeakPersisted(s: Live, coin: Coin, now: Instant): Live
    requires coin in s.book
  {
    if coin in s.lastPeakPersist && now - s.lastPeakPersist[coin] < PEAK_PERSIST_DEBOUNCE_SECONDS then s
    else Upserted(s.(lastPeakPersist := s.lastPeakPersist[coin := now]), coin)
  }

  function ExitRequested(settings: Settings, s: Live, coin: Coin, request: ExitRequest, response: Response): Live
    requires coin in s.book
  {
    var t := s.(journal := s.journal + [RowOf(settings, s.book[coin], request)]);
    if response == Accepted then Removed(t, coin) else t
  }

  function AfterPeak(s: Live, coin: Coin, mark: real, now: Instant): (t: Live)
    requires coin in s.book && s.book[coin].coin == coin
    ensures t.book == s.book[coin := WithPeak(s.book[coin], mark)] && t.journal == s.journal
  {
    var p := WithPeak(s.book[coin], mark);
    var t := Mutated(s, p);
    if p.peakPx != s.book[coin].peakPx then PeakPersisted(t, coin, now) else t
  }

  function AfterBreakEven(settings: Settings, s: Live, coin: Coin, mark: real): (t: Live)
    requires coin in s.book && s.book[coin].coin == coin
    ensures t.book == s.book[coin := WithBreakEven(settings, s.book[coin], mark)] && t.journal == s.journal
  {
    var p := WithBreakEven(settings, s.book[coin], mark);
    if p == s.book[coin] then s else Upserted(Mutated(s, p), coin)
  }

  predicate KeyedByCoin(s: Live)
  {
    && (forall c <- s.book :: s.book[c].coin == c)
    && (forall c <- s.shelf :: s.shelf[c].coin == c)
    && s.shelf.Keys == s.book.Keys
    && s.shared <= s.book.Keys
  }

  /** The exit half of a mark. */
  function AfterDecision(settings: Settings, s: Live, coin: Coin, mark: real, now: Instant, target: Option<real>, response: Response): Live
    requires coin in s.book
  {
    match ExitDecision(settings, s.book[coin], mark, now, target)
    case None => s
    case Some(request) => ExitRequested(settings, s, coin, request, response)
  }

  /** One fresh mark for one coin, the switch untripped. */
  function AfterMark(settings: Settings, s: Live, coin: Coin, mark: real, now: Instant, target: Option<real>, response: Response): Live
    requires KeyedByCoin(s)
  {
    if coin !in s.book then s
    else AfterDecision(settings, AfterBreakEven(settings, AfterPeak(s, coin, mark, now), coin, mark), coin, mark, now, target, response)
  }

  predicate Distinct(order: seq<Coin>)
  {
    forall i, j | 0 <= i < j < |order| :: order[i] != order[j]
  }

  // ------------------------------------------------------------- recovery

  /** A position as the exchange reports it; flat legs are never reported. */
  datatype ExchangePosition = ExchangePosition(signedSize: real, entryPx: real)
  {
    function HeldSide(): Side { if signedSize > 0.0 then Long else Short }

    function AbsSize(): real { RAbs(signedSize) }
  }

  /** The disk position corrected against exchange truth. */
  function Reconciled(settings: Settings, atrPct: Option<real>, p: Managed, live: ExchangePosition): (q: Managed)
    ensures q.coin == p.coin
  {
    if live.HeldSide() != p.side then
      var entryPx := if live.entryPx != 0.0 then live.entryPx else p.entryPx;
      Managed(p.coin, live.HeldSide(), entryPx, live.AbsSize(),
              InitialStop(settings, atrPct, entryPx, live.HeldSide()), false, Some(entryPx), p.openedAt)
    else if p.size > 0.0 && RAbs(live.AbsSize() - p.size) / p.size > SIZE_RECONCILE_TOLERANCE then
      p.(size := live.AbsSize())
    else p
  }

  /** An exchange position the bot has no record of, put under stop management. */
  function Adopted(settings: Settings, atrPct: Option<real>, coin: Coin, live: ExchangePosition, now: Instant): Managed
  {
    Managed(coin, live.HeldSide(), live.entryPx, live.AbsSize(),
            InitialStop(settings, atrPct, live.entryPx, live.HeldSide()), false, Some(live.entryPx), now)
  }

  /** What startup works from: the readable disk record, the exchange's answer
      (None in dry-run), the allowed symbols and the ATR readings. */
  datatype Startup = Startup(
    saved: map<Coin, Managed>, exchange: Option<map<Coin, ExchangePosition>>,
    allowed: set<Coin>, atr: map<Coin, real>, now: Instant)
  {
    function Atr(c: Coin): Option<real> { if c in atr then Some(atr[c]) else None }

    predicate Keeps(c: Coin) { c in saved && c in allowed && (exchange.Some? ==> c in exchange.value) }

    predicate Adopts(c: Coin)
    {
      exchange.Some? && c in exchange.value && c !in saved && exchange.value[c].entryPx > 0.0
    }

    /** The exchange holds the other side: a new position replaces the saved one. */
    predicate Rebuilds(c: Coin)
      requires Keeps(c)
    {
      exchange.Some? && exchange.value[c].HeldSide() != saved[c].side
    }

    /** The exchange holds another size: the saved position is corrected in place. */
    predicate Resizes(c: Coin)
      requires Keeps(c)
    {
      exchange.Some? && !Rebuilds(c) && saved[c].size > 0.0
      && RAbs(exchange.value[c].AbsSize() - saved[c].size) / saved[c].size > SIZE_RECONCILE_TOLERANCE
    }

    function Managed(settings: Settings, c: Coin): (p: Managed)
      requires Keeps(c) || Adopts(c)
    {
      if c !in saved then Adopted(settings, Atr(c), c, exchange.value[c], now)
      else if exchange.Some? then Reconciled(settings, Atr(c), saved[c], exchange.value[c])
      else saved[c]
    }
  }

  /** One saved coin: dropped from the store and the file, or kept - a rebuilt
      position in memory only, any other as the store's own object. */
  function RestoreStep(settings: Settings, st: Startup, s: Live, coin: Coin): Live
    requires coin in st.saved
  {
    if !st.Keeps(coin) then s.(shelf := s.shelf - {coin}, disk := s.shelf - {coin})
    else
      var p := st.Managed(settings, coin);
      if st.Rebuilds(coin) then s.(book := s.book[coin := p])
      else s.(book := s.book[coin := p], shelf := s.shelf[coin := p], shared := s.shared + {coin})
  }

  /** The saved coins in the order of the file. */
  function RestoredAll(settings: Settings, st: Startup, s: Live, order: seq<Coin>): Live
    requires forall c <- order :: c in st.saved
  {
    if order == [] then s
    else RestoreStep(settings, st, RestoredAll(settings, st, s, order[..|order| - 1]), order[|order| - 1])
  }

  /** Every adoption is written at once, so only whether there was one matters. */
  function WithAdopted(settings: Settings, st: Startup, s: Live, coins: set<Coin>): Live
  {
    var taken := map c | c in coins && st.Adopts(c) :: st.Managed(settings, c);
    if taken == map[] then s
    else s.(book := s.book + taken, shelf := s.shelf + taken, shared := s.shared + taken.Keys, disk := s.shelf + taken)
  }

  function Recovered(settings: Settings, st: Startup, s: Live, order: seq<Coin>): Live
    requires forall c <- order :: c in st.saved
  {
    WithAdopted(settings, st, RestoredAll(settings, st, s, order), if st.exchange.Some? then st.exchange.value.Keys else {})
  }

  /** Before recovery nothing is managed and the store holds what was saved. */
  predicate Unrecovered(st: Startup, s: Live)
  {
    && s.book == map[] && s.shared == {} && s.shelf == st.saved
    && forall c <- st.saved :: st.saved[c].coin == c
  }

  /** What the store holds of a saved coin after its turn. */
  function Shelved(settings: Settings, st: Startup, c: Coin): Managed
    requires st.Keeps(c)
  {
    if st.Rebuilds(c) then st.saved[c] else st.Managed(settings, c)
  }

  ghost predicate RestoredFacts(settings: Settings, st: Startup, t: Live, order: seq<Coin>)
  {
    && (forall c :: c in t.book <==> c in order && st.Keeps(c))
    && (forall c <- t.book :: t.book[c] == st.Managed(settings, c))
    && (forall c :: c in t.shelf <==> c in st.saved && (c in order ==> st.Keeps(c)))
    && (forall c <- t.shelf :: t.shelf[c] == if c in order then Shelved(settings, st, c) else st.saved[c])
    && (forall c :: c in t.shared <==> c in order && st.Keeps(c) && !st.Rebuilds(c))
  }

  lemma {:induction false} RestoredAllFacts(settings: Settings, st: Startup, s: Live, order: seq<Coin>)
    requires Unrecovered(st, s) && Distinct(order) && forall c <- order :: c in st.saved
    ensures RestoredFacts(settings, st, RestoredAll(settings, st, s, order), order)
  {
    hide Startup.Managed;
    if order != [] {
      var init, last := order[..|order| - 1], order[|order| - 1];
      assert order == init + [last];
      RestoredAllFacts(settings, st, s, init);
      hide RestoredAll;
      RestoreStepFacts(settings, st, RestoredAll(settings, st, s, init), init, last);
    }
  }

  lemma RestoreStepFacts(settings: Settings, st: Startup, t: Live, order: seq<Coin>, coin: Coin)
    requires RestoredFacts(settings, st, t, order) && coin in st.saved && coin !in order
    ensures RestoredFacts(settings, st, RestoreStep(settings, st, t, coin), order + [coin])
  {
    hide RestoredFacts;
    if st.Keeps(coin) {
      KeepFacts(settings, st, t, order, coin);
    } else {
      DropFacts(settings, st, t, order, coin);
    }
  }

  lemma DropFacts(settings: Settings, st: Startup, t: Live, order: seq<Coin>, coin: Coin)
    requires RestoredFacts(settings, st, t, order) && coin in st.saved && coin !in order && !st.Keeps(coin)
    ensures RestoredFacts(settings, st, t.(shelf := t.shelf - {coin}, disk := t.shelf - {coin}), order + [coin])
  {
    hide Startup.Managed, Startup.Rebuilds, Startup.Keeps, Shelved;
  }

  lemma KeepFacts(settings: Settings, st: Startup, t: Live, order: seq<Coin>, coin: Coin)
    requires RestoredFacts(settings, st, t, order) && coin in st.saved && coin !in order && st.Keeps(coin)
    ensures RestoredFacts(settings, st, RestoreStep(settings, st, t, coin), order + [coin])
  {
    hide Startup.Managed, Startup.Rebuilds, Startup.Keeps;
  }

  lemma AdoptMore(settings: Settings, st: Startup, s: Live, coins: set<Coin>, coin: Coin)
    requires coin !in coins
    ensures WithAdopted(settings, st, s, coins + {coin}) ==
              if st.Adopts(coin)
              then Upserted(WithAdopted(settings, st, s, coins).(book := WithAdopted(settings, st, s, coins).book[coin := st.Managed(settings, coin)]), coin)
              else WithAdopted(settings, st, s, coins)
  {
    hide Startup.Managed;
    var before := map c | c in coins && st.Adopts(c) :: st.Managed(settings, c);
    var after := map c | c in coins + {coin} && st.Adopts(c) :: st.Managed(settings, c);
    if st.Adopts(coin) {
      assert after == before[coin := st.Managed(settings, coin)];
      assert after != map[] by { assert coin in after; }
      MapAddsOne(s.book, before, coin, st.Managed(settings, coin));
      MapAddsOne(s.shelf, before, coin, st.Managed(settings, coin));
      hide *;
      assert s.shared + after.Keys == (s.shared + before.Keys) + {coin};
    } else {
      assert after == before;
    }
  }

  lemma MapAddsOne(base: map<Coin, Managed>, more: map<Coin, Managed>, coin: Coin, p: Managed)
    ensures base + more[coin := p] == (base + more)[coin := p]
    ensures more == map[] ==> base + more == base
  {
  }

  /** The managed set: saved, allowed and not denied by the exchange; or on the
      exchange, not saved, with an entry price.  The store's keys are the same;
      so are the file's, if it was readable or anything was adopted. */
  lemma RecoveredSet(settings: Settings, st: Startup, s: Live, order: seq<Coin>)
    requires Unrecovered(st, s) && Distinct(order) && forall c :: c in order <==> c in st.saved
    ensures var t := Recovered(settings, st, s, order);
            && (forall c :: c in t.book <==> st.Keeps(c) || st.Adopts(c))
            && (forall c <- t.book :: t.book[c] == st.Managed(settings, c) && t.book[c].coin == c)
            && t.shelf.Keys == t.book.Keys
  {
    var r := RestoredAll(settings, st, s, order);
    RestoredAllFacts(settings, st, s, order);
    var coins := if st.exchange.Some? then st.exchange.value.Keys else {};
    AdoptedSet(settings, st, r, coins);
    hide RestoredAll, WithAdopted, Startup.Managed, Shelved;
    var t := Recovered(settings, st, s, order);
    assert forall c | st.Adopts(c) :: c in coins && c !in st.saved;
    assert forall c :: c in t.shelf <==> c in t.book;
    forall c <- t.book ensures t.book[c] == st.Managed(settings, c) && t.book[c].coin == c {
      ManagedIsKeyed(settings, st, c);
    }
  }

  /** Which coins are managed after startup, coin by coin. */
  lemma RecoveredCoins(settings: Settings, st: Startup, s: Live, order: seq<Coin>, c: Coin)
    requires Unrecovered(st, s) && Distinct(order) && forall d :: d in order <==> d in st.saved
    ensures var held := if st.exchange.Some? then st.exchange.value.Keys else st.saved.Keys;
            c in Recovered(settings, st, s, order).book <==>
              if c in st.saved then c in st.allowed && c in held
              else st.exchange.Some? && c in held && st.exchange.value[c].entryPx > 0.0
  {
    RecoveredSet(settings, st, s, order);
    hide Recovered;
  }

  lemma ManagedIsKeyed(settings: Settings, st: Startup, c: Coin)
    requires (st.Keeps(c) || st.Adopts(c)) && (c in st.saved ==> st.saved[c].coin == c)
    ensures st.Managed(settings, c).coin == c
  {
  }

  lemma AdoptedSet(settings: Settings, st: Startup, s: Live, coins: set<Coin>)
    ensures var t := WithAdopted(settings, st, s, coins);
            && (forall c :: c in t.book <==> c in s.book || (c in coins && st.Adopts(c)))
            && (forall c <- t.book :: t.book[c] == if c in coins && st.Adopts(c) then st.Managed(settings, c) else s.book[c])
            && (forall c :: c in t.shelf <==> c in s.shelf || (c in coins && st.Adopts(c)))
            && (forall c <- t.shelf :: t.shelf[c] == if c in coins && st.Adopts(c) then st.Managed(settings, c) else s.shelf[c])
            && (forall c :: c in t.shared <==> c in s.shared || (c in coins && st.Adopts(c)))
            && t.disk == if exists c :: c in coins && st.Adopts(c) then t.shelf else s.disk
  {
    hide Startup.Managed;
    var taken := map c | c in coins && st.Adopts(c) :: st.Managed(settings, c);
    if c :| c in coins && st.Adopts(c) {
      assert c in taken;
    } else {
      assert taken == map[];
    }
    hide Startup.Adopts;
  }

  lemma RatioBound(x: real, y: real, r: real)
    requires y > 0.0 && x / y <= r
    ensures x <= r * y
  {
    assert x == x / y * y;
  }

  /** Every position recovered from the exchange has the exchange's side; its
      size is the exchange's or within 0.1% of the saved one; and a stop that
      had to be built lies on the losing side of entry. */
  lemma RecoveredMatchesExchange(settings: Settings, st: Startup, c: Coin)
    requires settings.atrStopMult > 0.0 && st.exchange.Some? && (st.Keeps(c) || st.Adopts(c))
    requires c in st.saved ==> st.saved[c].size > 0.0 && st.saved[c].entryPx > 0.0 && st.exchange.value[c].entryPx >= 0.0
    ensures var live := st.exchange.value[c];
            var p := st.Managed(settings, c);
            && p.side == live.HeldSide()
            && RAbs(live.AbsSize() - p.size) <= SIZE_RECONCILE_TOLERANCE * p.size
            && (c !in st.saved || st.saved[c].side != live.HeldSide() ==>
                  p.entryPx > 0.0 && !p.breakEvenArmed && p.peakPx == Some(p.entryPx)
                  && if p.side == Long then p.stopPx < p.entryPx else p.stopPx > p.entryPx)
  {
    var live := st.exchange.value[c];
    var p := st.Managed(settings, c);
    InitialStopIsOnTheLosingSide(settings, st.Atr(c), if p.entryPx > 0.0 then p.entryPx else 1.0, p.side);
    if c in st.saved && st.saved[c].side == live.HeldSide() {
      var size := st.saved[c].size;
      var drift := RAbs(live.AbsSize() - size);
      if drift / size <= SIZE_RECONCILE_TOLERANCE {
        RatioBound(drift, size, SIZE_RECONCILE_TOLERANCE);
      }
    }
  }

  /** What a recovered position is: as saved where the exchange holds the same
      side, but for a size that drifted; rebuilt from the exchange, keeping only
      its opening time, where it holds the other; all the exchange's where
      nothing was saved. */
  lemma RecoveredIsSavedOrHeld(settings: Settings, st: Startup, c: Coin)
    requires st.Keeps(c) || st.Adopts(c)
    ensures var p := st.Managed(settings, c);
            if st.exchange.None? then c in st.saved && p == st.saved[c]
            else
              var live := st.exchange.value[c];
              var side := if live.signedSize > 0.0 then Long else Short;
              var size := if live.signedSize >= 0.0 then live.signedSize else -live.signedSize;
              if c in st.saved && st.saved[c].side == side then
                var q := st.saved[c];
                var drifts := q.size > 0.0 && (size - q.size > SIZE_RECONCILE_TOLERANCE * q.size || q.size - size > SIZE_RECONCILE_TOLERANCE * q.size);
                p == q.(size := if drifts then size else q.size)
              else
                && p.side == side && p.size == size && !p.breakEvenArmed && p.peakPx == Some(p.entryPx)
                && p.stopPx == InitialStop(settings, st.Atr(c), p.entryPx, side)
                && (if c in st.saved then
                      && p.coin == st.saved[c].coin && p.openedAt == st.saved[c].openedAt
                      && p.entryPx == if live.entryPx == 0.0 then st.saved[c].entryPx else live.entryPx
                    else p.coin == c && p.openedAt == st.now && p.entryPx == live.entryPx)
  {
    hide InitialStop;
    if st.exchange.Some? && c in st.saved && st.saved[c].size > 0.0 {
      DriftIff(RAbs(st.exchange.value[c].AbsSize() - st.saved[c].size), st.saved[c].size, SIZE_RECONCILE_TOLERANCE);
    }
  }

  lemma DriftIff(drift: real, size: real, tolerance: real)
    requires size > 0.0
    ensures drift / size > tolerance <==> drift > tolerance * size
  {
    var q := drift / size;
    assert q * size == drift && (q - tolerance) * size == drift - tolerance * size;
    if q > tolerance { assert (q - tolerance) * size > 0.0; } else { assert (tolerance - q) * size >= 0.0; }
  }

  // ------------------------------------------------------------- panic close

  /** The last mark the switch saw, else the peak, else the entry. */
  function PanicPx(p: Managed, marks: map<Coin, real>): real
  {
    if p.coin in marks then marks[p.coin]
    else if p.peakPx.Some? && p.peakPx.value != 0.0 then p.peakPx.value
    else p.entryPx
  }

  /** Exits requested one after the other in this order. */
  function PanicClosed(settings: Settings, s: Live, order: seq<Coin>, marks: map<Coin, real>, responses: Coin -> Response): (t: Live)
    requires Distinct(order) && forall c <- order :: c in s.book
    ensures forall c :: c in t.book <==> c in s.book && !(c in order && responses(c) == Accepted)
    ensures forall c <- t.book :: t.book[c] == s.book[c]
  {
    if order == [] then s else
      var init, last := order[..|order| - 1], order[|order| - 1];
      var t := PanicClosed(settings, s, init, marks, responses);
      ExitRequested(settings, t, last, ExitRequest(KillSwitchExit, PanicPx(s.book[last], marks)), responses(last))
  }

  lemma PanicStep(settings: Settings, s: Live, order: seq<Coin>, coin: Coin, marks: map<Coin, real>, responses: Coin -> Response)
    requires Distinct(order) && (forall c <- order :: c in s.book) && coin in s.book && coin !in order
    ensures Distinct(order + [coin]) && forall c <- order + [coin] :: c in s.book
    ensures var t := PanicClosed(settings, s, order, marks, responses);
            && coin in t.book && t.book[coin] == s.book[coin]
            && PanicClosed(settings, s, order + [coin], marks, responses)
               == ExitRequested(settings, t, coin, ExitRequest(KillSwitchExit, PanicPx(s.book[coin], marks)), responses(coin))
  {
    hide ExitRequested, PanicPx;
    assert (order + [coin])[..|order|] == order;
  }

  /** What the journal records of an exit at `exitPx`. */
  predicate Journals(settings: Settings, row: JournalRow, p: Managed, exitPx: real, reason: ExitReason)
  {
    && row.position == p && row.reason == reason && row.exitPx == exitPx
    && row.pnl == (match p.side case Long => (exitPx - p.entryPx) * p.size case Short => (p.entryPx - exitPx) * p.size)
    && row.fee == p.entryPx * p.size * (if settings.makerEntryEnabled then settings.makerFeeBps else settings.takerFeeBps) / BPS
                  + exitPx * p.size * settings.takerFeeBps / BPS
    && row.net == row.pnl - row.fee
  }

  lemma RowJournals(settings: Settings, p: Managed, request: ExitRequest)
    ensures Journals(settings, RowOf(settings, p, request), p, request.px, request.reason)
  {
  }

  /** A panic exit is booked at the coin's mark if the switch has one, else at a
      non-zero peak, else at the entry. */
  predicate PanicRow(settings: Settings, row: JournalRow, p: Managed, marks: map<Coin, real>)
  {
    && Journals(settings, row, p, row.exitPx, KillSwitchExit)
    && (p.coin in marks ==> row.exitPx == marks[p.coin])
    && (p.coin !in marks && p.peakPx.Some? && p.peakPx.value != 0.0 ==> row.exitPx == p.peakPx.value)
    && (p.coin !in marks && (p.peakPx.None? || p.peakPx.value == 0.0) ==> row.exitPx == p.entryPx)
  }

  lemma PanicJournals(settings: Settings, p: Managed, marks: map<Coin, real>)
    ensures PanicRow(settings, RowOf(settings, p, ExitRequest(KillSwitchExit, PanicPx(p, marks))), p, marks)
  {
    RowJournals(settings, p, ExitRequest(KillSwitchExit, PanicPx(p, marks)));
    hide Journals;
  }

  /** A panic journals one row per position, in its order, whatever the exchange
      answers. */
  lemma {:induction false} PanicRows(settings: Settings, s: Live, order: seq<Coin>, marks: map<Coin, real>, responses: Coin -> Response)
    requires Distinct(order) && forall c <- order :: c in s.book
    ensures var t := PanicClosed(settings, s, order, marks, responses);
            && |t.journal| == |s.journal| + |order| && s.journal <= t.journal
            && forall i | 0 <= i < |order| :: PanicRow(settings, t.journal[|s.journal| + i], s.book[order[i]], marks)
  {
    hide PanicRow, PanicPx, RowOf, ExitRequested, PanicClosed;
    if order == [] {
      NobodyClosed(settings, s, marks, responses);
    } else {
      var init, last := order[..|order| - 1], order[|order| - 1];
      PanicRows(settings, s, init, marks, responses);
      var t := PanicClosed(settings, s, init, marks, responses);
      assert init + [last] == order;
      PanicStep(settings, s, init, last, marks, responses);
      ExitJournals(settings, t, last, ExitRequest(KillSwitchExit, PanicPx(s.book[last], marks)), responses(last));
      PanicJournals(settings, s.book[last], marks);
    }
  }

  lemma NobodyClosed(settings: Settings, s: Live, marks: map<Coin, real>, responses: Coin -> Response)
    ensures PanicClosed(settings, s, [], marks, responses) == s
  {
  }

  lemma ExitJournals(settings: Settings, s: Live, coin: Coin, request: ExitRequest, response: Response)
    requires coin in s.book
    ensures ExitRequested(settings, s, coin, request, response).journal == s.journal + [RowOf(settings, s.book[coin], request)]
  {
  }

  // ------------------------------------------------------------- the objects

  /** A mutable position: one object may sit in the manager's map and in the
      store's map at once. */
  class ManagedPosition {
    var now: Managed

    constructor (p: Managed)
      ensures now == p
    {
      now := p;
    }
  }

  class OpenPositionStore {
    var positions: map<Coin, ManagedPosition>
    var disk: map<Coin, Managed>
    ghost var shelf: map<Coin, Managed>  // values of the store's objects

    ghost predicate Valid()
      reads this`positions, this`shelf, positions.Values
    {
      && positions.Keys == shelf.Keys
      && forall c <- positions :: positions[c].now == shelf[c] && shelf[c].coin == c
    }

    lemma HoldsShelf()
      requires Valid()
      ensures positions.Keys == shelf.Keys && forall c <- positions :: positions[c].now == shelf[c] && shelf[c].coin == c
    {
    }

    constructor (disk: map<Coin, Managed>)
      ensures Valid() && positions == map[] && shelf == map[] && this.disk == disk
    {
      positions, this.disk, shelf := map[], disk, map[];
    }

    method WriteFile()
      requires Valid()
      modifies this`disk
      ensures Valid() && disk == shelf
    {
      disk := map c | c in positions :: positions[c].now;
    }

    method Upsert(position: ManagedPosition)
      requires Valid()
      modifies this
      ensures Valid() && positions == old(positions)[position.now.coin := position]
      ensures shelf == old(shelf)[position.now.coin := position.now] && disk == shelf
    {
      positions, shelf := positions[position.now.coin := position], shelf[position.now.coin := position.now];
      WriteFile();
    }

    /** Read the file into fresh objects; an unreadable file counts as empty and
        is left as it is. */
    method Load(readable: bool) returns (loaded: map<Coin, ManagedPosition>)
      requires forall c <- disk :: disk[c].coin == c
      modifies this`positions, this`shelf
      ensures Valid() && loaded == positions && fresh(positions.Values)
      ensures shelf == if readable then disk else map[]
    {
      positions, shelf := map[], map[];
      if readable {
        var rest := disk.Keys;
        while rest != {}
          invariant rest <= disk.Keys && Valid() && disk == old(disk)
          invariant forall c <- positions :: fresh(positions[c])
          invariant shelf.Keys == disk.Keys - rest
          invariant forall c <- shelf :: shelf[c] == disk[c]
        {
          var c :| c in rest;
          var p := new ManagedPosition(disk[c]);
          positions, shelf, rest := positions[c := p], shelf[c := disk[c]], rest - {c};
        }
      }
      loaded := positions;
    }

    method Remove(coin: Coin)
      requires Valid()
      modifies this
      ensures Valid() && positions == old(positions) - {coin} && shelf == old(shelf) - {coin}
      ensures disk == if coin in old(shelf) then shelf else old(disk)
    {
      if coin !in positions { return; }
      positions, shelf := positions - {coin}, shelf - {coin};
      WriteFile();
    }
  }

  class PositionManager {
    const settings: Settings
    const store: OpenPositionStore
    var positions: map<Coin, ManagedPosition>
    var lastPeakPersist: map<Coin, Instant>
    var lastMarkTs: map<Coin, Instant>
    var journal: seq<JournalRow>
    ghost var book: map<Coin, Managed>      // values of the managed objects
    ghost var shared: set<Coin>             // coins with one object in both maps

    ghost function View(): Live
      reads this, store
    {
      Live(book, store.shelf, shared, store.disk, lastPeakPersist, journal)
    }

    /** The managed objects have the values of `book`. */
    ghost predicate Held()
      reads this`positions, this`book, positions.Values
    {
      positions.Keys == book.Keys && forall c <- positions :: positions[c].now == book[c] && book[c].coin == c
    }

    ghost predicate Sharing()
      reads this`positions, this`shared, store`positions
    {
      && shared <= positions.Keys
      && forall c <- positions :: c in shared <==> c in store.positions && positions[c] == store.positions[c]
    }

    ghost predicate Holding()
      reads this`positions, this`book, this`shared, store`positions, store`shelf
      reads positions.Values, store.positions.Values
    {
      Held() && Sharing() && store.Valid()
    }

    ghost predicate Valid()
      reads this`positions, this`book, this`shared, store`positions, store`shelf
      reads positions.Values, store.positions.Values
    {
      Holding() && book.Keys == store.shelf.Keys
    }

    lemma ValidIsKeyed()
      requires Valid()
      ensures KeyedByCoin(View()) && positions.Keys == book.Keys && View().book == book
    {
    }

    lemma ValidHolds()
      requires Valid()
      ensures Holding() && positions.Keys == book.Keys == store.shelf.Keys
    {
    }

    lemma HoldsAll()
      requires Holding() && View().book.Keys == View().shelf.Keys
      ensures Valid()
    {
    }

    constructor (settings: Settings, store: OpenPositionStore)
      requires store.Valid() && store.positions == map[]
      ensures Valid() && this.settings == settings && this.store == store
      ensures View() == Live(map[], map[], {}, store.disk, map[], [])
    {
      this.settings, this.store := settings, store;
      positions, lastPeakPersist, lastMarkTs, journal := map[], map[], map[], [];
      book, shared := map[], {};
    }

    /** The store takes the managed object of `coin` and rewrites the file. */
    method Upsert(coin: Coin)
      requires Holding() && coin in positions
      modifies store, this`shared
      ensures Holding() && coin in old(View()).book && View() == Upserted(old(View()), coin)
    {
      hide OpenPositionStore.Valid;
      store.Upsert(positions[coin]);
      shared := shared + {coin};
    }

    static method SeedPeak(position: ManagedPosition)
      modifies position
      ensures position.now == Seeded(old(position.now))
    {
      if position.now.peakPx == None { position.now := position.now.(peakPx := Some(position.now.entryPx)); }
    }

    method RegisterPosition(position: ManagedPosition)
      requires Valid() && position !in positions.Values && position !in store.positions.Values
      modifies this`positions, this`book, this`shared, store, position
      ensures Valid() && View() == Registered(old(View()), old(position.now))
      ensures positions == old(positions)[position.now.coin := position]
    {
      hide Seeded;
      SeedPeak(position);
      Manage(position);
    }

    method Manage(position: ManagedPosition)
      requires Holding() && position !in store.positions.Values
      modifies this`positions, this`book, this`shared, store
      ensures Holding() && positions == old(positions)[position.now.coin := position]
      ensures View() == Upserted(old(View()).(book := old(book)[position.now.coin := position.now]), position.now.coin)
    {
      hide Holding;
      var coin := position.now.coin;
      Hold(position);
      Upsert(coin);
      assert (old(shared) - {coin}) + {coin} == old(shared) + {coin};
    }

    /** The manager takes a position the store does not have. */
    method Hold(position: ManagedPosition)
      requires Holding() && position !in store.positions.Values
      modifies this`positions, this`book, this`shared
      ensures Holding() && positions == old(positions)[position.now.coin := position]
      ensures book == old(book)[position.now.coin := position.now] && shared == old(shared) - {position.now.coin}
    {
      hide OpenPositionStore.Valid;
      positions, book := positions[position.now.coin := position], book[position.now.coin := position.now];
      shared := shared - {position.now.coin};
    }

    method RemovePosition(coin: Coin)
      requires Valid()
      modifies this`positions, this`book, this`shared, this`lastPeakPersist, store
      ensures Valid() && View() == Removed(old(View()), coin)
    {
      Forget(coin);
      lastPeakPersist := lastPeakPersist - {coin};
    }

    method Forget(coin: Coin)
      requires Valid()
      modifies this`positions, this`book, this`shared, store
      ensures Valid() && book == old(book) - {coin} && shared == old(shared) - {coin}
      ensures store.shelf == old(store.shelf) - {coin}
      ensures store.disk == if coin in old(store.shelf) then store.shelf else old(store.disk)
    {
      positions, book, shared := positions - {coin}, book - {coin}, shared - {coin};
      store.Remove(coin);
    }

    method MaybePersistPosition(position: ManagedPosition, now: Instant)
      requires Valid() && position.now.coin in positions && positions[position.now.coin] == position
      modifies this`shared, this`lastPeakPersist, store
      ensures Valid() && View() == PeakPersisted(old(View()), position.now.coin, now)
    {
      hide Valid, Holding;
      ValidHolds();
      var coin := position.now.coin;
      if coin in lastPeakPersist && now - lastPeakPersist[coin] < PEAK_PERSIST_DEBOUNCE_SECONDS { return; }
      lastPeakPersist := lastPeakPersist[coin := now];
      Upsert(coin);
      HoldsAll();
    }

    /** `Held`, except that this object has just been changed in place. */
    ghost predicate HeldBut(position: ManagedPosition)
      reads this`positions, this`book, positions.Values, position
    {
      && positions.Keys == book.Keys && position.now.coin in positions && positions[position.now.coin] == position
      && forall c <- positions :: book[c].coin == c && (c != position.now.coin ==> positions[c].now == book[c])
    }

    /** The store's `Valid`, except for the same object. */
    ghost predicate StoreValidBut(position: ManagedPosition)
      reads store`positions, store`shelf, store.positions.Values, position
    {
      && store.positions.Keys == store.shelf.Keys
      && forall c <- store.positions ::
           store.shelf[c].coin == c
           && if store.positions[c] == position then c == position.now.coin else store.positions[c].now == store.shelf[c]
    }

    ghost method SyncBook(position: ManagedPosition)
      requires HeldBut(position) && StoreValidBut(position) && Sharing() && book.Keys == store.shelf.Keys
      modifies this`book, store`shelf
      ensures Valid() && View() == Mutated(old(View()), position.now)
    {
      hide OpenPositionStore.Valid, Sharing;
      SyncManaged(position);
      SyncShelf(position);
    }

    ghost method SyncManaged(position: ManagedPosition)
      requires HeldBut(position)
      modifies this`book
      ensures Held() && book == old(book)[position.now.coin := position.now] && position.now.coin in old(book)
    {
      book := book[position.now.coin := position.now];
    }

    ghost method SyncShelf(position: ManagedPosition)
      requires StoreValidBut(position) && Sharing() && position.now.coin in positions && positions[position.now.coin] == position
      modifies store`shelf
      ensures store.Valid() && store.shelf.Keys == old(store.shelf.Keys)
      ensures store.shelf == if position.now.coin in shared then old(store.shelf)[position.now.coin := position.now] else old(store.shelf)
    {
      if position.now.coin in shared { store.shelf := store.shelf[position.now.coin := position.now]; }
    }

    static method RaisePeak(position: ManagedPosition, mark: real)
      modifies position
      ensures position.now == WithPeak(old(position.now), mark)
    {
      var p := position.now;
      if p.peakPx.None? {
        position.now := p.(peakPx := Some(mark));
      } else if p.side == Long {
        position.now := p.(peakPx := Some(RMax(p.peakPx.value, mark)));
      } else {
        position.now := p.(peakPx := Some(RMin(p.peakPx.value, mark)));
      }
    }

    method UpdatePeak(position: ManagedPosition, mark: real, now: Instant)
      requires Valid() && position.now.coin in positions && positions[position.now.coin] == position
      modifies this`book, this`shared, this`lastPeakPersist, store, position
      ensures Valid() && View() == AfterPeak(old(View()), position.now.coin, mark, now)
    {
      hide WithPeak;
      var previous := position.now.peakPx;
      RaisePeak(position, mark);
      SyncBook(position);
      if position.now.peakPx != previous { MaybePersistPosition(position, now); }
    }

    method ArmBreakEven(position: ManagedPosition, mark: real) returns (armed: bool)
      modifies position
      ensures position.now == WithBreakEven(settings, old(position.now), mark)
      ensures armed <==> position.now != old(position.now)
    {
      var p := position.now;
      if settings.breakEvenTriggerPct <= 0.0 || p.breakEvenArmed { return false; }
      if GainPct(p, mark) < settings.breakEvenTriggerPct { return false; }
      var stop := if p.side == Long then RMax(p.stopPx, p.entryPx * (1.0 + FEE_BUFFER_PCT))
                  else RMin(p.stopPx, p.entryPx * (1.0 - FEE_BUFFER_PCT));
      position.now := p.(stopPx := stop, breakEvenArmed := true);
      return true;
    }

    method MaybeMoveToBreakEven(position: ManagedPosition, mark: real)
      requires Valid() && position.now.coin in positions && positions[position.now.coin] == position
      modifies this`book, this`shared, store, position
      ensures Valid() && View() == AfterBreakEven(settings, old(View()), position.now.coin, mark)
    {
      hide WithBreakEven;
      var armed := ArmBreakEven(position, mark);
      if armed { WriteThrough(position); }
    }

    /** A changed object reaches the books and the file. */
    method WriteThrough(position: ManagedPosition)
      requires HeldBut(position) && StoreValidBut(position) && Sharing() && book.Keys == store.shelf.Keys
      requires position.now.coin in book
      modifies this`book, this`shared, store
      ensures Valid() && position.now.coin in old(book)
      ensures View() == Upserted(Mutated(old(View()), position.now), position.now.coin)
    {
      hide Valid, Holding, HeldBut, StoreValidBut, Sharing;
      SyncBook(position);
      ValidHolds();
      Upsert(position.now.coin);
      HoldsAll();
    }

    /** Journal the exit, then hand it to the router; only an accepted order
        takes the position out of management. */
    method RequestExit(position: ManagedPosition, request: ExitRequest, response: Response)
      requires Valid() && position.now.coin in positions && positions[position.now.coin] == position
      modifies this`positions, this`book, this`shared, this`lastPeakPersist, this`journal, store
      ensures Valid() && View() == ExitRequested(settings, old(View()), position.now.coin, request, response)
    {
      journal := journal + [RowOf(settings, position.now, request)];
      if response == Accepted { RemovePosition(position.now.coin); }
    }

    /** True unless this is the first mark after a feed gap. */
    method NoteMark(coin: Coin, now: Instant) returns (usable: bool)
      requires Valid()
      modifies this`lastMarkTs
      ensures Valid() && View() == old(View()) && lastMarkTs == old(lastMarkTs)[coin := now]
      ensures usable <==> !(settings.markStalenessGapSeconds > 0.0 && coin in old(lastMarkTs)
                           && now - old(lastMarkTs)[coin] > settings.markStalenessGapSeconds)
    {
      var gapLimit := settings.markStalenessGapSeconds;
      var staleGap := gapLimit > 0.0 && coin in lastMarkTs && now - lastMarkTs[coin] > gapLimit;
      lastMarkTs := lastMarkTs[coin := now];
      usable := !staleGap;
    }

    /** The per-position half of `on_price_update`, on a fresh mark. */
    method ManageMark(coin: Coin, mark: real, now: Instant, target: Option<real>, response: Response)
      requires Valid()
      modifies this`positions, this`book, this`shared, this`lastPeakPersist, this`journal, store, positions.Values
      ensures KeyedByCoin(old(View()))
      ensures Valid() && View() == AfterMark(settings, old(View()), coin, mark, now, target, response)
    {
      hide WithPeak, WithBreakEven, AfterPeak, AfterBreakEven, AfterDecision;
      ValidIsKeyed();
      if coin !in positions { return; }
      var position := positions[coin];
      AdvancePosition(position, mark, now);
      ExitIfDue(position, mark, now, target, response);
    }

    method ExitIfDue(position: ManagedPosition, mark: real, now: Instant, target: Option<real>, response: Response)
      requires Valid() && position.now.coin in positions && positions[position.now.coin] == position
      modifies this`positions, this`book, this`shared, this`lastPeakPersist, this`journal, store
      ensures Valid() && position.now.coin in old(View()).book
      ensures View() == AfterDecision(settings, old(View()), position.now.coin, mark, now, target, response)
    {
      hide ExitRequested, ExitDecision;
      assert position.now == book[position.now.coin];
      hide Valid;
      var request := DecideExit(position.now, mark, now, target);
      if request.Some? { RequestExit(position, request.value, response); }
    }

    /** Ask for every position's exit; one that fails does not stop the rest. */
    method PanicCloseAll(marks: map<Coin, real>, responses: Coin -> Response) returns (ghost order: seq<Coin>)
      requires Valid()
      modifies this`positions, this`book, this`shared, this`lastPeakPersist, this`journal, store
      ensures Valid() && Distinct(order) && forall c :: c in order <==> c in old(book)
      ensures View() == PanicClosed(settings, old(View()), order, marks, responses)
      ensures |journal| == |old(journal)| + |order| && old(journal) <= journal
      ensures forall i | 0 <= i < |order| :: PanicRow(settings, journal[|old(journal)| + i], old(book)[order[i]], marks)
    {
      hide ExitRequested, PanicClosed, Valid, View, PanicPx, PanicRow;
      ghost var before := View();
      ValidIsKeyed();
      order := [];
      NobodyClosed(settings, before, marks, responses);
      var rest := positions.Keys;
      while rest != {}
        invariant Valid() && Distinct(order) && (forall c <- order :: c in before.book)
        invariant forall c :: c in before.book <==> c in order || c in rest
        invariant forall c <- order :: c !in rest
        invariant View() == PanicClosed(settings, before, order, marks, responses)
        decreases rest
      {
        var coin :| coin in rest;
        rest := rest - {coin};
        PanicStep(settings, before, order, coin, marks, responses);
        ValidIsKeyed();
        ClosePanicked(coin, marks, responses(coin));
        order := order + [coin];
      }
      PanicRows(settings, before, order, marks, responses);
      ViewFields(before);
    }

    /** `before` is the view of the same manager earlier on. */
    twostate lemma ViewFields(before: Live)
      requires before == old(View())
      ensures before.journal == old(journal) && before.book == old(book) && View().journal == journal
    {
    }

    method ClosePanicked(coin: Coin, marks: map<Coin, real>, response: Response)
      requires Valid() && coin in positions
      modifies this`positions, this`book, this`shared, this`lastPeakPersist, this`journal, store
      ensures Valid() && coin in old(View()).book
      ensures View() == ExitRequested(settings, old(View()), coin, ExitRequest(KillSwitchExit, PanicPx(old(View()).book[coin], marks)), response)
    {
      var position := positions[coin];
      var exitPx;
      if coin in marks {
        exitPx := marks[coin];
      } else {
        exitPx := if position.now.peakPx.Some? && position.now.peakPx.value != 0.0 then position.now.peakPx.value
                  else position.now.entryPx;
      }
      RequestExit(position, ExitRequest(KillSwitchExit, exitPx), response);
    }

    /** One mark, no entry router listening: panic while the switch is tripped,
        nothing on the first mark after a feed gap, else stop management. */
    method OnPriceUpdate(coin: Coin, mark: real, now: Instant, tripped: bool, marks: map<Coin, real>,
                         target: Option<real>, response: Response, responses: Coin -> Response) returns (ghost order: seq<Coin>)
      requires Valid()
      modifies this, store, positions.Values
      ensures KeyedByCoin(old(View()))
      ensures Valid() && (tripped ==> Distinct(order) && forall c :: c in order <==> c in old(book))
      ensures tripped ==> View() == PanicClosed(settings, old(View()), order, marks, responses) && lastMarkTs == old(lastMarkTs)
      ensures !tripped ==>
                var stale := settings.markStalenessGapSeconds > 0.0 && coin in old(lastMarkTs)
                             && now - old(lastMarkTs)[coin] > settings.markStalenessGapSeconds;
                && lastMarkTs == old(lastMarkTs)[coin := now]
                && View() == if stale then old(View()) else AfterMark(settings, old(View()), coin, mark, now, target, response)
    {
      hide AfterMark, PanicClosed, Valid;
      ValidIsKeyed();
      order := [];
      if tripped {
        order := PanicCloseAll(marks, responses);
        return;
      }
      var usable := NoteMark(coin, now);
      if !usable { return; }
      ManageMark(coin, mark, now, target, response);
    }

    method AdvancePosition(position: ManagedPosition, mark: real, now: Instant)
      requires Valid() && position.now.coin in positions && positions[position.now.coin] == position
      modifies this`book, this`shared, this`lastPeakPersist, store, position
      ensures Valid() && View() == AfterBreakEven(settings, AfterPeak(old(View()), position.now.coin, mark, now), position.now.coin, mark)
      ensures position.now.coin == old(position.now.coin) && position.now == book[position.now.coin]
    {
      hide WithPeak, WithBreakEven, AfterPeak, AfterBreakEven;
      UpdatePeak(position, mark, now);
      MaybeMoveToBreakEven(position, mark);
    }

    method DecideExit(p: Managed, mark: real, now: Instant, target: Option<real>) returns (request: Option<ExitRequest>)
      ensures request == ExitDecision(settings, p, mark, now, target)
    {
      if HitHardStop(p, mark) {
        if !WithinMinHold(settings, p, now) { return Some(ExitRequest(StopLoss, mark)); }
      }
      var reversionPx := ReversionTakeProfit(settings, p, mark, target);
      if reversionPx.Some? { return Some(ExitRequest(ReversionTp, reversionPx.value)); }
      var trailTrigger := TrailTrigger(settings, p, mark);
      if trailTrigger.Some? { return Some(ExitRequest(TrailingStop, mark)); }
      if ExceededMaxHold(settings, p, now) { return Some(ExitRequest(TimeStop, mark)); }
      return None;
    }

    /** `fetched` is the exchange's answer, None when no fetcher is wired or the
        read failed; dry-run never asks.  False means the bot refuses to start.
        `order` lists the coins of the file as they stand in it. */
    method RecoverPositions(fetched: Option<map<Coin, ExchangePosition>>, readable: bool, order: seq<Coin>,
                            allowed: set<Coin>, atr: map<Coin, real>, now: Instant) returns (started: bool)
      requires positions == map[] && book == map[] && shared == {}
      requires forall c <- store.disk :: store.disk[c].coin == c
      requires Distinct(order) && forall c :: c in order <==> c in store.disk
      modifies this`positions, this`book, this`shared, store
      ensures started <==> settings.botDryRun || fetched.Some?
      ensures !started ==> positions == map[] && store.disk == old(store.disk)
      ensures started ==>
                var st := Startup(if readable then old(store.disk) else map[],
                                  if settings.botDryRun then None else fetched, allowed, atr, now);
                && Valid()
                && View() == Recovered(settings, st, old(View()).(shelf := st.saved), if readable then order else [])
                && (forall c :: c in book <==> st.Keeps(c) || st.Adopts(c))
                && (forall c <- book :: book[c] == st.Managed(settings, c))
    {
      hide Startup.Managed, Startup.Keeps, Startup.Adopts, Recovered, RestoredAll, WithAdopted, RestoredFacts, Unrecovered, Valid, Recovering;
      if !settings.botDryRun && fetched.None? { return false; }
      var exchange := if settings.botDryRun then None else fetched;
      ghost var before := View();
      var saved := store.Load(readable);
      ghost var st := Startup(store.shelf, exchange, allowed, atr, now);
      ghost var s := before.(shelf := st.saved);
      var listed := if readable then order else [];
      LoadedIsUnrecovered(st);
      assert View() == s;
      RestoreSaved(listed, st, exchange, allowed, atr);
      ghost var r := View();
      NothingAdopted(settings, st, r);
      if exchange.Some? { AdoptOrphans(exchange.value, saved.Keys, st, atr, now); }
      RecoveredIs(settings, st, s, listed, r, View());
      RecoveredSet(settings, st, s, listed);
      Settled(View());
      started := true;
    }

    lemma LoadedIsUnrecovered(st: Startup)
      requires positions == map[] && book == map[] && shared == {} && store.Valid() && st.saved == store.shelf
      ensures Unrecovered(st, View()) && Recovering() && store.positions.Keys == st.saved.Keys
    {
    }

    lemma Settled(now: Live)
      requires Recovering() && now == View() && now.shelf.Keys == now.book.Keys
      ensures Valid() && now.book == book
    {
    }

    /** The books in mid-recovery: `Valid`, but for saved coins not yet seen. */
    ghost predicate Recovering()
      reads this`positions, this`book, this`shared, positions.Values, store`positions, store`shelf, store.positions.Values
    {
      Holding() && book.Keys <= store.shelf.Keys
    }

    /** A side mismatch is rebuilt as a new object, which the store does not get;
        a size mismatch is corrected in place. */
    method Reconcile(position: ManagedPosition, live: ExchangePosition, atrPct: Option<real>) returns (q: ManagedPosition)
      requires store.Valid() && position.now.coin in store.positions && store.positions[position.now.coin] == position
      modifies position, store`shelf
      ensures store.Valid() && q.now == Reconciled(settings, atrPct, old(position.now), live)
      ensures if live.HeldSide() == old(position.now.side) then q == position else fresh(q)
      ensures store.shelf == if q == position then old(store.shelf)[old(position.now.coin) := q.now] else old(store.shelf)
    {
      var p := position.now;
      if live.HeldSide() != p.side {
        var entryPx := if live.entryPx != 0.0 then live.entryPx else p.entryPx;
        q := new ManagedPosition(Managed(
          p.coin, live.HeldSide(), entryPx, live.AbsSize(),
          InitialStop(settings, atrPct, entryPx, live.HeldSide()), false, Some(entryPx), p.openedAt));
        return;
      }
      if p.size > 0.0 {
        var drift := RAbs(live.AbsSize() - p.size) / p.size;
        if drift > SIZE_RECONCILE_TOLERANCE {
          position.now := p.(size := live.AbsSize());
        }
      }
      store.shelf := store.shelf[p.coin := position.now];
      q := position;
    }

    method RestoreSaved(order: seq<Coin>, ghost st: Startup,
                        exchange: Option<map<Coin, ExchangePosition>>, allowed: set<Coin>, atr: map<Coin, real>)
      requires Recovering() && Unrecovered(st, View()) && Distinct(order)
      requires store.positions.Keys == st.saved.Keys && forall c :: c in order <==> c in st.saved
      requires st.exchange == exchange && st.allowed == allowed && st.atr == atr
      modifies this`positions, this`book, this`shared, store, store.positions.Values
      ensures Recovering() && View() == RestoredAll(settings, st, old(View()), order)
      ensures store.shelf.Keys == book.Keys && forall c :: c in book <==> st.Keeps(c)
    {
      hide Startup.Managed, Startup.Keeps, Startup.Rebuilds, Recovering, RestoreStep, Unrecovered;
      ghost var before, loaded := View(), store.positions;
      for i := 0 to |order|
        invariant Recovering() && View() == RestoredAll(settings, st, before, order[..i])
        invariant store.positions.Values <= loaded.Values
      {
        assert order[..i + 1][..i] == order[..i];
        RestoredAllFacts(settings, st, before, order[..i]);
        NotYetRestored(settings, st, View(), order, i);
        HoldsView();
        RestoreOne(order[i], st, exchange, allowed, if order[i] in atr then Some(atr[order[i]]) else None);
      }
      assert order[..|order|] == order;
      RestoredAllFacts(settings, st, before, order);
      AllRestored(settings, st, View(), order);
    }

    lemma HoldsView()
      requires Recovering()
      ensures store.positions.Keys == store.shelf.Keys && View().book == book && View().shelf == store.shelf
    {
    }

    method RestoreOne(coin: Coin, ghost st: Startup,
                      exchange: Option<map<Coin, ExchangePosition>>, allowed: set<Coin>, atrPct: Option<real>)
      requires Recovering() && coin !in book && coin in store.positions
      requires coin in st.saved && coin in store.shelf && store.shelf[coin] == st.saved[coin]
      requires st.exchange == exchange && st.allowed == allowed && st.Atr(coin) == atrPct
      modifies this`positions, this`book, this`shared, store, store.positions[coin]
      ensures Recovering() && View() == RestoreStep(settings, st, old(View()), coin)
      ensures store.positions.Values <= old(store.positions.Values)
    {
      hide Reconciled, Adopted, InitialStop;
      if coin !in allowed || (exchange.Some? && coin !in exchange.value) {
        Drop(coin);
        return;
      }
      KeepOne(coin, st, exchange, atrPct);
    }

    method Drop(coin: Coin)
      requires Recovering() && coin !in book && coin in store.shelf
      modifies store
      ensures Recovering() && store.positions == old(store.positions) - {coin}
      ensures View() == old(View()).(shelf := old(store.shelf) - {coin}, disk := old(store.shelf) - {coin})
    {
      store.Remove(coin);
    }

    /** The store's object of a coin not yet managed is no managed object. */
    lemma NotManagedYet(coin: Coin)
      requires Recovering() && coin in store.positions && coin !in book
      ensures store.positions[coin] !in positions.Values && store.positions[coin].now == store.shelf[coin] && store.positions[coin].now.coin == coin
      ensures forall c <- store.positions | c != coin :: store.positions[c] != store.positions[coin]
    {
    }

    method KeepOne(coin: Coin, ghost st: Startup, exchange: Option<map<Coin, ExchangePosition>>, atrPct: Option<real>)
      requires Recovering() && coin !in book && coin in store.positions && st.Keeps(coin)
      requires coin in store.shelf && store.shelf[coin] == st.saved[coin]
      requires st.exchange == exchange && st.Atr(coin) == atrPct
      modifies this`positions, this`book, this`shared, store`shelf, store.positions[coin]
      ensures Recovering() && View() == RestoreStep(settings, st, old(View()), coin) && store.positions == old(store.positions)
    {
      hide Reconciled, Adopted, InitialStop;
      NotManagedYet(coin);
      var position := store.positions[coin];
      var kept := position;
      if exchange.Some? { kept := Correct(position, exchange.value[coin], atrPct); }
      assert kept.now == st.Managed(settings, coin);
      assert kept == position <==> !st.Rebuilds(coin);
      hide Startup.Managed, Startup.Keeps, Startup.Rebuilds, Recovering;
      Place(coin, kept);
    }

    /** `Reconcile` on a saved position that nothing manages yet. */
    method Correct(position: ManagedPosition, live: ExchangePosition, atrPct: Option<real>) returns (q: ManagedPosition)
      requires Recovering() && position.now.coin in store.positions && position.now.coin !in book
      requires store.positions[position.now.coin] == position
      modifies position, store`shelf
      ensures Recovering() && q.now == Reconciled(settings, atrPct, old(position.now), live) && q.now.coin == old(position.now.coin)
      ensures if live.HeldSide() == old(position.now.side) then q == position else fresh(q)
      ensures store.shelf == if q == position then old(store.shelf)[old(position.now.coin) := q.now] else old(store.shelf)
    {
      hide Reconciled, InitialStop;
      NotManagedYet(position.now.coin);
      q := Reconcile(position, live, atrPct);
    }

    method Place(coin: Coin, kept: ManagedPosition)
      requires Recovering() && coin !in book && coin in store.positions && coin in store.shelf && kept.now.coin == coin
      requires kept == store.positions[coin] || kept !in store.positions.Values
      modifies this`positions, this`book, this`shared
      ensures Recovering()
      ensures View() == old(View()).(book := old(book)[coin := kept.now],
                                     shared := if kept == store.positions[coin] then old(shared) + {coin} else old(shared))
    {
      if kept == store.positions[coin] { shared := shared + {coin}; }
      positions, book := positions[coin := kept], book[coin := kept.now];
    }

    method AdoptOrphans(exchange: map<Coin, ExchangePosition>, savedCoins: set<Coin>, ghost st: Startup,
                        atr: map<Coin, real>, now: Instant)
      requires Recovering() && store.shelf.Keys == book.Keys && forall c :: c in book <==> st.Keeps(c)
      requires st.exchange == Some(exchange) && st.atr == atr && st.now == now && st.saved.Keys == savedCoins
      modifies this`positions, this`book, this`shared, store
      ensures Recovering() && store.shelf.Keys == book.Keys
      ensures View() == WithAdopted(settings, st, old(View()), exchange.Keys)
    {
      hide Startup.Managed, WithAdopted, Recovering, Upserted;
      ghost var before := View();
      var rest := exchange.Keys;
      NothingAdopted(settings, st, before);
      assert exchange.Keys - rest == {};
      while rest != {}
        invariant rest <= exchange.Keys && Recovering() && store.shelf.Keys == book.Keys
        invariant View() == WithAdopted(settings, st, before, exchange.Keys - rest)
        invariant forall c :: c in book <==> st.Keeps(c) || (st.Adopts(c) && c !in rest)
      {
        var coin :| coin in rest;
        AdoptMore(settings, st, before, exchange.Keys - rest, coin);
        assert exchange.Keys - (rest - {coin}) == (exchange.Keys - rest) + {coin};
        rest := rest - {coin};
        AdoptOne(coin, exchange[coin], savedCoins, st, if coin in atr then Some(atr[coin]) else None, now);
      }
      assert exchange.Keys - rest == exchange.Keys;
    }

    method AdoptOne(coin: Coin, live: ExchangePosition, savedCoins: set<Coin>, ghost st: Startup, atrPct: Option<real>, now: Instant)
      requires Recovering() && store.shelf.Keys == book.Keys && (coin in book ==> coin in savedCoins)
      requires st.exchange.Some? && coin in st.exchange.value && st.exchange.value[coin] == live
      requires st.Atr(coin) == atrPct && st.now == now && st.saved.Keys == savedCoins
      modifies this`positions, this`book, this`shared, store
      ensures Recovering() && store.shelf.Keys == book.Keys
      ensures book.Keys == if st.Adopts(coin) then old(book.Keys) + {coin} else old(book.Keys)
      ensures View() == if st.Adopts(coin)
                        then Upserted(old(View()).(book := old(book)[coin := st.Managed(settings, coin)]), coin)
                        else old(View())
    {
      hide Reconciled, InitialStop, Recovering, Upserted;
      HoldsPositions();
      if coin in savedCoins || coin in positions { return; }
      if live.entryPx <= 0.0 { return; }
      var stop := InitialStop(settings, atrPct, live.entryPx, live.HeldSide());
      var position := new ManagedPosition(
        Managed(coin, live.HeldSide(), live.entryPx, live.AbsSize(), stop, false, Some(live.entryPx), now));
      assert position.now == st.Managed(settings, coin);
      TakeOver(position);
    }

    lemma HoldsPositions()
      requires Recovering()
      ensures positions.Keys == book.Keys
    {
    }

    method TakeOver(position: ManagedPosition)
      requires Recovering() && store.shelf.Keys == book.Keys && position.now.coin !in book
      requires position !in store.positions.Values
      modifies this`positions, this`book, this`shared, store
      ensures Recovering() && store.shelf.Keys == book.Keys == old(book.Keys) + {position.now.coin}
      ensures View() == Upserted(old(View()).(book := old(book)[position.now.coin := position.now]), position.now.coin)
    {
      hide Holding;
      Manage(position);
    }
  }

  lemma NothingAdopted(settings: Settings, st: Startup, s: Live)
    ensures WithAdopted(settings, st, s, {}) == s
  {
  }

  lemma RecoveredIs(settings: Settings, st: Startup, s: Live, order: seq<Coin>, r: Live, t: Live)
    requires (forall c <- order :: c in st.saved) && r == RestoredAll(settings, st, s, order)
    requires t == WithAdopted(settings, st, r, if st.exchange.Some? then st.exchange.value.Keys else {})
    ensures t == Recovered(settings, st, s, order)
  {
    hide RestoredAll, WithAdopted;
  }

  lemma NotYetRestored(settings: Settings, st: Startup, t: Live, order: seq<Coin>, i: nat)
    requires i < |order| && Distinct(order) && order[i] in st.saved && RestoredFacts(settings, st, t, order[..i])
    ensures order[i] !in t.book && order[i] in t.shelf && t.shelf[order[i]] == st.saved[order[i]]
  {
    hide Startup.Managed, Shelved;
  }

  lemma AllRestored(settings: Settings, st: Startup, t: Live, order: seq<Coin>)
    requires RestoredFacts(settings, st, t, order) && forall c :: c in order <==> c in st.saved
    ensures t.shelf.Keys == t.book.Keys && forall c :: c in t.book <==> st.Keeps(c)
  {
    hide Startup.Managed, Shelved;
    assert forall c :: c in t.shelf <==> c in t.book;
  }
}
