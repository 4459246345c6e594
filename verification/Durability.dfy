/** What src/core/open_position_store.py keeps of the live positions: which
    records a crash would read back wrong, over whole runs from recovery on. */
module Durability {
  import opened Prelude
  import opened PositionManagement

  /** At most the trailing peak differs between a position and its record, and
      the recorded peak is never ahead of the real one. */
  predicate RecordOf(disk: Managed, mem: Managed)
  {
    && disk == mem.(peakPx := disk.peakPx)
    && disk.peakPx.Some? && mem.peakPx.Some?
    && (if mem.side == Long then disk.peakPx.value <= mem.peakPx.value else disk.peakPx.value >= mem.peakPx.value)
  }

  /** What a crash can lose: peaks, nothing else.  Every managed position is on
      disk with its side, entry, size, stop and break-even flag, and the disk
      records nothing else. */
  predicate CrashLosesOnlyPeaks(s: Live)
  {
    && KeyedByCoin(s)
    && s.shared == s.book.Keys
    && s.shelf == s.book
    && s.disk.Keys == s.book.Keys
    && forall c <- s.book :: RecordOf(s.disk[c], s.book[c])
  }

  /** The same for one coin, and the store has the managed object. */
  predicate Recorded(s: Live, c: Coin)
  {
    c in s.book && c in s.disk && c in s.shared && RecordOf(s.disk[c], s.book[c])
  }

  /** The coins a crash would get wrong: lost, altered or come back from the dead. */
  function Stale(s: Live): set<Coin>
  {
    set c | c in s.book.Keys + s.disk.Keys && !Recorded(s, c)
  }

  /** What holds of the books in any state of the manager. */
  predicate Coherent(s: Live)
  {
    KeyedByCoin(s) && forall c <- s.shared :: c in s.book && c in s.shelf && s.shelf[c] == s.book[c]
  }

  /** The objects of the manager and the store are always coherent. */
  lemma ManagersAreCoherent(m: PositionManager)
    requires m.Valid()
    ensures Coherent(m.View())
  {
    m.ValidIsKeyed();
    assert m.Holding();
  }

  lemma NothingStaleIff(s: Live)
    ensures CrashLosesOnlyPeaks(s) <==> Coherent(s) && Stale(s) == {}
  {
    hide RecordOf;
    if CrashLosesOnlyPeaks(s) {
      forall c | c in s.book.Keys + s.disk.Keys ensures Recorded(s, c) {}
    }
    if Coherent(s) && Stale(s) == {} {
      forall c | c in s.book.Keys + s.disk.Keys ensures Recorded(s, c) { assert c !in Stale(s); }
      assert s.shelf == s.book;
    }
  }

  // ------------------------------------------------------------- one step

  /** What even a rewrite of the file leaves wrong: positions whose object the
      store does not have, and positions without a peak. */
  function Unrecordable(s: Live): set<Coin>
  {
    set c <- s.book | c !in s.shared || s.book[c].peakPx.None?
  }

  /** A write leaves exactly the unrecordable coins stale. */
  lemma WrittenLeaves(s: Live)
    requires Coherent(s) && s.disk == s.shelf
    ensures Stale(s) == Unrecordable(s)
  {
    forall c ensures c in Stale(s) <==> c in Unrecordable(s) {}
  }

  lemma UnrecordableAreStale(s: Live)
    ensures Unrecordable(s) <= Stale(s)
  {
  }

  /** Repair: the write of a coin's own object puts its record right, and with it
      every record but those of other objects the store does not have. */
  lemma UpsertRepairs(s: Live, coin: Coin)
    requires Coherent(s) && coin in s.book
    ensures Coherent(Upserted(s, coin))
    ensures Stale(Upserted(s, coin)) == set c <- s.book | (c != coin && c !in s.shared) || s.book[c].peakPx.None?
    ensures Stale(Upserted(s, coin)) <= Stale(s)
    ensures s.book[coin].peakPx.Some? ==> coin !in Stale(Upserted(s, coin))
  {
    hide RecordOf;
    var t := Upserted(s, coin);
    assert Coherent(t);
    WrittenLeaves(t);
    UnrecordableAreStale(s);
    assert s.book[coin].peakPx.None? ==> coin in Unrecordable(s);
  }

  lemma RegisterIsDurable(s: Live, p: Managed)
    requires Coherent(s)
    ensures Coherent(Registered(s, p)) && Stale(Registered(s, p)) <= Stale(s) - {p.coin}
  {
    hide RecordOf;
    var t := Registered(s, p);
    assert Coherent(t);
    WrittenLeaves(t);
    UnrecordableAreStale(s);
    assert Unrecordable(t) <= Unrecordable(s) - {p.coin};
  }

  lemma RemoveIsDurable(s: Live, coin: Coin)
    requires Coherent(s)
    ensures Coherent(Removed(s, coin)) && Stale(Removed(s, coin)) <= Stale(s)
    ensures coin in s.book ==> coin !in Stale(Removed(s, coin))
  {
    var t := Removed(s, coin);
    assert Coherent(t);
    if coin in s.book {
      WrittenLeaves(t);
      UnrecordableAreStale(s);
      hide RecordOf;
    } else {
      assert t.book == s.book && t.disk == s.disk && t.shared == s.shared;
    }
  }

  /** A peak moves in place; the record may lag behind it, never lead it. */
  lemma PeakIsDurable(s: Live, coin: Coin, mark: real, now: Instant)
    requires Coherent(s) && coin in s.book
    ensures Coherent(AfterPeak(s, coin, mark, now)) && Stale(AfterPeak(s, coin, mark, now)) <= Stale(s)
  {
    var t := Mutated(s, WithPeak(s.book[coin], mark));
    MutationIsDurable(s, coin, mark);
    hide WithPeak, RecordOf, Stale, Coherent;
    var u := t.(lastPeakPersist := t.lastPeakPersist[coin := now]);
    DebounceIsNotTheRecord(t, u.lastPeakPersist);
    UpsertRepairs(u, coin);
  }

  /** The record of a peak is at most five seconds behind: a new peak is written
      at once unless the coin's last one was written less than that ago, and then
      the file is left alone. */
  lemma PeakLagsAtMostFiveSeconds(s: Live, coin: Coin, mark: real, now: Instant)
    requires Coherent(s) && coin in s.book
    ensures s.book[coin].coin == coin
    ensures var t := AfterPeak(s, coin, mark, now);
            var waits := coin in s.lastPeakPersist && now - s.lastPeakPersist[coin] < 5.0;
            && (t.book[coin].peakPx == s.book[coin].peakPx ==> t.disk == s.disk && t.lastPeakPersist == s.lastPeakPersist)
            && (t.book[coin].peakPx != s.book[coin].peakPx ==>
                  if waits then t.disk == s.disk && t.lastPeakPersist == s.lastPeakPersist
                  else coin in t.disk && t.disk[coin] == t.book[coin] && t.lastPeakPersist == s.lastPeakPersist[coin := now])
  {
    hide WithPeak;
  }

  /** A registered position is recorded with its peak, its entry if it had none. */
  lemma RegisterSeedsPeak(s: Live, p: Managed)
    ensures var t := Registered(s, p);
            && p.coin in t.book && p.coin in t.disk && t.disk[p.coin] == t.book[p.coin]
            && t.book[p.coin] == p.(peakPx := t.book[p.coin].peakPx)
            && t.book[p.coin].peakPx == (if p.peakPx.Some? then p.peakPx else Some(p.entryPx))
            && forall c | c != p.coin :: (c in t.book <==> c in s.book) && (c in s.book ==> t.book[c] == s.book[c])
  {
  }

  lemma MutationIsDurable(s: Live, coin: Coin, mark: real)
    requires Coherent(s) && coin in s.book
    ensures s.book[coin].coin == coin
    ensures var t := Mutated(s, WithPeak(s.book[coin], mark)); Coherent(t) && Stale(t) <= Stale(s) && coin in t.book
  {
    var t := Mutated(s, WithPeak(s.book[coin], mark));
    forall c <- Stale(t) ensures c in Stale(s) {}
  }

  lemma DebounceIsNotTheRecord(s: Live, persisted: map<Coin, Instant>)
    requires Coherent(s)
    ensures Coherent(s.(lastPeakPersist := persisted)) && Stale(s.(lastPeakPersist := persisted)) == Stale(s)
  {
  }

  lemma JournalIsNotTheRecord(s: Live, journal: seq<JournalRow>)
    requires Coherent(s)
    ensures Coherent(s.(journal := journal)) && Stale(s.(journal := journal)) == Stale(s)
  {
  }

  /** Arming break-even writes at once: the moved stop is on disk. */
  lemma BreakEvenIsDurable(settings: Settings, s: Live, coin: Coin, mark: real)
    requires Coherent(s) && coin in s.book
    ensures s.book[coin].coin == coin
    ensures var t := AfterBreakEven(settings, s, coin, mark);
            && Coherent(t) && Stale(t) <= Stale(s)
            && (t.book != s.book && s.book[coin].peakPx.Some? ==> coin !in Stale(t))
  {
    var p := WithBreakEven(settings, s.book[coin], mark);
    if p != s.book[coin] {
      var m := Mutated(s, p);
      assert Coherent(m);
      UpsertRepairs(m, coin);
      UnrecordableAreStale(s);
      hide WithBreakEven, RecordOf, Stale;
      assert (set c <- m.book | (c != coin && c !in m.shared) || m.book[c].peakPx.None?) <= Unrecordable(s);
    }
  }

  lemma ExitIsDurable(settings: Settings, s: Live, coin: Coin, request: ExitRequest, response: Response)
    requires Coherent(s) && coin in s.book
    ensures var t := ExitRequested(settings, s, coin, request, response);
            && Coherent(t) && Stale(t) <= Stale(s)
            && (response == Accepted ==> coin !in Stale(t))
            && t.journal == s.journal + [RowOf(settings, s.book[coin], request)]
  {
    hide RowOf, Stale, Coherent;
    var u := s.(journal := s.journal + [RowOf(settings, s.book[coin], request)]);
    JournalIsNotTheRecord(s, u.journal);
    RemoveIsDurable(u, coin);
  }

  /** Whatever a mark does - new peak, break-even, exit accepted or refused - it
      makes no record stale. */
  lemma MarkIsDurable(settings: Settings, s: Live, coin: Coin, mark: real, now: Instant, target: Option<real>, response: Response)
    requires Coherent(s)
    ensures Coherent(AfterMark(settings, s, coin, mark, now, target, response))
    ensures Stale(AfterMark(settings, s, coin, mark, now, target, response)) <= Stale(s)
  {
    hide ExitDecision, WithPeak, WithBreakEven, AfterPeak, AfterBreakEven, ExitRequested, Stale, Coherent;
    CoherentIsKeyed(s);
    if coin in s.book {
      var t := AfterPeak(s, coin, mark, now);
      PeakIsDurable(s, coin, mark, now);
      var u := AfterBreakEven(settings, t, coin, mark);
      BreakEvenIsDurable(settings, t, coin, mark);
      var d := ExitDecision(settings, u.book[coin], mark, now, target);
      if d.Some? { ExitIsDurable(settings, u, coin, d.value, response); }
    }
  }

  lemma CoherentIsKeyed(s: Live)
    requires Coherent(s)
    ensures KeyedByCoin(s)
  {
  }

  /** Whatever order the positions come in and whichever exits fail: exactly the
      accepted ones leave, no record goes stale, and one row per position is
      journalled at its mark, or else its peak or entry. */
  lemma {:induction false} PanicIsThorough(settings: Settings, s: Live, order: seq<Coin>, marks: map<Coin, real>, responses: Coin -> Response)
    requires Coherent(s) && Distinct(order) && forall c <- order :: c in s.book
    ensures var t := PanicClosed(settings, s, order, marks, responses);
            && Coherent(t) && Stale(t) <= Stale(s)
            && (forall c :: c in t.book <==> c in s.book && !(c in order && responses(c) == Accepted))
            && |t.journal| == |s.journal| + |order| && s.journal <= t.journal
            && forall i | 0 <= i < |order| :: PanicRow(settings, t.journal[|s.journal| + i], s.book[order[i]], marks)
  {
    hide RowOf, PanicPx, Stale, Coherent, ExitRequested, PanicRow;
    PanicRows(settings, s, order, marks, responses);
    if order != [] {
      var init, last := order[..|order| - 1], order[|order| - 1];
      PanicIsThorough(settings, s, init, marks, responses);
      var t := PanicClosed(settings, s, init, marks, responses);
      assert init + [last] == order;
      PanicStep(settings, s, init, last, marks, responses);
      hide PanicClosed;
      ExitIsDurable(settings, t, last, ExitRequest(KillSwitchExit, PanicPx(s.book[last], marks)), responses(last));
    }
  }

  // ------------------------------------------------------------- whole runs

  /** Everything that touches the live books after startup. */
  datatype Act =
    | Register(p: Managed)
    | OnMark(coin: Coin, mark: real, now: Instant, target: Option<real>, answer: Response)
    | Exit(which: Coin, request: ExitRequest, response: Response)
    | Panic(order: seq<Coin>, marks: map<Coin, real>, responses: Coin -> Response)

  function AfterAct(settings: Settings, s: Live, act: Act): Live
    requires Coherent(s)
  {
    match act
    case Register(p) => Registered(s, p)
    case OnMark(coin, mark, now, target, answer) => AfterMark(settings, s, coin, mark, now, target, answer)
    case Exit(which, request, response) =>
      if which in s.book then ExitRequested(settings, s, which, request, response) else s
    case Panic(order, marks, responses) =>
      if Distinct(order) && (forall c <- order :: c in s.book) then PanicClosed(settings, s, order, marks, responses) else s
  }

  lemma ActIsDurable(settings: Settings, s: Live, act: Act)
    requires Coherent(s)
    ensures Coherent(AfterAct(settings, s, act)) && Stale(AfterAct(settings, s, act)) <= Stale(s)
    ensures act.Register? ==> act.p.coin !in Stale(AfterAct(settings, s, act))
  {
    hide Stale, Coherent, AfterMark, Registered, ExitRequested, PanicClosed;
    if act.Register? {
      RegisterIsDurable(s, act.p);
    } else if act.OnMark? {
      MarkIsDurable(settings, s, act.coin, act.mark, act.now, act.target, act.answer);
    } else if act.Exit? {
      if act.which in s.book { ExitIsDurable(settings, s, act.which, act.request, act.response); }
    } else if Distinct(act.order) && (forall c <- act.order :: c in s.book) {
      PanicIsThorough(settings, s, act.order, act.marks, act.responses);
    }
  }

  function AfterActs(settings: Settings, s: Live, acts: seq<Act>): (t: Live)
    requires Coherent(s)
    ensures Coherent(t)
  {
    hide Coherent, AfterAct;
    if acts == [] then s
    else
      var t := AfterActs(settings, s, acts[..|acts| - 1]);
      ActIsDurable(settings, t, acts[|acts| - 1]);
      AfterAct(settings, t, acts[|acts| - 1])
  }

  /** Over any sequence of registrations, marks, exits and panics no record goes
      stale: what a crash would get wrong at the end, it would have got wrong at
      the start. */
  lemma {:induction false} RunsAreDurable(settings: Settings, s: Live, acts: seq<Act>)
    requires Coherent(s)
    ensures Stale(AfterActs(settings, s, acts)) <= Stale(s)
  {
    hide Stale, Coherent, AfterAct;
    if acts != [] {
      var init := acts[..|acts| - 1];
      RunsAreDurable(settings, s, init);
      ActIsDurable(settings, AfterActs(settings, s, init), acts[|acts| - 1]);
    }
  }

  /** From a faithful start a crash loses only peaks, wherever it comes. */
  lemma FaithfulRunsLoseOnlyPeaks(settings: Settings, s: Live, acts: seq<Act>)
    requires CrashLosesOnlyPeaks(s)
    ensures Coherent(s) && CrashLosesOnlyPeaks(AfterActs(settings, s, acts))
  {
    NothingStaleIff(s);
    hide Stale, CrashLosesOnlyPeaks, Coherent;
    RunsAreDurable(settings, s, acts);
    NothingStaleIff(AfterActs(settings, s, acts));
  }

  // ------------------------------------------------------------- the start

  ghost predicate AdoptsAny(st: Startup)
  {
    exists c :: st.Adopts(c)
  }

  /** Some coin dropped after this one in the file's order: the drop rewrites the
      file. */
  predicate LateDrop(st: Startup, order: seq<Coin>, c: Coin)
  {
    order != [] &&
    var init, last := order[..|order| - 1], order[|order| - 1];
    (c in init && !st.Keeps(last)) || LateDrop(st, init, c)
  }

  /** The file still has the saved size: nothing wrote it since. */
  predicate Lags(st: Startup, order: seq<Coin>, c: Coin)
  {
    c in order && st.Keeps(c) && st.Resizes(c) && !LateDrop(st, order, c)
  }

  ghost predicate DiskFacts(st: Startup, t: Live, order: seq<Coin>)
  {
    t.disk.Keys == t.shelf.Keys && (forall c <- t.disk :: c in st.saved) &&
    forall c <- t.disk :: t.disk[c] == if Lags(st, order, c) then st.saved[c] else t.shelf[c]
  }

  lemma {:induction false} RestoredDisk(settings: Settings, st: Startup, s: Live, order: seq<Coin>)
    requires Unrecovered(st, s) && s.disk == st.saved && Distinct(order) && forall c <- order :: c in st.saved
    ensures DiskFacts(st, RestoredAll(settings, st, s, order), order)
  {
    hide Startup.Managed, Shelved;
    if order != [] {
      var init, last := order[..|order| - 1], order[|order| - 1];
      assert order == init + [last];
      RestoredDisk(settings, st, s, init);
      RestoredAllFacts(settings, st, s, init);
      hide RestoredAll;
      DiskStep(settings, st, RestoredAll(settings, st, s, init), init, last);
    }
  }

  lemma DiskStep(settings: Settings, st: Startup, t: Live, order: seq<Coin>, coin: Coin)
    requires DiskFacts(st, t, order) && RestoredFacts(settings, st, t, order) && coin in st.saved && coin !in order
    ensures DiskFacts(st, RestoreStep(settings, st, t, coin), order + [coin])
  {
    var next := order + [coin];
    assert next[..|order|] == order;
    if st.Keeps(coin) {
      KeptAsSaved(settings, st, coin);
      NoLateDropYet(st, order, coin);
      assert coin in t.shelf && t.shelf[coin] == st.saved[coin] && coin in t.disk;
      hide Startup.Managed, Startup.Rebuilds, Startup.Resizes, Startup.Keeps, Shelved;
    } else {
      hide Startup.Managed, Startup.Rebuilds, Startup.Resizes, Startup.Keeps, Shelved;
    }
  }

  lemma {:induction false} NoLateDropYet(st: Startup, order: seq<Coin>, c: Coin)
    requires c !in order
    ensures !LateDrop(st, order, c)
  {
    if order != [] { NoLateDropYet(st, order[..|order| - 1], c); }
  }

  /** A kept coin that is neither rebuilt nor resized is as it was saved. */
  lemma KeptAsSaved(settings: Settings, st: Startup, c: Coin)
    requires st.Keeps(c)
    ensures !st.Rebuilds(c) && !st.Resizes(c) ==> st.Managed(settings, c) == st.saved[c]
    ensures !st.Rebuilds(c) ==> st.Managed(settings, c) == st.saved[c].(size := st.Managed(settings, c).size)
    ensures st.Resizes(c) ==> st.Managed(settings, c).size != st.saved[c].size
  {
    hide InitialStop;
    if st.Resizes(c) {
      var size := st.saved[c].size;
      assert RAbs(size - size) / size == 0.0;
    }
  }

  lemma RecoveryIsCoherent(settings: Settings, st: Startup, s: Live, order: seq<Coin>)
    requires Unrecovered(st, s) && Distinct(order) && forall c :: c in order <==> c in st.saved
    ensures Coherent(Recovered(settings, st, s, order))
  {
    var r := RestoredAll(settings, st, s, order);
    RestoredAllFacts(settings, st, s, order);
    RestoredIsCoherent(settings, st, s, r, order);
    hide RestoredFacts, WithAdopted, Unrecovered, Coherent;
    AdoptionIsCoherent(settings, st, r, if st.exchange.Some? then st.exchange.value.Keys else {});
  }

  lemma RestoredIsCoherent(settings: Settings, st: Startup, s: Live, r: Live, order: seq<Coin>)
    requires Unrecovered(st, s) && RestoredFacts(settings, st, r, order) && forall c :: c in order <==> c in st.saved
    ensures Coherent(r)
  {
    hide Startup.Managed, Startup.Rebuilds;
    forall c | st.Keeps(c) ensures st.Managed(settings, c).coin == c { ManagedIsKeyed(settings, st, c); }
    assert forall c | st.Keeps(c) :: c in st.saved;
  }

  lemma AdoptionIsCoherent(settings: Settings, st: Startup, r: Live, coins: set<Coin>)
    requires Coherent(r)
    ensures Coherent(WithAdopted(settings, st, r, coins))
  {
    AdoptedSet(settings, st, r, coins);
    forall c | st.Adopts(c) ensures st.Managed(settings, c).coin == c { ManagedIsKeyed(settings, st, c); }
    hide WithAdopted, Startup.Managed, Startup.Adopts;
  }

  /** What recovery leaves wrong in the file of a kept coin. */
  ghost predicate LeftStale(st: Startup, order: seq<Coin>, c: Coin)
    requires st.Keeps(c)
  {
    || st.Rebuilds(c)
    || st.saved[c].peakPx.None?
    || (st.Resizes(c) && !AdoptsAny(st) && !LateDrop(st, order, c))
  }

  /** After recovery the records that are wrong are exactly: of kept coins, those
      rebuilt on the other side, those without a peak, and those resized with no
      write of the file since; and the whole of an unreadable file that nothing
      adopted has rewritten. */
  lemma StaleAfterRecovery(settings: Settings, st: Startup, s: Live, order: seq<Coin>, c: Coin)
    requires Unrecovered(st, s) && Distinct(order) && forall c :: c in order <==> c in st.saved
    requires s.disk == st.saved || st.saved == map[]
    ensures c in Stale(Recovered(settings, st, s, order)) <==>
              if st.Keeps(c) then LeftStale(st, order, c)
              else !st.Adopts(c) && s.disk != st.saved && !AdoptsAny(st) && c in s.disk
  {
    var r := RestoredAll(settings, st, s, order);
    var coins := if st.exchange.Some? then st.exchange.value.Keys else {};
    RecoveredSet(settings, st, s, order);
    RestoredAllFacts(settings, st, s, order);
    AdoptedSet(settings, st, r, coins);
    if s.disk == st.saved {
      RestoredDisk(settings, st, s, order);
    } else {
      NothingToRestore(order, st.saved);
      assert r == s;
    }
    hide RestoredAll, WithAdopted;
    var t := Recovered(settings, st, s, order);
    assert AdoptsAny(st) <==> exists c :: c in coins && st.Adopts(c);
    if st.Keeps(c) {
      KeptRecordIff(settings, st, s, order, c, r, t);
    } else if st.Adopts(c) {
      AdoptedIsRecorded(settings, st, t, c);
    } else {
      hide Startup.Managed, RecordOf, Shelved;
    }
  }

  lemma NothingToRestore(order: seq<Coin>, saved: map<Coin, Managed>)
    requires forall c <- order :: c in saved
    ensures order != [] ==> saved != map[]
  {
    if order != [] { assert order[0] in saved; }
  }

  lemma KeptRecordIff(settings: Settings, st: Startup, s: Live, order: seq<Coin>, c: Coin, r: Live, t: Live)
    requires st.Keeps(c) && c in order && RestoredFacts(settings, st, r, order) && DiskFacts(st, r, order)
    requires c in t.book && t.book[c] == st.Managed(settings, c) && (c in t.shared <==> c in r.shared)
    requires c in t.shelf && t.shelf[c] == r.shelf[c]
    requires t.disk == if AdoptsAny(st) then t.shelf else r.disk
    ensures !Recorded(t, c) <==> LeftStale(st, order, c)
  {
    KeptAsSaved(settings, st, c);
    assert c in r.disk && c in t.disk;
    hide Startup.Managed, Startup.Keeps;
  }

  lemma AdoptedIsRecorded(settings: Settings, st: Startup, t: Live, c: Coin)
    requires st.Adopts(c) && c in t.book && t.book[c] == st.Managed(settings, c) && c in t.shared
    requires c in t.disk && t.disk[c] == st.Managed(settings, c)
    ensures Recorded(t, c)
  {
  }

  /** Recovery is faithful exactly when the file could be read or an adoption
      rewrote it, and every kept coin has a peak, is held on the saved side and
      has its exchange size on disk. */
  lemma RecoveryIsFaithfulIff(settings: Settings, st: Startup, s: Live, order: seq<Coin>)
    requires Unrecovered(st, s) && Distinct(order) && forall c :: c in order <==> c in st.saved
    requires s.disk == st.saved || st.saved == map[]
    ensures CrashLosesOnlyPeaks(Recovered(settings, st, s, order)) <==>
              && (s.disk == st.saved || AdoptsAny(st))
              && forall c | st.Keeps(c) :: !LeftStale(st, order, c)
  {
    hide CrashLosesOnlyPeaks, Coherent, Recovered, LeftStale, Startup.Keeps, Startup.Adopts, Unrecovered;
    var t := Recovered(settings, st, s, order);
    RecoveryIsCoherent(settings, st, s, order);
    NothingStaleIff(t);
    forall c ensures c in Stale(t) <==>
              if st.Keeps(c) then LeftStale(st, order, c)
              else !st.Adopts(c) && s.disk != st.saved && !AdoptsAny(st) && c in s.disk
    {
      StaleAfterRecovery(settings, st, s, order, c);
    }
    hide Stale;
    if Stale(t) == {} {
      forall c | st.Keeps(c) ensures !LeftStale(st, order, c) { assert c !in Stale(t); }
      if s.disk != st.saved && !AdoptsAny(st) { UnreadableDisk(st, s, t); }
    }
  }

  lemma UnreadableDisk(st: Startup, s: Live, t: Live)
    requires st.saved == map[] && s.disk != st.saved && !AdoptsAny(st)
    ensures exists c :: c in s.disk && !st.Keeps(c) && !st.Adopts(c)
  {
    assert s.disk.Keys == {} ==> s.disk == map[];
    var c :| c in s.disk;
    assert !st.Adopts(c);
  }

  /** So a run from a faithful recovery loses only peaks at any crash, and one
      from any other recovery gets only the left-over records wrong. */
  lemma RecoveredRunsAreDurable(settings: Settings, st: Startup, s: Live, order: seq<Coin>, acts: seq<Act>)
    requires Unrecovered(st, s) && Distinct(order) && forall c :: c in order <==> c in st.saved
    ensures Coherent(Recovered(settings, st, s, order))
    ensures Stale(AfterActs(settings, Recovered(settings, st, s, order), acts)) <= Stale(Recovered(settings, st, s, order))
  {
    RecoveryIsCoherent(settings, st, s, order);
    hide *;
    RunsAreDurable(settings, Recovered(settings, st, s, order), acts);
  }

  /** Another coin's write puts the store's old object of a rebuilt coin on disk
      again; a resized coin's record it puts right. */
  lemma OtherWrites(s: Live, c: Coin, d: Coin)
    requires Coherent(s) && c in s.book && d in s.book && c != d && s.book[c].peakPx.Some?
    ensures c !in s.shared ==> c in Stale(Upserted(s, d)) && Upserted(s, d).disk[c] == s.shelf[c]
    ensures c in s.shared ==> c !in Stale(Upserted(s, d))
  {
    UpsertRepairs(s, d);
  }

  /** A long saved as such, which the exchange holds short. */
  function SideMismatch(c: Coin, now: Instant): Startup
  {
    Startup(map[c := Managed(c, Long, 100.0, 1.0, 98.0, false, Some(110.0), now)],
            Some(map[c := ExchangePosition(-1.0, 100.0)]), {c}, map[], now)
  }

  /** There the file keeps the long after recovery; registering another coin
      rewrites the long; only the short's own write replaces it. */
  lemma SideMismatchGoesStale(settings: Settings, c: Coin, now: Instant, p: Managed)
    requires p.coin != c
    ensures var st := SideMismatch(c, now);
            var s := Live(map[], st.saved, {}, st.saved, map[], []);
            var t := Recovered(settings, st, s, [c]);
            var u := Registered(t, p);
            && Coherent(t) && !CrashLosesOnlyPeaks(t) && Stale(t) == {c}
            && c in t.book && t.book[c].side == Short && c in t.disk && t.disk[c].side == Long
            && c in u.disk && u.disk[c].side == Long && c in Stale(u)
            && c in u.book && CrashLosesOnlyPeaks(Upserted(u, c))
  {
    hide InitialStop;
    var st := SideMismatch(c, now);
    var s := Live(map[], st.saved, {}, st.saved, map[], []);
    var t := Recovered(settings, st, s, [c]);
    RecoveryIsCoherent(settings, st, s, [c]);
    MismatchRecovered(settings, st, s, c);
    hide Recovered, RestoredAll, Startup.Managed;
    assert Stale(t) == {c};
    RegisterIsDurable(t, p);
    var u := Registered(t, p);
    UpsertRepairs(u, c);
    NothingStaleIff(t);
    NothingStaleIff(Upserted(u, c));
  }

  lemma MismatchRecovered(settings: Settings, st: Startup, s: Live, c: Coin)
    requires exists now :: st == SideMismatch(c, now)
    requires s == Live(map[], st.saved, {}, st.saved, map[], [])
    ensures var t := Recovered(settings, st, s, [c]);
            && t.book.Keys == {c} && t.book[c].side == Short && t.book[c].peakPx.Some? && t.book[c].coin == c
            && t.disk == st.saved && t.shelf == st.saved && t.shared == {}
  {
    hide InitialStop;
    assert [c][..0] == [] && st.Keeps(c) && st.Rebuilds(c);
    var r := RestoreStep(settings, st, s, c);
    assert RestoredAll(settings, st, s, [c]) == r;
    assert st.exchange.value.Keys == {c};
    assert WithAdopted(settings, st, r, {c}) == r;
  }
}
