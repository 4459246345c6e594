/** src/strategy/market_breadth.py: how many distinct coins moved one way within
    a sliding window.  The timestamps are those of the events, so nothing says
    that they come in order; the theorems below say what the deque counts on any
    sequence of calls, and when that is the count over the whole history. */
module MarketBreadth {
  import opened Prelude

  datatype Direction = Up | Down

  datatype Move = Move(coin: Coin, direction: Direction, ts: Instant)

  /** Stale marks leave from the front only, as from a deque. */
  function Pruned(marks: seq<Move>, cutoff: Instant): seq<Move>
  {
    if marks != [] && marks[0].ts < cutoff then Pruned(marks[1..], cutoff) else marks
  }

  predicate Matches(m: Move, direction: Direction, exclude: Option<Coin>)
  {
    m.direction == direction && exclude != Some(m.coin)
  }

  /** The distinct coins, other than the excluded one, that moved this way. */
  function CoinsOf(moves: seq<Move>, direction: Direction, exclude: Option<Coin>): set<Coin>
  {
    set m <- moves | Matches(m, direction, exclude) :: m.coin
  }

  /** Those with such a move at or after `since`. */
  function Movers(moves: seq<Move>, direction: Direction, since: Instant, exclude: Option<Coin>): set<Coin>
  {
    set m <- moves | Matches(m, direction, exclude) && m.ts >= since :: m.coin
  }

  // ------------------------------------------------------------- one prune

  /** Pruning drops the leading stale marks and nothing else. */
  lemma {:induction false} PrunedIsSuffix(marks: seq<Move>, cutoff: Instant)
    ensures var k := |marks| - |Pruned(marks, cutoff)|;
            && 0 <= k && Pruned(marks, cutoff) == marks[k..]
            && (forall i | 0 <= i < k :: marks[i].ts < cutoff)
            && (k < |marks| ==> marks[k].ts >= cutoff)
  {
    if marks != [] && marks[0].ts < cutoff { PrunedIsSuffix(marks[1..], cutoff); }
  }

  lemma {:induction false} PrunedAt(marks: seq<Move>, cutoff: Instant, k: nat)
    requires k <= |marks| && (forall i | 0 <= i < k :: marks[i].ts < cutoff)
    requires k < |marks| ==> marks[k].ts >= cutoff
    ensures Pruned(marks, cutoff) == marks[k..]
  {
    if k > 0 {
      PrunedAt(marks[1..], cutoff, k - 1);
      assert marks[1..][k - 1..] == marks[k..];
    }
  }

  lemma PrunedTwice(marks: seq<Move>, cutoff: Instant)
    ensures Pruned(Pruned(marks, cutoff), cutoff) == Pruned(marks, cutoff)
  {
    PrunedIsSuffix(marks, cutoff);
  }

  /** Mark `i` is stale, but a fresh one stands before it. */
  predicate Hidden(marks: seq<Move>, cutoff: Instant, i: nat)
    requires i < |marks|
  {
    marks[i].ts < cutoff && exists j | 0 <= j < i :: marks[j].ts >= cutoff
  }

  /** One prune counts the fresh movers of any marks exactly when every stale
      mark hidden behind a fresh one is of a coin that has a fresh one too. */
  lemma PrunedCountsMoversIff(marks: seq<Move>, cutoff: Instant, direction: Direction, exclude: Option<Coin>)
    ensures CoinsOf(Pruned(marks, cutoff), direction, exclude) == Movers(marks, direction, cutoff, exclude)
       <==> forall i | 0 <= i < |marks| && Hidden(marks, cutoff, i) && Matches(marks[i], direction, exclude) ::
              marks[i].coin in Movers(marks, direction, cutoff, exclude)
  {
    var kept := Pruned(marks, cutoff);
    var k := |marks| - |kept|;
    PrunedIsSuffix(marks, cutoff);
    FreshAreKept(marks, k, cutoff, direction, exclude);
    forall i | 0 <= i < |marks| ensures Hidden(marks, cutoff, i) <==> i >= k && marks[i].ts < cutoff {
      if i >= k && marks[i].ts < cutoff { assert marks[k].ts >= cutoff; }
    }
    StaleKept(marks, k, cutoff, direction, exclude);
  }

  /** If only stale marks were dropped, no fresh mover is missed. */
  lemma FreshAreKept(marks: seq<Move>, k: nat, since: Instant, direction: Direction, exclude: Option<Coin>)
    requires k <= |marks| && forall i | 0 <= i < k :: marks[i].ts < since
    ensures Movers(marks, direction, since, exclude) <= CoinsOf(marks[k..], direction, exclude)
  {
    forall c <- Movers(marks, direction, since, exclude) ensures c in CoinsOf(marks[k..], direction, exclude) {
      var m :| m in marks && Matches(m, direction, exclude) && m.ts >= since && m.coin == c;
      var i :| 0 <= i < |marks| && marks[i] == m;
      assert marks[k..][i - k] == m;
    }
  }

  /** The coins counted are movers exactly if each stale mark kept is of one. */
  lemma StaleKept(marks: seq<Move>, k: nat, since: Instant, direction: Direction, exclude: Option<Coin>)
    requires k <= |marks|
    ensures CoinsOf(marks[k..], direction, exclude) <= Movers(marks, direction, since, exclude)
       <==> forall i | k <= i < |marks| && marks[i].ts < since && Matches(marks[i], direction, exclude) ::
              marks[i].coin in Movers(marks, direction, since, exclude)
  {
    var counted, movers := CoinsOf(marks[k..], direction, exclude), Movers(marks, direction, since, exclude);
    forall i | k <= i < |marks| && Matches(marks[i], direction, exclude) ensures marks[i].coin in counted {
      assert marks[k..][i - k] == marks[i];
    }
    forall c <- counted ensures exists i :: k <= i < |marks| && Matches(marks[i], direction, exclude) && marks[i].coin == c {
      var m :| m in marks[k..] && Matches(m, direction, exclude) && m.coin == c;
      var i :| 0 <= i < |marks| - k && marks[k..][i] == m;
      assert marks[k + i] == m;
    }
    forall i | k <= i < |marks| && Matches(marks[i], direction, exclude) && marks[i].ts >= since
      ensures marks[i].coin in movers
    {
      assert marks[i] in marks;
    }
  }

  // ------------------------------------------------------------- any calls

  /** A recorded move, or a question about some instant; both prune. */
  datatype Call = Moved(move: Move) | Asked(at: Instant)

  function TimeOf(call: Call): Instant
  {
    match call case Moved(m) => m.ts case Asked(at) => at
  }

  /** Every move ever recorded. */
  function History(calls: seq<Call>): seq<Move>
  {
    if calls == [] then [] else
      History(calls[..|calls| - 1]) + if calls[|calls| - 1].Moved? then [calls[|calls| - 1].move] else []
  }

  /** What the tracker keeps of it. */
  function Deque(window: real, calls: seq<Call>): seq<Move>
  {
    if calls == [] then [] else
      var last := calls[|calls| - 1];
      var marks := Deque(window, calls[..|calls| - 1]);
      Pruned(if last.Moved? then marks + [last.move] else marks, TimeOf(last) - window)
  }

  lemma CallsAppend(window: real, calls: seq<Call>, call: Call)
    ensures History(calls + [call]) == History(calls) + if call.Moved? then [call.move] else []
    ensures Deque(window, calls + [call])
         == Pruned(if call.Moved? then Deque(window, calls) + [call.move] else Deque(window, calls), TimeOf(call) - window)
  {
    assert (calls + [call])[..|calls|] == calls;
  }

  function Popped(window: real, calls: seq<Call>): int
  {
    |History(calls)| - |Deque(window, calls)|
  }

  /** The deque is always the history less its first `Popped` moves. */
  lemma {:induction false} DequeIsSuffix(window: real, calls: seq<Call>)
    ensures 0 <= Popped(window, calls) <= |History(calls)|
    ensures Deque(window, calls) == History(calls)[Popped(window, calls)..]
  {
    if calls != [] {
      var init, last := calls[..|calls| - 1], calls[|calls| - 1];
      DequeIsSuffix(window, init);
      var k, h := Popped(window, init), History(init);
      var more := if last.Moved? then [last.move] else [];
      var marks := if last.Moved? then Deque(window, init) + [last.move] else Deque(window, init);
      assert marks == (h + more)[k..];
      PrunedIsSuffix(marks, TimeOf(last) - window);
      var j := |marks| - |Pruned(marks, TimeOf(last) - window)|;
      assert (h + more)[k..][j..] == (h + more)[k + j..];
    }
  }

  /** A stale mark still in the deque is of a coin that has a fresh move. */
  predicate NoStaleCounted(h: seq<Move>, k: nat, since: Instant, direction: Direction, exclude: Option<Coin>)
  {
    forall i | k <= i < |h| && h[i].ts < since && Matches(h[i], direction, exclude) ::
      h[i].coin in Movers(h, direction, since, exclude)
  }

  /** A fresh move no longer in the deque is of a coin that is still in it. */
  predicate NoFreshLost(h: seq<Move>, k: nat, since: Instant, direction: Direction, exclude: Option<Coin>)
    requires k <= |h|
  {
    forall i | 0 <= i < k && h[i].ts >= since && Matches(h[i], direction, exclude) ::
      h[i].coin in CoinsOf(h[k..], direction, exclude)
  }

  lemma FreshLostIff(h: seq<Move>, k: nat, since: Instant, direction: Direction, exclude: Option<Coin>)
    requires k <= |h|
    ensures Movers(h, direction, since, exclude) <= CoinsOf(h[k..], direction, exclude)
       <==> NoFreshLost(h, k, since, direction, exclude)
  {
    var counted, movers := CoinsOf(h[k..], direction, exclude), Movers(h, direction, since, exclude);
    forall i | 0 <= i < k && h[i].ts >= since && Matches(h[i], direction, exclude) ensures h[i].coin in movers {
      assert h[i] in h;
    }
    forall c <- movers ensures NoFreshLost(h, k, since, direction, exclude) ==> c in counted {
      var m :| m in h && Matches(m, direction, exclude) && m.ts >= since && m.coin == c;
      var i :| 0 <= i < |h| && h[i] == m;
      if i >= k { assert h[k..][i - k] == m; }
    }
  }

  /** On any sequence of records and questions: the coins counted are those of
      the whole history exactly when neither failure happened. */
  lemma CountsHistoryIff(window: real, calls: seq<Call>, since: Instant, direction: Direction, exclude: Option<Coin>)
    ensures 0 <= Popped(window, calls) <= |History(calls)|
    ensures CoinsOf(Deque(window, calls), direction, exclude) == Movers(History(calls), direction, since, exclude)
       <==> && NoStaleCounted(History(calls), Popped(window, calls), since, direction, exclude)
            && NoFreshLost(History(calls), Popped(window, calls), since, direction, exclude)
  {
    DequeIsSuffix(window, calls);
    StaleKept(History(calls), Popped(window, calls), since, direction, exclude);
    FreshLostIff(History(calls), Popped(window, calls), since, direction, exclude);
    hide CoinsOf, Movers, Popped, Deque, History, NoFreshLost;
  }

  lemma SetsDiffer(a: set<Coin>, b: set<Coin>)
    ensures |a| - |b| == |a - b| - |b - a|
  {
    assert a == (a - b) + (a * b) && b == (b - a) + (a * b);
  }

  // ------------------------------------------------------------- calls in order

  predicate InOrder(calls: seq<Call>)
  {
    forall i, j | 0 <= i < j < |calls| :: TimeOf(calls[i]) <= TimeOf(calls[j])
  }

  predicate Ordered(moves: seq<Move>)
  {
    forall i, j | 0 <= i < j < |moves| :: moves[i].ts <= moves[j].ts
  }

  /** With calls in time order the history is ordered and not ahead of the clock. */
  lemma {:induction false} InOrderHistory(calls: seq<Call>)
    requires InOrder(calls) && calls != []
    ensures Ordered(History(calls)) && forall m <- History(calls) :: m.ts <= TimeOf(calls[|calls| - 1])
  {
    var init, last := calls[..|calls| - 1], calls[|calls| - 1];
    if init != [] {
      InOrderHistory(init);
      assert TimeOf(init[|init| - 1]) <= TimeOf(last);
      hide InOrder;
      forall i, j | 0 <= i < j < |History(calls)| ensures History(calls)[i].ts <= History(calls)[j].ts {
        if j == |History(init)| { assert History(init)[i] in History(init); }
      }
    } else {
      assert History(init) == [];
    }
  }

  /** Pruning an ordered history that lost only stale moves loses all stale ones. */
  lemma StalePrefixGrows(h: seq<Move>, k0: nat, cutoff: Instant)
    requires Ordered(h) && k0 <= |h| && forall i | 0 <= i < k0 :: h[i].ts < cutoff
    ensures var k := |h| - |Pruned(h[k0..], cutoff)|;
            && k0 <= k <= |h| && (forall i | 0 <= i < k :: h[i].ts < cutoff) && (forall i | k <= i < |h| :: h[i].ts >= cutoff)
  {
    PrunedIsSuffix(h[k0..], cutoff);
    hide Pruned;
    var k := |h| - |Pruned(h[k0..], cutoff)|;
    forall i | 0 <= i < k ensures h[i].ts < cutoff {
      if i >= k0 { assert h[k0..][i - k0] == h[i]; }
    }
    if k < |h| { assert h[k0..][k - k0] == h[k]; }
  }

  lemma {:induction false} InOrderPopsStale(window: real, calls: seq<Call>)
    requires InOrder(calls) && calls != []
    ensures var h, k, cutoff := History(calls), Popped(window, calls), TimeOf(calls[|calls| - 1]) - window;
            && 0 <= k <= |h|
            && (forall i | 0 <= i < k :: h[i].ts < cutoff) && (forall i | k <= i < |h| :: h[i].ts >= cutoff)
  {
    var init, last := calls[..|calls| - 1], calls[|calls| - 1];
    var cutoff := TimeOf(last) - window;
    var h, h0, k0 := History(calls), History(init), Popped(window, init);
    assert calls == init + [last];
    CallsAppend(window, init, last);
    InOrderHistory(calls);
    DequeIsSuffix(window, init);
    if init == [] {
      assert h0 == [];
    } else {
      InOrderPopsStale(window, init);
      assert TimeOf(init[|init| - 1]) <= TimeOf(last);
    }
    var marks := if last.Moved? then Deque(window, init) + [last.move] else Deque(window, init);
    assert marks == h[k0..];
    assert Deque(window, calls) == Pruned(h[k0..], cutoff);
    hide Deque, History, Ordered, InOrder;
    assert forall i | 0 <= i < k0 :: h[i] == h0[i];
    StalePrefixGrows(h, k0, cutoff);
    hide Pruned;
  }

  /** With calls in time order the count is that of the entire history. */
  lemma InOrderCountsHistory(window: real, calls: seq<Call>, direction: Direction, exclude: Option<Coin>)
    requires InOrder(calls) && calls != []
    ensures CoinsOf(Deque(window, calls), direction, exclude)
         == Movers(History(calls), direction, TimeOf(calls[|calls| - 1]) - window, exclude)
  {
    InOrderPopsStale(window, calls);
    CountsHistoryIff(window, calls, TimeOf(calls[|calls| - 1]) - window, direction, exclude);
    hide CoinsOf, Movers, Popped, Deque, History, Ordered, InOrder;
  }

  // ------------------------------------------------------------- the tracker

  class MarketBreadthTracker {
    const window: real
    const maxSameSide: int
    var marks: seq<Move>
    ghost var calls: seq<Call>

    ghost predicate Valid()
      reads this
    {
      marks == Deque(window, calls)
    }

    constructor (window: real, maxSameSide: int)
      ensures Valid() && calls == [] && marks == []
      ensures this.window == window && this.maxSameSide == maxSameSide
    {
      this.window, this.maxSameSide := window, maxSameSide;
      marks, calls := [], [];
    }

    method Record(coin: Coin, direction: Direction, now: Instant)
      requires Valid()
      modifies this
      ensures Valid() && calls == old(calls) + [Moved(Move(coin, direction, now))]
      ensures marks == Pruned(old(marks) + [Move(coin, direction, now)], now - window)
    {
      CallsAppend(window, calls, Moved(Move(coin, direction, now)));
      marks := marks + [Move(coin, direction, now)];
      calls := calls + [Moved(Move(coin, direction, now))];
      Prune(now);
    }

    method Prune(now: Instant)
      modifies this`marks
      ensures marks == Pruned(old(marks), now - window)
    {
      hide Pruned;
      var cutoff := now - window;
      ghost var start := marks;
      ghost var k := 0;
      while marks != [] && marks[0].ts < cutoff
        invariant k <= |start| && marks == start[k..]
        invariant forall i | 0 <= i < k :: start[i].ts < cutoff
        decreases |marks|
      {
        marks, k := marks[1..], k + 1;
      }
      PrunedAt(start, cutoff, k);
    }

    /** Off from the count over the entire history by the coins only stale marks
        speak for, less the coins whose fresh marks are gone; not off at all if
        the calls came in time order. */
    method CountSameSide(direction: Direction, now: Instant, exclude: Option<Coin>) returns (count: nat)
      requires Valid()
      modifies this
      ensures Valid() && calls == old(calls) + [Asked(now)] && marks == Pruned(old(marks), now - window)
      ensures count == |CoinsOf(marks, direction, exclude)|
      ensures var counted, movers := CoinsOf(marks, direction, exclude), Movers(History(calls), direction, now - window, exclude);
              count == |movers| + |counted - movers| - |movers - counted|
      ensures InOrder(calls) ==> count == |Movers(History(calls), direction, now - window, exclude)|
    {
      CallsAppend(window, calls, Asked(now));
      hide Deque, History, Pruned, Movers, Matches, InOrder;
      calls := calls + [Asked(now)];
      Prune(now);
      var coins := set m <- marks | Matches(m, direction, exclude) :: m.coin;
      SetsDiffer(coins, Movers(History(calls), direction, now - window, exclude));
      if InOrder(calls) { InOrderCountsHistory(window, calls, direction, exclude); }
      count := |coins|;
    }

    method IsSynchronized(direction: Direction, now: Instant, exclude: Option<Coin>) returns (synchronized: bool)
      requires Valid()
      modifies this
      ensures Valid() && calls == (if maxSameSide > 0 then old(calls) + [Asked(now)] else old(calls))
      ensures marks == if maxSameSide > 0 then Pruned(old(marks), now - window) else old(marks)
      ensures synchronized <==> maxSameSide > 0 && |CoinsOf(marks, direction, exclude)| >= maxSameSide
      ensures InOrder(calls) && maxSameSide > 0 ==>
                (synchronized <==> |Movers(History(calls), direction, now - window, exclude)| >= maxSameSide)
    {
      if maxSameSide <= 0 { return false; }
      var count := CountSameSide(direction, now, exclude);
      synchronized := count >= maxSameSide;
    }
  }

  // ------------------------------------------------------------- both failures

  /** A move that arrives late is counted after it went stale: the fresh one
      before it keeps it in the deque. */
  method LateMoveIsOvercounted(a: Coin, b: Coin) returns (counted: nat, movers: set<Coin>)
    requires a != b
    ensures counted == 2 && movers == {a}
  {
    var tracker := new MarketBreadthTracker(10.0, 4);
    var first, late := Move(a, Up, 100.0), Move(b, Up, 80.0);
    tracker.Record(a, Up, 100.0);
    tracker.Record(b, Up, 80.0);
    counted := tracker.CountSameSide(Up, 100.0, None);
    assert tracker.marks == [first, late];
    TwoMoves(first, late);
    movers := Movers([first, late], Up, 90.0, None);
  }

  /** A question about an earlier instant misses a move that a later call has
      already pruned. */
  method EarlierQuestionUndercounts(a: Coin, b: Coin) returns (counted: nat, movers: set<Coin>)
    requires a != b
    ensures counted == 1 && movers == {a, b}
  {
    var tracker := new MarketBreadthTracker(10.0, 4);
    var first, second := Move(a, Up, 80.0), Move(b, Up, 100.0);
    tracker.Record(a, Up, 80.0);
    tracker.Record(b, Up, 100.0);
    counted := tracker.CountSameSide(Up, 85.0, None);
    assert tracker.marks == [second];
    TwoMoves(first, second);
    movers := Movers([first, second], Up, 75.0, None);
  }

  lemma TwoMoves(x: Move, y: Move)
    requires x.coin != y.coin && x.direction == Up && y.direction == Up
    ensures CoinsOf([x, y], Up, None) == {x.coin, y.coin} && |{x.coin, y.coin}| == 2
    ensures CoinsOf([y], Up, None) == {y.coin}
    ensures forall since :: Movers([x, y], Up, since, None)
                         == (if x.ts >= since then {x.coin} else {}) + (if y.ts >= since then {y.coin} else {})
  {
    assert [x, y][0] == x && [x, y][1] == y && [y][0] == y;
    assert forall m <- [x, y] :: m == x || m == y;
  }
}
