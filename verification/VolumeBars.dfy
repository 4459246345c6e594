/** src/strategy/microstructure/volume_bars.py: trades cut into bars of a fixed
    traded size. */
module VolumeBars {
  import opened Prelude
  import opened FlowImbalance
  import opened RollingStatistics

  /** A bar, complete or in progress. */
  datatype Bar = Bar(
    openPx: real, highPx: real, lowPx: real, closePx: real,
    volume: real, signedVolume: real, buyVolume: real, sellVolume: real,
    tradeCount: nat, openTs: Instant, closeTs: Instant)
  {
    /** Simple return of the bar. */
    function Ret(): real
    {
      if openPx <= 0.0 then 0.0 else (closePx - openPx) / openPx
    }
  }

  datatype Trade = Trade(px: real, size: real, side: TradeSide, ts: Instant)

  function FreshBar(px: real, ts: Instant): Bar
  {
    Bar(px, px, px, px, 0.0, 0.0, 0.0, 0.0, 0, ts, ts)
  }

  /** `fill` of a trade goes into the bar. */
  function Filled(b: Bar, t: Trade, fill: real): Bar
  {
    var sign := TradeSign(t.side);
    Bar(b.openPx, RMax(b.highPx, t.px), RMin(b.lowPx, t.px), t.px,
        b.volume + fill,
        if sign > 0 then b.signedVolume + fill else if sign < 0 then b.signedVolume - fill else b.signedVolume,
        if sign > 0 then b.buyVolume + fill else b.buyVolume,
        if sign < 0 then b.sellVolume + fill else b.sellVolume,
        b.tradeCount + 1, b.openTs, t.ts)
  }

  function Started(acc: Option<Bar>, t: Trade): Bar
  {
    match acc case Some(b) => b case None => FreshBar(t.px, t.ts)
  }

  function Volume(acc: Option<Bar>): real { if acc.Some? then acc.value.volume else 0.0 }

  /** A partial bar holds something, but less than the threshold. */
  predicate Partial(threshold: real, acc: Option<Bar>)
  {
    acc.Some? ==> 0.0 < acc.value.volume < threshold
  }

  /** How often the threshold fits into what is accumulated plus what is left. */
  function BarsDue(threshold: real, acc: Option<Bar>, remaining: real): nat
    requires threshold > 0.0 && Partial(threshold, acc) && remaining >= 0.0
  {
    RatioIsNonNegative(Volume(acc) + remaining, threshold);
    ((Volume(acc) + remaining) / threshold).Floor
  }

  lemma RatioIsNonNegative(x: real, y: real)
    requires x >= 0.0 && y > 0.0
    ensures x / y >= 0.0
  {
  }

  lemma QuotientIs(y: real, q: real, t: real)
    requires t > 0.0 && y == q * t
    ensures y / t == q
  {
    var d := y / t;
    Cancel(y, t);
    assert (d - q) * t == 0.0;
    ZeroProduct(d - q, t);
  }

  lemma ZeroProduct(x: real, t: real)
    requires t > 0.0 && x * t == 0.0
    ensures x == 0.0
  {
  }

  lemma FloorDrops(x: real, t: real)
    requires t > 0.0
    ensures ((x - t) / t).Floor == (x / t).Floor - 1
  {
    var q := x / t;
    Cancel(x, t);
    QuotientIs(x - t, q - 1.0, t);
  }

  lemma BelowOne(q: real, t: real, r: real)
    requires t > 0.0 && q * t == r && 0.0 <= r < t
    ensures 0.0 <= q < 1.0
  {
    assert (1.0 - q) * t == t - r;
  }

  /** `n` bars and a partial of `rest` hold `total`. */
  predicate Holds(threshold: real, n: nat, rest: real, total: real)
  {
    n as real * threshold + rest == total
  }

  lemma HoldsOnly(threshold: real, total: real)
    ensures Holds(threshold, 0, total, total)
  {
  }

  lemma HoldsOneMore(threshold: real, n: nat, rest: real, total: real)
    requires Holds(threshold, n, rest, total)
    ensures Holds(threshold, n + 1, rest, total + threshold)
  {
    assert (n + 1) as real * threshold == n as real * threshold + threshold;
  }

  /** The source's loop: completed bars and the bar left in progress. */
  function Absorb(threshold: real, acc: Option<Bar>, t: Trade, remaining: real): (r: (seq<Bar>, Option<Bar>))
    requires threshold > 0.0 && Partial(threshold, acc) && remaining >= 0.0
    ensures Partial(threshold, r.1)
    ensures forall b <- r.0 :: b.volume == threshold
    ensures Holds(threshold, |r.0|, Volume(r.1), Volume(acc) + remaining)
    decreases BarsDue(threshold, acc, remaining), remaining > 0.0
  {
    hide Holds, TradeSign;
    HoldsOnly(threshold, Volume(acc) + remaining);
    if remaining == 0.0 then ([], acc) else
      var b := Started(acc, t);
      var capacity := threshold - b.volume;
      if remaining < capacity then ([], Some(Filled(b, t, remaining)))
      else
        FloorDrops(Volume(acc) + remaining, threshold);
        var (bars, rest) := Absorb(threshold, None, t, remaining - capacity);
        HoldsOneMore(threshold, |bars|, Volume(rest), remaining - capacity);
        ([Filled(b, t, capacity)] + bars, rest)
  }

  /** The number of bars a trade completes is the number the threshold fits. */
  lemma AbsorbCounts(threshold: real, acc: Option<Bar>, t: Trade, remaining: real)
    requires threshold > 0.0 && Partial(threshold, acc) && remaining >= 0.0
    ensures |Absorb(threshold, acc, t, remaining).0| == BarsDue(threshold, acc, remaining)
  {
    hide Absorb, Holds;
    var r := Absorb(threshold, acc, t, remaining);
    HoldsCounts(threshold, |r.0|, Volume(r.1), Volume(acc) + remaining);
  }

  lemma FloorPlus(n: nat, f: real, t: real, r: real, x: real)
    requires t > 0.0 && 0.0 <= f < 1.0 && f * t == r && n as real * t + r == x
    ensures (x / t).Floor == n
  {
    assert (n as real + f) * t == x;
    QuotientIs(x, n as real + f, t);
  }

  lemma UniqueQuotient(t: real, n: nat, r: real, x: real)
    requires t > 0.0 && 0.0 <= r < t && n as real * t + r == x
    ensures (x / t).Floor == n
  {
    var f := r / t;
    Cancel(r, t);
    BelowOne(f, t, r);
    FloorPlus(n, f, t, r, x);
  }

  // ------------------------------------------------------------- conservation

  /** The part of a bar's volume that came from one side. */
  function SideVolume(b: Bar, side: TradeSide): real
  {
    match side
    case Buy => b.buyVolume
    case Sell => b.sellVolume
    case Unknown => b.volume - b.buyVolume - b.sellVolume
  }

  function PartialSide(acc: Option<Bar>, side: TradeSide): real
  {
    if acc.Some? then SideVolume(acc.value, side) else 0.0
  }

  function TotalSide(bars: seq<Bar>, side: TradeSide): real
  {
    if bars == [] then 0.0 else TotalSide(bars[..|bars|-1], side) + SideVolume(bars[|bars|-1], side)
  }

  lemma {:induction false} TotalSideConcat(a: seq<Bar>, b: seq<Bar>, side: TradeSide)
    ensures TotalSide(a + b, side) == TotalSide(a, side) + TotalSide(b, side)
  {
    hide SideVolume;
    if b == [] {
      assert a + b == a;
    } else {
      TotalSideConcat(a, b[..|b|-1], side);
      assert (a + b)[..|a + b|-1] == a + b[..|b|-1];
    }
  }

  /** Signed volume is buys less sells, and prices lie in the bar's range. */
  predicate Coherent(b: Bar)
  {
    && b.signedVolume == b.buyVolume - b.sellVolume
    && b.lowPx <= b.openPx <= b.highPx && b.lowPx <= b.closePx <= b.highPx
  }

  predicate AllCoherent(bars: seq<Bar>, acc: Option<Bar>)
  {
    (forall b <- bars :: Coherent(b)) && (acc.Some? ==> Coherent(acc.value))
  }

  lemma FilledConserves(acc: Option<Bar>, t: Trade, fill: real, side: TradeSide)
    requires AllCoherent([], acc)
    ensures var bar := Filled(Started(acc, t), t, fill);
            && SideVolume(bar, side) == PartialSide(acc, side) + (if t.side == side then fill else 0.0)
            && Coherent(bar) && TotalSide([bar], side) == SideVolume(bar, side)
  {
    assert [Filled(Started(acc, t), t, fill)][..0] == [];
  }

  /** What goes into a trade's bars is the trade, on its own side only. */
  lemma {:induction false} AbsorbConserves(threshold: real, acc: Option<Bar>, t: Trade, remaining: real, side: TradeSide)
    requires threshold > 0.0 && Partial(threshold, acc) && remaining >= 0.0 && AllCoherent([], acc)
    ensures var (bars, rest) := Absorb(threshold, acc, t, remaining);
            && TotalSide(bars, side) + PartialSide(rest, side) == PartialSide(acc, side) + (if t.side == side then remaining else 0.0)
            && AllCoherent(bars, rest)
    decreases BarsDue(threshold, acc, remaining), remaining > 0.0
  {
    hide Filled, SideVolume, Coherent, Holds;
    if remaining > 0.0 {
      var b := Started(acc, t);
      var capacity := threshold - b.volume;
      if remaining >= capacity {
        FloorDrops(Volume(acc) + remaining, threshold);
        AbsorbConserves(threshold, None, t, remaining - capacity, side);
        var bars := Absorb(threshold, None, t, remaining - capacity).0;
        FilledConserves(acc, t, capacity, side);
        TotalSideConcat([Filled(b, t, capacity)], bars, side);
      } else {
        FilledConserves(acc, t, remaining, side);
      }
    }
  }

  /** All bars and the partial after a sequence of trades; non-positive sizes
      are ignored. */
  function BarsOf(threshold: real, trades: seq<Trade>): (r: (seq<Bar>, Option<Bar>))
    requires threshold > 0.0
    ensures Partial(threshold, r.1)
  {
    if trades == [] then ([], None) else
      var t := trades[|trades|-1];
      var (bars, acc) := BarsOf(threshold, trades[..|trades|-1]);
      if t.size <= 0.0 then (bars, acc) else
        var (more, rest) := Absorb(threshold, acc, t, t.size);
        (bars + more, rest)
  }

  /** Positive traded size, of one side or (None) of all. */
  function Traded(trades: seq<Trade>, side: Option<TradeSide>): real
  {
    if trades == [] then 0.0 else
      var t := trades[|trades|-1];
      Traded(trades[..|trades|-1], side) + if t.size > 0.0 && (side.None? || side.value == t.side) then t.size else 0.0
  }

  /** Over any trades: every bar holds exactly the threshold, there are as many
      bars as the threshold fits into the traded size, and bars plus partial
      conserve the traded size of each side. */
  lemma {:induction false} BarsConserve(threshold: real, trades: seq<Trade>, side: TradeSide)
    requires threshold > 0.0
    ensures var (bars, acc) := BarsOf(threshold, trades);
            && (forall b <- bars :: b.volume == threshold)
            && |bars| == (Traded(trades, None) / threshold).Floor
            && Holds(threshold, |bars|, Volume(acc), Traded(trades, None))
            && TotalSide(bars, side) + PartialSide(acc, side) == Traded(trades, Some(side))
            && AllCoherent(bars, acc)
  {
    hide Absorb, SideVolume, Coherent, Holds;
    if trades == [] {
      HoldsOnly(threshold, 0.0);
    } else {
      var t := trades[|trades|-1];
      var before := trades[..|trades|-1];
      BarsConserve(threshold, before, side);
      var (bars, acc) := BarsOf(threshold, before);
      if t.size > 0.0 {
        var (more, rest) := Absorb(threshold, acc, t, t.size);
        AbsorbConserves(threshold, acc, t, t.size, side);
        TotalSideConcat(bars, more, side);
        HoldsMore(threshold, |bars|, |more|, Volume(acc), Volume(rest), Traded(before, None), t.size);
      }
    }
    var (bars, acc) := BarsOf(threshold, trades);
    HoldsCounts(threshold, |bars|, Volume(acc), Traded(trades, None));
  }

  lemma HoldsMore(threshold: real, n: nat, m: nat, mid: real, rest: real, total: real, more: real)
    requires Holds(threshold, n, mid, total) && Holds(threshold, m, rest, mid + more)
    ensures Holds(threshold, n + m, rest, total + more)
  {
    assert (n + m) as real * threshold == n as real * threshold + m as real * threshold;
  }

  lemma HoldsCounts(threshold: real, n: nat, rest: real, total: real)
    requires threshold > 0.0 && 0.0 <= rest < threshold && Holds(threshold, n, rest, total)
    ensures n == (total / threshold).Floor
  {
    UniqueQuotient(threshold, n, rest, total);
  }

  // ------------------------------------------------------------- cutting trades

  /** A bar up to the number of trades that made it. */
  function Uncounted(b: Bar): Bar { b.(tradeCount := 0) }

  function AllUncounted(bars: seq<Bar>): (r: seq<Bar>)
    ensures |r| == |bars|
  {
    seq(|bars|, i requires 0 <= i < |bars| => Uncounted(bars[i]))
  }

  predicate SameButCount(a: Option<Bar>, b: Option<Bar>)
  {
    (a.Some? <==> b.Some?) && (a.Some? ==> Uncounted(a.value) == Uncounted(b.value))
  }

  predicate SameBars(a: (seq<Bar>, Option<Bar>), b: (seq<Bar>, Option<Bar>))
  {
    AllUncounted(a.0) == AllUncounted(b.0) && SameButCount(a.1, b.1)
  }

  /** The trade count feeds into nothing else. */
  lemma {:induction false} CountIsInert(threshold: real, a: Option<Bar>, b: Option<Bar>, t: Trade, remaining: real)
    requires threshold > 0.0 && Partial(threshold, a) && Partial(threshold, b) && remaining >= 0.0 && SameButCount(a, b)
    ensures SameBars(Absorb(threshold, a, t, remaining), Absorb(threshold, b, t, remaining))
  {
  }

  function Capacity(threshold: real, acc: Option<Bar>): real { threshold - Volume(acc) }

  lemma AbsorbFits(threshold: real, acc: Option<Bar>, t: Trade, size: real)
    requires threshold > 0.0 && Partial(threshold, acc) && 0.0 < size < Capacity(threshold, acc)
    ensures Absorb(threshold, acc, t, size) == ([], Some(Filled(Started(acc, t), t, size)))
  {
  }

  lemma AbsorbCompletes(threshold: real, acc: Option<Bar>, t: Trade, size: real)
    requires threshold > 0.0 && Partial(threshold, acc) && size >= Capacity(threshold, acc)
    ensures var capacity := Capacity(threshold, acc);
            var (bars, rest) := Absorb(threshold, None, t, size - capacity);
            Absorb(threshold, acc, t, size) == ([Filled(Started(acc, t), t, capacity)] + bars, rest)
  {
  }

  lemma FilledTwice(b: Bar, t: Trade, x: real, y: real)
    ensures Uncounted(Filled(Filled(b, t, x), t, y)) == Uncounted(Filled(b, t, x + y))
  {
  }

  /** Absorbing a trade in two consecutive cuts is absorbing it whole. */
  lemma {:induction false} CutInTwo(threshold: real, acc: Option<Bar>, t: Trade, first: real, second: real)
    requires threshold > 0.0 && Partial(threshold, acc) && first > 0.0 && second > 0.0
    ensures var (bars1, acc1) := Absorb(threshold, acc, t, first);
            var (bars2, acc2) := Absorb(threshold, acc1, t, second);
            SameBars(Absorb(threshold, acc, t, first + second), (bars1 + bars2, acc2))
    decreases BarsDue(threshold, acc, first)
  {
    var capacity := Capacity(threshold, acc);
    if first < capacity {
      CutInsideBar(threshold, acc, t, first, second);
    } else {
      if first > capacity {
        FloorDrops(Volume(acc) + first, threshold);
        CutInTwo(threshold, None, t, first - capacity, second);
      } else {
        NothingLeft(threshold, t);
      }
      CutAfterBar(threshold, acc, t, first, second);
    }
  }

  lemma NothingLeft(threshold: real, t: Trade)
    requires threshold > 0.0
    ensures Absorb(threshold, None, t, 0.0) == ([], None)
  {
  }

  lemma CutInsideBar(threshold: real, acc: Option<Bar>, t: Trade, first: real, second: real)
    requires threshold > 0.0 && Partial(threshold, acc) && 0.0 < first < Capacity(threshold, acc) && second > 0.0
    ensures var (bars1, acc1) := Absorb(threshold, acc, t, first);
            var (bars2, acc2) := Absorb(threshold, acc1, t, second);
            SameBars(Absorb(threshold, acc, t, first + second), (bars1 + bars2, acc2))
  {
    var capacity := Capacity(threshold, acc);
    var b := Started(acc, t);
    var part := Filled(b, t, first);
    AbsorbFits(threshold, acc, t, first);
    if second >= capacity - first {
      AbsorbCompletes(threshold, acc, t, first + second);
      AbsorbCompletes(threshold, Some(part), t, second);
      assert first + second - capacity == second - (capacity - first);
      FilledTwice(b, t, first, capacity - first);
      var (bars, rest) := Absorb(threshold, None, t, first + second - capacity);
      UncountedHead(Filled(b, t, capacity), Filled(part, t, capacity - first), bars);
    } else {
      AbsorbFits(threshold, acc, t, first + second);
      AbsorbFits(threshold, Some(part), t, second);
      FilledTwice(b, t, first, second);
    }
  }

  lemma UncountedHead(a: Bar, b: Bar, bars: seq<Bar>)
    requires Uncounted(a) == Uncounted(b)
    ensures AllUncounted([a] + bars) == AllUncounted([b] + bars)
  {
  }

  lemma CutAfterBar(threshold: real, acc: Option<Bar>, t: Trade, first: real, second: real)
    requires threshold > 0.0 && Partial(threshold, acc) && first >= Capacity(threshold, acc) && second > 0.0
    requires var left := first - Capacity(threshold, acc);
             var (bars1, acc1) := Absorb(threshold, None, t, left);
             var (bars2, acc2) := Absorb(threshold, acc1, t, second);
             SameBars(Absorb(threshold, None, t, left + second), (bars1 + bars2, acc2))
    ensures var (bars1, acc1) := Absorb(threshold, acc, t, first);
            var (bars2, acc2) := Absorb(threshold, acc1, t, second);
            SameBars(Absorb(threshold, acc, t, first + second), (bars1 + bars2, acc2))
  {
    var capacity := Capacity(threshold, acc);
    var left := first - capacity;
    AbsorbCompletes(threshold, acc, t, first);
    AbsorbCompletes(threshold, acc, t, first + second);
    assert first + second - capacity == left + second;
    hide Absorb;
    var done := Filled(Started(acc, t), t, capacity);
    var (bars1, acc1) := Absorb(threshold, None, t, left);
    var (bars2, acc2) := Absorb(threshold, acc1, t, second);
    var whole := Absorb(threshold, None, t, left + second);
    assert ([done] + bars1) + bars2 == [done] + (bars1 + bars2);
    UncountedPrepend(done, whole.0, bars1 + bars2);
  }

  lemma UncountedPrepend(b: Bar, xs: seq<Bar>, ys: seq<Bar>)
    requires AllUncounted(xs) == AllUncounted(ys)
    ensures AllUncounted([b] + xs) == AllUncounted([b] + ys)
  {
    assert forall i | 0 <= i < |xs| :: Uncounted(xs[i]) == AllUncounted(xs)[i] == AllUncounted(ys)[i] == Uncounted(ys[i]);
  }

  /** The consecutive cuts of one trade: same price, side and time. */
  function AbsorbCuts(threshold: real, acc: Option<Bar>, t: Trade, cuts: seq<real>): (r: (seq<Bar>, Option<Bar>))
    requires threshold > 0.0 && Partial(threshold, acc) && forall i | 0 <= i < |cuts| :: cuts[i] > 0.0
    ensures Partial(threshold, r.1)
  {
    if cuts == [] then ([], acc) else
      var n := |cuts| - 1;
      var (bars, mid) := AbsorbCuts(threshold, acc, t, cuts[..n]);
      var (more, rest) := Absorb(threshold, mid, t, cuts[n]);
      (bars + more, rest)
  }

  /** Cutting one trade into any consecutive pieces gives the same bars and the
      same partial, but for the trade counts. */
  lemma {:induction false} CutsAreInvisible(threshold: real, acc: Option<Bar>, t: Trade, cuts: seq<real>)
    requires threshold > 0.0 && Partial(threshold, acc) && forall i | 0 <= i < |cuts| :: cuts[i] > 0.0
    ensures Sum(cuts) >= 0.0 && (cuts != [] ==> Sum(cuts) > 0.0)
    ensures SameBars(Absorb(threshold, acc, t, Sum(cuts)), AbsorbCuts(threshold, acc, t, cuts))
  {
    hide SameBars;
    if cuts == [] {
      NothingAbsorbed(threshold, acc, t);
    } else {
      var n := |cuts| - 1;
      CutsAreInvisible(threshold, acc, t, cuts[..n]);
      if n == 0 {
        assert cuts[..0] == [];
        SameBarsRefl(Absorb(threshold, acc, t, cuts[0]));
      } else {
        hide Absorb;
        var first := Sum(cuts[..n]);
        var whole := Absorb(threshold, acc, t, first);
        var pieces := AbsorbCuts(threshold, acc, t, cuts[..n]);
        CutInTwo(threshold, acc, t, first, cuts[n]);
        SameBarsParts(whole, pieces);
        CountIsInert(threshold, whole.1, pieces.1, t, cuts[n]);
        SameBarsJoin(whole, pieces, Absorb(threshold, whole.1, t, cuts[n]), Absorb(threshold, pieces.1, t, cuts[n]),
                     Absorb(threshold, acc, t, first + cuts[n]));
      }
    }
  }

  lemma NothingAbsorbed(threshold: real, acc: Option<Bar>, t: Trade)
    requires threshold > 0.0 && Partial(threshold, acc)
    ensures Absorb(threshold, acc, t, 0.0) == ([], acc) && SameBars(([], acc), ([], acc))
  {
  }

  lemma SameBarsRefl(a: (seq<Bar>, Option<Bar>))
    ensures SameBars(a, a) && SameBars(a, ([] + a.0, a.1))
  {
    assert [] + a.0 == a.0;
  }

  lemma SameBarsParts(a: (seq<Bar>, Option<Bar>), b: (seq<Bar>, Option<Bar>))
    requires SameBars(a, b)
    ensures SameButCount(a.1, b.1)
  {
  }

  lemma SameBarsJoin(a: (seq<Bar>, Option<Bar>), b: (seq<Bar>, Option<Bar>), c: (seq<Bar>, Option<Bar>), d: (seq<Bar>, Option<Bar>),
                     whole: (seq<Bar>, Option<Bar>))
    requires SameBars(a, b) && SameBars(c, d) && SameBars(whole, (a.0 + c.0, c.1))
    ensures SameBars(whole, (b.0 + d.0, d.1))
  {
    assert AllUncounted(a.0 + c.0) == AllUncounted(a.0) + AllUncounted(c.0);
    assert AllUncounted(b.0 + d.0) == AllUncounted(b.0) + AllUncounted(d.0);
  }

  // ------------------------------------------------------------- the object

  function After(bars: seq<Bar>, r: (seq<Bar>, Option<Bar>)): (seq<Bar>, Option<Bar>) { (bars + r.0, r.1) }

  lemma EmptyPrefix(r: (seq<Bar>, Option<Bar>))
    ensures After([], r) == r
  {
    assert [] + r.0 == r.0;
  }

  lemma Regroup(a: seq<Bar>, b: seq<Bar>, r: (seq<Bar>, Option<Bar>))
    ensures After(a, After(b, r)) == After(a + b, r)
  {
    assert a + (b + r.0) == (a + b) + r.0;
  }

  /** What one pass of the fill loop leaves behind. */
  predicate OnePass(threshold: real, acc: Option<Bar>, t: Trade, remaining: real, fill: real, done: seq<Bar>, acc': Option<Bar>)
  {
    var b, capacity := Started(acc, t), Capacity(threshold, acc);
    if remaining < capacity then fill == remaining && done == [] && acc' == Some(Filled(b, t, remaining))
    else fill == capacity && done == [Filled(b, t, capacity)] && acc' == None
  }

  /** A pass gets nearer the end without changing it. */
  lemma FillProgress(threshold: real, acc: Option<Bar>, t: Trade, remaining: real, fill: real, done: seq<Bar>, acc': Option<Bar>)
    requires threshold > 0.0 && Partial(threshold, acc) && remaining > 0.0
    requires OnePass(threshold, acc, t, remaining, fill, done, acc')
    ensures Partial(threshold, acc') && remaining - fill >= 0.0
    ensures Absorb(threshold, acc, t, remaining) == After(done, Absorb(threshold, acc', t, remaining - fill))
    ensures BarsDue(threshold, acc', remaining - fill) < BarsDue(threshold, acc, remaining)
            || (BarsDue(threshold, acc', remaining - fill) == BarsDue(threshold, acc, remaining) && remaining - fill == 0.0)
  {
    var capacity := Capacity(threshold, acc);
    if remaining < capacity {
      AbsorbFits(threshold, acc, t, remaining);
      NothingAbsorbed(threshold, acc', t);
      EmptyPrefix(([], acc'));
    } else {
      AbsorbCompletes(threshold, acc, t, remaining);
      FloorDrops(Volume(acc) + remaining, threshold);
    }
  }

  class VolumeBarAggregator {
    const threshold: real
    var acc: Option<Bar>
    ghost var trades: seq<Trade>
    ghost var completedBars: seq<Bar>

    ghost predicate Valid()
      reads this
    {
      threshold > 0.0 && (completedBars, acc) == BarsOf(threshold, trades)
    }

    constructor (threshold: real)
      requires threshold > 0.0
      ensures Valid() && this.threshold == threshold && trades == [] && completedBars == [] && acc == None
    {
      this.threshold, acc, trades, completedBars := threshold, None, [], [];
    }

    /** The bars completed by one trade. */
    method Update(px: real, size: real, side: TradeSide, ts: Instant) returns (completed: seq<Bar>)
      requires Valid()
      modifies this
      ensures Valid() && trades == old(trades) + [Trade(px, size, side, ts)]
      ensures completedBars == old(completedBars) + completed
      ensures Partial(threshold, old(acc))
      ensures (completed, acc) == if size <= 0.0 then ([], old(acc)) else Absorb(threshold, old(acc), Trade(px, size, side, ts), size)
    {
      hide Absorb, TradeSign;
      completed := [];
      ghost var t := Trade(px, size, side, ts);
      trades := trades + [t];
      assert trades[..|trades|-1] == old(trades);
      if size <= 0.0 { return; }
      completed := Consume(px, size, side, ts);
      completedBars := completedBars + completed;
    }

    method Consume(px: real, size: real, side: TradeSide, ts: Instant) returns (completed: seq<Bar>)
      requires threshold > 0.0 && Partial(threshold, acc) && size > 0.0
      modifies this`acc
      ensures Partial(threshold, acc)
      ensures (completed, acc) == Absorb(threshold, old(acc), Trade(px, size, side, ts), size)
    {
      hide Absorb, BarsDue;
      completed := [];
      ghost var t := Trade(px, size, side, ts);
      var remaining := size;
      EmptyPrefix(Absorb(threshold, acc, t, remaining));
      while remaining > 0.0
        invariant Partial(threshold, acc) && 0.0 <= remaining
        invariant Absorb(threshold, old(acc), t, size) == After(completed, Absorb(threshold, acc, t, remaining))
        decreases BarsDue(threshold, acc, remaining), remaining > 0.0
      {
        ghost var before, left := acc, remaining;
        var fill, done := FillOnce(px, side, ts, remaining);
        remaining := remaining - fill;
        FillProgress(threshold, before, t, left, fill, done, acc);
        Regroup(completed, done, Absorb(threshold, acc, t, remaining));
        completed := completed + done;
      }
      NothingAbsorbed(threshold, acc, t);
      assert completed + [] == completed;
    }

    /** One pass of the loop: `done` is the bar it closed, if it closed one. */
    method FillOnce(px: real, side: TradeSide, ts: Instant, remaining: real) returns (fill: real, done: seq<Bar>)
      requires threshold > 0.0 && Partial(threshold, acc) && remaining > 0.0
      modifies this`acc
      ensures forall size :: OnePass(threshold, old(acc), Trade(px, size, side, ts), remaining, fill, done, acc)
    {
      var bar := match acc case Some(b) => b case None => Bar(px, px, px, px, 0.0, 0.0, 0.0, 0.0, 0, ts, ts);
      var capacity := threshold - bar.volume;
      fill := if remaining < capacity then remaining else capacity;
      bar := FillBar(bar, px, side, ts, fill);
      if bar.volume >= threshold {
        done, acc := [bar], None;
      } else {
        done, acc := [], Some(bar);
      }
    }

    static method FillBar(b: Bar, px: real, side: TradeSide, ts: Instant, fill: real) returns (bar: Bar)
      ensures forall size :: bar == Filled(b, Trade(px, size, side, ts), fill)
    {
      var sign := TradeSign(side);
      bar := b.(highPx := RMax(b.highPx, px), lowPx := RMin(b.lowPx, px), closePx := px, closeTs := ts,
                volume := b.volume + fill, tradeCount := b.tradeCount + 1);
      if sign > 0 {
        bar := bar.(buyVolume := b.buyVolume + fill, signedVolume := b.signedVolume + fill);
      } else if sign < 0 {
        bar := bar.(sellVolume := b.sellVolume + fill, signedVolume := b.signedVolume - fill);
      }
    }
  }
}
