/** What the prices of a bar are, said of the trades alone: bar k holds the
    traded size from k to k + 1 thresholds, and describes the trades with a
    share in it. */
module BarPrices {
  import opened Prelude
  import opened VolumeBars

  /** Positive size traded before trade `i`. */
  function Before(trades: seq<Trade>, i: nat): real
    requires i <= |trades|
  {
    Traded(trades[..i], None)
  }

  /** Trade `i` has volume between `lo` and `hi` of the traded size. */
  predicate In(trades: seq<Trade>, lo: real, hi: real, i: nat)
  {
    i < |trades| && trades[i].size > 0.0 && Before(trades, i) < hi && Before(trades, i + 1) > lo
  }

  function Members(trades: seq<Trade>, lo: real, hi: real): set<nat>
  {
    set i: nat | i < |trades| && In(trades, lo, hi, i)
  }

  /** Open and close are those of the first and last trade, high and low the
      extreme prices, and each trade counts once. */
  ghost predicate Spans(b: Bar, trades: seq<Trade>, lo: real, hi: real, first: nat, last: nat)
  {
    && In(trades, lo, hi, first) && In(trades, lo, hi, last)
    && (forall i: nat | In(trades, lo, hi, i) :: first <= i <= last && b.lowPx <= trades[i].px <= b.highPx)
    && b.openPx == trades[first].px && b.openTs == trades[first].ts
    && b.closePx == trades[last].px && b.closeTs == trades[last].ts
    && Attained(trades, lo, hi, b.lowPx) && Attained(trades, lo, hi, b.highPx)
    && b.tradeCount == |Members(trades, lo, hi)|
  }

  ghost predicate Attained(trades: seq<Trade>, lo: real, hi: real, px: real)
  {
    exists i: nat :: In(trades, lo, hi, i) && trades[i].px == px
  }

  ghost predicate Describes(b: Bar, trades: seq<Trade>, lo: real, hi: real)
  {
    exists first: nat, last: nat :: Spans(b, trades, lo, hi, first, last)
  }

  lemma BeforeStep(trades: seq<Trade>, i: nat)
    requires i < |trades|
    ensures Before(trades, i + 1) == Before(trades, i) + if trades[i].size > 0.0 then trades[i].size else 0.0
  {
    assert trades[..i + 1][..i] == trades[..i];
  }

  lemma {:induction false} BeforeGrows(trades: seq<Trade>, i: nat, j: nat)
    requires i <= j <= |trades|
    ensures Before(trades, i) <= Before(trades, j)
  {
    hide Before;
    if i < j {
      BeforeGrows(trades, i, j - 1);
      BeforeStep(trades, j - 1);
    }
  }

  /** Growing a range within trade `n` adds at most that trade. */
  lemma OnlyTheCurrent(trades: seq<Trade>, lo: real, hi: real, n: nat, i: nat)
    requires n < |trades| && Before(trades, n) <= hi <= Before(trades, n + 1)
    ensures i > n ==> !In(trades, lo, hi, i)
    ensures i < n ==> (In(trades, lo, hi, i) <==> In(trades, lo, Before(trades, n), i))
    ensures lo >= Before(trades, n) && i < n ==> !In(trades, lo, hi, i)
  {
    hide Before;
    if n < i < |trades| { BeforeGrows(trades, n + 1, i); }
    if i < n {
      BeforeGrows(trades, i + 1, n);
      BeforeStep(trades, i);
    }
  }

  /** The first fill of a new bar. */
  lemma FreshDescribes(trades: seq<Trade>, n: nat, lo: real, fill: real)
    requires n < |trades| && fill > 0.0 && trades[n].size > 0.0
    requires Before(trades, n) <= lo && lo + fill <= Before(trades, n + 1)
    ensures Describes(Filled(Started(None, trades[n]), trades[n], fill), trades, lo, lo + fill)
  {
    var hi := lo + fill;
    forall i: nat ensures In(trades, lo, hi, i) <==> i == n { OnlyTheCurrent(trades, lo, hi, n, i); }
    hide In, Before;
    assert Members(trades, lo, hi) == {n};
    assert Spans(Filled(Started(None, trades[n]), trades[n], fill), trades, lo, hi, n, n);
  }

  lemma OneMoreMember(trades: seq<Trade>, n: nat, lo: real, fill: real)
    requires n < |trades| && fill > 0.0 && trades[n].size > 0.0
    requires lo < Before(trades, n) && Before(trades, n) + fill <= Before(trades, n + 1)
    ensures var mid, hi := Before(trades, n), Before(trades, n) + fill;
            && (forall i: nat :: In(trades, lo, hi, i) <==> In(trades, lo, mid, i) || i == n)
            && (forall i: nat | In(trades, lo, mid, i) :: i < n)
            && |Members(trades, lo, hi)| == |Members(trades, lo, mid)| + 1
  {
    var mid, hi := Before(trades, n), Before(trades, n) + fill;
    forall i: nat ensures In(trades, lo, hi, i) <==> In(trades, lo, mid, i) || i == n
      ensures In(trades, lo, mid, i) ==> i < n
    {
      OnlyTheCurrent(trades, lo, hi, n, i);
      OnlyTheCurrent(trades, lo, mid, n, i);
    }
    hide Before;
    assert Members(trades, lo, hi) == Members(trades, lo, mid) + {n};
  }

  /** A further trade's share of a bar in progress. */
  lemma FillDescribes(b: Bar, trades: seq<Trade>, n: nat, lo: real, fill: real)
    requires n < |trades| && fill > 0.0 && trades[n].size > 0.0
    requires lo < Before(trades, n) && Before(trades, n) + fill <= Before(trades, n + 1)
    requires Describes(b, trades, lo, Before(trades, n))
    ensures Describes(Filled(b, trades[n], fill), trades, lo, Before(trades, n) + fill)
  {
    hide In, Before, Filled;
    var mid, hi := Before(trades, n), Before(trades, n) + fill;
    OneMoreMember(trades, n, lo, fill);
    var first, last :| Spans(b, trades, lo, mid, first, last);
    ExtremesMove(b, trades, n, lo, mid, hi, fill);
    LastMoves(b, trades[n], fill);
    assert Spans(Filled(b, trades[n], fill), trades, lo, hi, first, n);
  }

  lemma LastMoves(b: Bar, t: Trade, fill: real)
    ensures var c := Filled(b, t, fill);
            && c.openPx == b.openPx && c.openTs == b.openTs && c.closePx == t.px && c.closeTs == t.ts
            && c.lowPx <= b.lowPx && c.lowPx <= t.px && c.highPx >= b.highPx && c.highPx >= t.px
            && c.tradeCount == b.tradeCount + 1
  {
  }

  lemma ExtremesMove(b: Bar, trades: seq<Trade>, n: nat, lo: real, mid: real, hi: real, fill: real)
    requires n < |trades| && Attained(trades, lo, mid, b.lowPx) && Attained(trades, lo, mid, b.highPx)
    requires forall i: nat :: In(trades, lo, hi, i) <==> In(trades, lo, mid, i) || i == n
    ensures var c := Filled(b, trades[n], fill); Attained(trades, lo, hi, c.lowPx) && Attained(trades, lo, hi, c.highPx)
  {
    hide Before;
    var i: nat :| In(trades, lo, mid, i) && trades[i].px == b.lowPx;
    var j: nat :| In(trades, lo, mid, j) && trades[j].px == b.highPx;
    assert In(trades, lo, hi, i) && In(trades, lo, hi, j) && In(trades, lo, hi, n);
  }

  /** The traded size at which bar `k` begins. */
  function At(threshold: real, k: nat): real { k as real * threshold }

  lemma AtNext(threshold: real, k: nat)
    ensures At(threshold, k + 1) == At(threshold, k) + threshold
  {
  }

  ghost predicate AllDescribed(threshold: real, bars: seq<Bar>, trades: seq<Trade>, k: nat)
  {
    forall j | 0 <= j < |bars| :: Describes(bars[j], trades, At(threshold, k + j), At(threshold, k + j + 1))
  }

  lemma AllDescribedConcat(threshold: real, a: seq<Bar>, b: seq<Bar>, trades: seq<Trade>, k: nat)
    requires AllDescribed(threshold, a, trades, k) && AllDescribed(threshold, b, trades, k + |a|)
    ensures AllDescribed(threshold, a + b, trades, k)
  {
    hide Describes;
    forall j | 0 <= j < |a + b| ensures Describes((a + b)[j], trades, At(threshold, k + j), At(threshold, k + j + 1)) {
      if j >= |a| { assert Describes(b[j - |a|], trades, At(threshold, k + |a| + (j - |a|)), At(threshold, k + |a| + (j - |a|) + 1)); }
    }
  }

  /** `acc` is what bar `k` has so far, `remaining` of trade `n` not yet in a bar. */
  ghost predicate Midway(threshold: real, trades: seq<Trade>, n: nat, k: nat, acc: Option<Bar>, remaining: real)
  {
    && n < |trades| && trades[n].size > 0.0 && 0.0 <= remaining <= trades[n].size
    && Volume(acc) == Before(trades, n + 1) - remaining - At(threshold, k)
    && (acc.Some? ==> Describes(acc.value, trades, At(threshold, k), Before(trades, n + 1) - remaining))
    && (acc.Some? && remaining > 0.0 ==> remaining == trades[n].size)
  }

  lemma FilledIsDescribed(threshold: real, trades: seq<Trade>, n: nat, k: nat, acc: Option<Bar>, remaining: real, fill: real)
    requires threshold > 0.0 && Partial(threshold, acc) && Midway(threshold, trades, n, k, acc, remaining) && 0.0 < fill <= remaining
    ensures Describes(Filled(Started(acc, trades[n]), trades[n], fill), trades, At(threshold, k), At(threshold, k) + Volume(acc) + fill)
  {
    hide Before, Describes, At, Filled;
    BeforeStep(trades, n);
    if acc.Some? {
      FillDescribes(acc.value, trades, n, At(threshold, k), fill);
    } else {
      FreshDescribes(trades, n, At(threshold, k), fill);
    }
  }

  lemma {:induction false} AbsorbDescribes(threshold: real, trades: seq<Trade>, n: nat, k: nat, acc: Option<Bar>, remaining: real)
    requires threshold > 0.0 && Partial(threshold, acc) && remaining >= 0.0 && Midway(threshold, trades, n, k, acc, remaining)
    ensures var (bars, rest) := Absorb(threshold, acc, trades[n], remaining);
            && AllDescribed(threshold, bars, trades, k)
            && Midway(threshold, trades, n, k + |bars|, rest, 0.0)
    decreases BarsDue(threshold, acc, remaining), remaining > 0.0
  {
    hide Describes, Before, At, Filled;
    if remaining > 0.0 {
      var b := Started(acc, trades[n]);
      var capacity := threshold - b.volume;
      FilledIsDescribed(threshold, trades, n, k, acc, remaining, RMin(capacity, remaining));
      if remaining >= capacity {
        AtNext(threshold, k);
        FloorDrops(Volume(acc) + remaining, threshold);
        AbsorbDescribes(threshold, trades, n, k + 1, None, remaining - capacity);
        var bars := Absorb(threshold, None, trades[n], remaining - capacity).0;
        var done := Filled(b, trades[n], capacity);
        assert AllDescribed(threshold, [done], trades, k);
        AllDescribedConcat(threshold, [done], bars, trades, k);
      }
    }
  }

  /** Bars and bar in progress after the first `n` trades. */
  ghost predicate Described(threshold: real, trades: seq<Trade>, n: nat, r: (seq<Bar>, Option<Bar>))
    requires n <= |trades|
  {
    && AllDescribed(threshold, r.0, trades, 0)
    && (r.1.Some? ==> Describes(r.1.value, trades, At(threshold, |r.0|), Before(trades, n)))
  }

  lemma VolumeSoFar(threshold: real, trades: seq<Trade>, n: nat)
    requires threshold > 0.0 && n <= |trades|
    ensures var r := BarsOf(threshold, trades[..n]); Volume(r.1) == Before(trades, n) - At(threshold, |r.0|)
  {
    BarsConserve(threshold, trades[..n], FlowImbalance.Buy);
    hide BarsOf, Traded, SideVolume, AllCoherent;
  }

  lemma TradeDescribes(threshold: real, trades: seq<Trade>, n: nat, r: (seq<Bar>, Option<Bar>))
    requires threshold > 0.0 && n < |trades| && trades[n].size > 0.0 && Partial(threshold, r.1)
    requires Described(threshold, trades, n, r) && Volume(r.1) == Before(trades, n) - At(threshold, |r.0|)
    ensures var (more, rest) := Absorb(threshold, r.1, trades[n], trades[n].size);
            Described(threshold, trades, n + 1, (r.0 + more, rest))
  {
    hide Describes, At, Before, Absorb, AllDescribed, Traded;
    BeforeStep(trades, n);
    AbsorbDescribes(threshold, trades, n, |r.0|, r.1, trades[n].size);
    AllDescribedConcat(threshold, r.0, Absorb(threshold, r.1, trades[n], trades[n].size).0, trades, 0);
  }

  /** Over any trades: bar k is described by the trades between k and k + 1
      thresholds, the bar in progress by those after the last completed one. */
  lemma {:induction false} BarsDescribeTheirTrades(threshold: real, trades: seq<Trade>, n: nat)
    requires threshold > 0.0 && n <= |trades|
    ensures Described(threshold, trades, n, BarsOf(threshold, trades[..n]))
  {
    if n > 0 {
      var t := trades[n - 1];
      assert trades[..n][..n - 1] == trades[..n - 1];
      BarsDescribeTheirTrades(threshold, trades, n - 1);
      VolumeSoFar(threshold, trades, n - 1);
      BeforeStep(trades, n - 1);
      hide Describes, At, Before, Absorb, AllDescribed;
      if t.size > 0.0 { TradeDescribes(threshold, trades, n - 1, BarsOf(threshold, trades[..n - 1])); }
    }
  }

  /** So are the bars of the aggregator object, whatever it was fed. */
  lemma AggregatorDescribesItsTrades(a: VolumeBarAggregator)
    requires a.Valid()
    ensures Described(a.threshold, a.trades, |a.trades|, (a.completedBars, a.acc))
  {
    assert a.trades[..|a.trades|] == a.trades;
    BarsDescribeTheirTrades(a.threshold, a.trades, |a.trades|);
  }
}
