/** src/strategy/microstructure/flow_imbalance.py: order flow of the last
    `window` trades. */
module FlowImbalance {
  import opened Prelude
  import opened RollingStatistics

  /** The aggressor side as reported; anything unrecognised counts for neither. */
  datatype TradeSide = Buy | Sell | Unknown

  function TradeSign(side: TradeSide): int
  {
    match side case Buy => 1 case Sell => -1 case Unknown => 0
  }

  datatype Flow = Flow(side: TradeSide, size: real)

  function BuyAmount(f: Flow): real { if TradeSign(f.side) > 0 then f.size else 0.0 }

  function SellAmount(f: Flow): real { if TradeSign(f.side) < 0 then f.size else 0.0 }

  function Buys(fs: seq<Flow>): (r: seq<real>)
    ensures |r| == |fs| && forall i | 0 <= i < |fs| :: r[i] == BuyAmount(fs[i])
  {
    seq(|fs|, i requires 0 <= i < |fs| => BuyAmount(fs[i]))
  }

  function Sells(fs: seq<Flow>): (r: seq<real>)
    ensures |r| == |fs| && forall i | 0 <= i < |fs| :: r[i] == SellAmount(fs[i])
  {
    seq(|fs|, i requires 0 <= i < |fs| => SellAmount(fs[i]))
  }

  function Normalised(buyVolume: real, sellVolume: real): real
  {
    var total := buyVolume + sellVolume;
    if total <= 0.0 then 0.0 else (buyVolume - sellVolume) / total
  }

  /** Imbalance of a batch of trades, from its definition. */
  function ImbalanceOf(fs: seq<Flow>): real
  {
    Normalised(Sum(Buys(fs)), Sum(Sells(fs)))
  }

  lemma {:induction false} SumIsNonNegative(xs: seq<real>)
    requires forall i | 0 <= i < |xs| :: xs[i] >= 0.0
    ensures Sum(xs) >= 0.0
  {
    if xs != [] { SumIsNonNegative(xs[..|xs|-1]); }
  }

  /** Non-negative sizes keep the imbalance in [-1, 1]; it is +1 or -1 when all
      known flow is on one side. */
  lemma ImbalanceIsBounded(fs: seq<Flow>)
    requires forall f <- fs :: f.size >= 0.0
    ensures -1.0 <= ImbalanceOf(fs) <= 1.0
    ensures Sum(Buys(fs)) > 0.0 && Sum(Sells(fs)) == 0.0 ==> ImbalanceOf(fs) == 1.0
    ensures Sum(Sells(fs)) > 0.0 && Sum(Buys(fs)) == 0.0 ==> ImbalanceOf(fs) == -1.0
  {
    SumIsNonNegative(Buys(fs));
    SumIsNonNegative(Sells(fs));
    NormalisedIsBounded(Sum(Buys(fs)), Sum(Sells(fs)));
  }

  lemma NormalisedIsBounded(b: real, s: real)
    requires b >= 0.0 && s >= 0.0
    ensures -1.0 <= Normalised(b, s) <= 1.0
  {
    if b + s > 0.0 {
      assert (b - s) / (b + s) <= (b + s) / (b + s);
      assert (b - s) / (b + s) >= -(b + s) / (b + s);
    }
  }

  lemma AmountsAppend(fs: seq<Flow>, f: Flow, window: nat)
    requires window >= 1
    ensures var w := LastN(fs, window);
            var kept := if |w| == window then w[1..] else w;
            && Buys(LastN(fs + [f], window)) == Buys(kept) + [BuyAmount(f)]
            && Sells(LastN(fs + [f], window)) == Sells(kept) + [SellAmount(f)]
            && (|w| == window ==> Buys(kept) == Buys(w)[1..] && Sells(kept) == Sells(w)[1..])
  {
    LastNAppend(fs, f, window);
  }

  class FlowImbalanceTracker {
    const window: nat
    var buys: seq<real>
    var sells: seq<real>
    var buySum: real
    var sellSum: real
    ghost var history: seq<Flow>

    /** Deques and sums are those of the last `window` trades of the history. */
    ghost predicate Valid()
      reads this
    {
      && window >= 1
      && buys == Buys(LastN(history, window)) && sells == Sells(LastN(history, window))
      && buySum == Sum(buys) && sellSum == Sum(sells)
    }

    constructor (window: nat)
      requires window >= 1
      ensures Valid() && history == [] && this.window == window
    {
      this.window, history := window, [];
      buys, sells, buySum, sellSum := [], [], 0.0, 0.0;
    }

    method Update(side: TradeSide, size: real)
      requires Valid()
      modifies this
      ensures Valid() && history == old(history) + [Flow(side, size)]
    {
      hide Sum, Buys, Sells, LastN;
      var sign := TradeSign(side);
      var buyAmt := if sign > 0 then size else 0.0;
      var sellAmt := if sign < 0 then size else 0.0;
      AmountsAppend(history, Flow(side, size), window);
      if |buys| == window {
        SumDrop(buys);
        SumDrop(sells);
        buySum, sellSum := buySum - buys[0], sellSum - sells[0];
        buys, sells := buys[1..], sells[1..];
      }
      SumAppend(buys, buyAmt);
      SumAppend(sells, sellAmt);
      buys, sells := buys + [buyAmt], sells + [sellAmt];
      buySum, sellSum := buySum + buyAmt, sellSum + sellAmt;
      history := history + [Flow(side, size)];
    }

    function Imbalance(): (r: real)
      requires Valid()
      reads this
      ensures r == ImbalanceOf(LastN(history, window))
    {
      Normalised(buySum, sellSum)
    }
  }
}
