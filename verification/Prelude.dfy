/** Vocabulary shared by every component: sides, coins, optional values and
    exact-real arithmetic.  Coins are the already normalised (stripped, upper
    case) keys of the source; `Instant` is a wall-clock time in seconds. */
module Prelude {

  datatype Option<+T> = None | Some(value: T)

  datatype Side = Long | Short

  type Coin(==, !new)

  type Instant = real

  const BPS: real := 10000.0

  function RMax(a: real, b: real): real { if a >= b then a else b }

  function RMin(a: real, b: real): real { if a <= b then a else b }

  function RAbs(a: real): real { if a < 0.0 then -a else a }

  /** `max(lo, min(hi, x))`, the clamp idiom of the source. */
  function Clamp(lo: real, hi: real, x: real): real { RMax(lo, RMin(hi, x)) }

  /** +1 for a long, -1 for a short: the sign of a favourable price move. */
  function Sign(side: Side): real { if side == Long then 1.0 else -1.0 }

  /** Sum of a sequence, by its last element: the order in which streaming
      code meets the values. */
  function Sum(xs: seq<real>): real
  {
    if xs == [] then 0.0 else Sum(xs[..|xs|-1]) + xs[|xs|-1]
  }

  lemma SumAppend(xs: seq<real>, x: real)
    ensures Sum(xs + [x]) == Sum(xs) + x
  {
    assert (xs + [x])[..|xs|] == xs;
  }

  lemma {:induction false} SumConcat(xs: seq<real>, ys: seq<real>)
    ensures Sum(xs + ys) == Sum(xs) + Sum(ys)
  {
    if ys == [] {
      assert xs + ys == xs;
    } else {
      var init, last := ys[..|ys|-1], ys[|ys|-1];
      SumConcat(xs, init);
      SumAppend(xs + init, last);
      assert xs + ys == (xs + init) + [last];
    }
  }
}
