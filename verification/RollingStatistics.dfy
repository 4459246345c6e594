/** src/strategy/microstructure/rolling_stats.py: running means and variances,
    against their definitions over the whole history. */
module RollingStatistics {
  import opened Prelude

  // ------------------------------------------------------------- definitions

  /** The last `window` values of a history. */
  function LastN<T>(xs: seq<T>, window: nat): (r: seq<T>)
    ensures |r| == if |xs| <= window then |xs| else window
  {
    if |xs| <= window then xs else xs[|xs| - window..]
  }

  lemma LastNAppend<T>(xs: seq<T>, x: T, window: nat)
    requires window >= 1
    ensures LastN(xs + [x], window) ==
            (if |LastN(xs, window)| == window then LastN(xs, window)[1..] else LastN(xs, window)) + [x]
  {
  }

  function Mean(xs: seq<real>): real
  {
    if xs == [] then 0.0 else Sum(xs) / |xs| as real
  }

  function Square(x: real): real { x * x }

  function Squares(xs: seq<real>): (r: seq<real>)
    ensures |r| == |xs|
  {
    if xs == [] then [] else Squares(xs[..|xs|-1]) + [Square(xs[|xs|-1])]
  }

  /** Sum of squared deviations from `m`: the second pass. */
  function SquaredDeviations(xs: seq<real>, m: real): real
  {
    if xs == [] then 0.0 else
      SquaredDeviations(xs[..|xs|-1], m) + Square(xs[|xs|-1] - m)
  }

  /** Two-pass sample variance (ddof = 1). */
  function SampleVariance(xs: seq<real>): real
  {
    if |xs| < 2 then 0.0 else SquaredDeviations(xs, Mean(xs)) / (|xs| - 1) as real
  }

  /** `root` is the square root, the one operation left to the platform. */
  function ZScore(root: real -> real, xs: seq<real>, value: real): real
  {
    var std := root(SampleVariance(xs));
    if std <= 0.0 then 0.0 else (value - Mean(xs)) / std
  }

  /** `z` says how many deviations `value` is from the window's mean, cut off at
      the clamp; nothing without two values that differ. */
  predicate ClampedScore(root: real -> real, window: seq<real>, value: real, clamp: real, z: real)
  {
    var sigma, off := root(SampleVariance(window)), value - Mean(window);
    && -clamp <= z <= clamp
    && (if |window| < 2 || sigma <= 0.0 then z == 0.0
        else (z > -clamp ==> z * sigma <= off) && (z < clamp ==> z * sigma >= off))
  }

  lemma ClampedScoreIs(root: real -> real, window: seq<real>, value: real, clamp: real)
    requires clamp >= 0.0
    ensures ClampedScore(root, window, value, clamp,
                         Clamp(-clamp, clamp, if |window| >= 2 then ZScore(root, window, value) else 0.0))
  {
    var sigma, off := root(SampleVariance(window)), value - Mean(window);
    hide SampleVariance, Mean;
    if sigma > 0.0 {
      var z := off / sigma;
      assert z * sigma == off;
      ProductsOrdered(z, clamp, sigma);
      ProductsOrdered(z, -clamp, sigma);
    }
  }

  lemma ProductsOrdered(x: real, y: real, e: real)
    requires e > 0.0
    ensures x <= y ==> x * e <= y * e
    ensures x >= y ==> x * e >= y * e
  {
  }

  lemma SquareIsNonNegative(x: real)
    ensures Square(x) >= 0.0
  {
  }

  lemma {:induction false} DeviationsAreNonNegative(xs: seq<real>, m: real)
    ensures SquaredDeviations(xs, m) >= 0.0
  {
    if xs != [] {
      DeviationsAreNonNegative(xs[..|xs|-1], m);
      SquareIsNonNegative(xs[|xs|-1] - m);
    }
  }

  /** The second pass in terms of running sums. */
  function Expansion(sum: real, sumSq: real, k: real, m: real): real
  {
    sumSq - 2.0 * m * sum + k * (m * m)
  }

  lemma {:induction false} DeviationsExpand(xs: seq<real>, m: real)
    ensures SquaredDeviations(xs, m) == Expansion(Sum(xs), Sum(Squares(xs)), |xs| as real, m)
  {
    hide Expansion;
    if xs == [] {
      ExpandEmpty(m);
    } else {
      hide *;
      var init, x := xs[..|xs|-1], xs[|xs|-1];
      assert xs == init + [x];
      DeviationsExpand(init, m);
      DeviationsAppend(init, x, m);
      SumAppend(init, x);
      SquaresAppend(init, x);
      ExpandStep(Sum(init), Sum(Squares(init)), |init| as real, m, x);
    }
  }

  lemma ExpandEmpty(m: real)
    ensures Expansion(0.0, 0.0, 0.0, m) == 0.0
  {
  }

  lemma ExpandStep(sum: real, sumSq: real, k: real, m: real, x: real)
    ensures Expansion(sum, sumSq, k, m) + Square(x - m) == Expansion(sum + x, sumSq + Square(x), k + 1.0, m)
  {
    assert (x - m) * (x - m) == x * x - 2.0 * m * x + m * m;
    assert 2.0 * m * (sum + x) == 2.0 * m * sum + 2.0 * m * x;
    assert (k + 1.0) * (m * m) == k * (m * m) + m * m;
  }

  /** Population variance from running sums. */
  function Population(sum: real, sumSq: real, n: nat): real
    requires n >= 1
  {
    var mean := sum / n as real;
    sumSq / n as real - mean * mean
  }

  /** Running sums give the population variance exactly, so it is never negative
      and the source's clamp at zero changes nothing. */
  lemma RunningSumsAreTwoPass(xs: seq<real>)
    requires xs != []
    ensures Population(Sum(xs), Sum(Squares(xs)), |xs|) == SquaredDeviations(xs, Mean(xs)) / |xs| as real >= 0.0
  {
    hide *;
    var n, mean := |xs| as real, Mean(xs);
    MeanTimes(xs);
    DeviationsExpand(xs, mean);
    DeviationsAreNonNegative(xs, mean);
    PopulationIs(Sum(xs), Sum(Squares(xs)), |xs|);
    PopulationAlgebra(n, mean, Sum(xs), Sum(Squares(xs)), SquaredDeviations(xs, mean));
  }

  lemma MeanTimes(xs: seq<real>)
    ensures Mean(xs) * |xs| as real == Sum(xs)
    ensures xs != [] ==> Mean(xs) == Sum(xs) / |xs| as real
  {
    if xs != [] { Cancel(Sum(xs), |xs| as real); }
  }

  lemma Cancel(x: real, n: real)
    requires n != 0.0
    ensures x / n * n == x
  {
  }

  lemma PopulationIs(sum: real, sumSq: real, n: nat)
    requires n >= 1
    ensures Population(sum, sumSq, n) == sumSq / n as real - sum / n as real * (sum / n as real)
  {
  }

  lemma PopulationAlgebra(n: real, mean: real, sum: real, sumSq: real, dev: real)
    requires n > 0.0 && mean * n == sum && dev == Expansion(sum, sumSq, n, mean) && dev >= 0.0
    ensures sumSq / n - mean * mean == dev / n && dev / n >= 0.0
  {
    var sq := mean * mean;
    assert mean * sum == sq * n;
    assert dev == sumSq - sq * n;
    assert (sumSq - sq * n) / n == sumSq / n - sq by { Cancel(sumSq, n); Cancel(sumSq - sq * n, n); }
  }

  /** The source's windowed formula: population variance from running sums,
      clamped at zero and rescaled to the sample variance. */
  function VarianceFromSums(sum: real, sumSq: real, n: nat): real
    requires n >= 2
  {
    RMax(Population(sum, sumSq, n), 0.0) * n as real / (n - 1) as real
  }

  lemma ClampedFormIsTwoPass(xs: seq<real>)
    requires |xs| >= 2
    ensures VarianceFromSums(Sum(xs), Sum(Squares(xs)), |xs|) == SampleVariance(xs)
  {
    assert SampleVariance(xs) == SquaredDeviations(xs, Mean(xs)) / (|xs| - 1) as real;
    hide Sum, Squares, SquaredDeviations, Mean, SampleVariance, Population, VarianceFromSums;
    RunningSumsAreTwoPass(xs);
    Rescale(Sum(xs), Sum(Squares(xs)), |xs|, SquaredDeviations(xs, Mean(xs)));
  }

  lemma Rescale(sum: real, sumSq: real, n: nat, dev: real)
    requires n >= 2
    requires Population(sum, sumSq, n) == dev / n as real >= 0.0
    ensures VarianceFromSums(sum, sumSq, n) == dev / (n - 1) as real
  {
    hide Population;
    var r := n as real;
    assert VarianceFromSums(sum, sumSq, n) == dev / r * r / (n - 1) as real;
    Cancel(dev, r);
  }

  // ------------------------------------------------------------- Welford

  class Welford {
    var count: nat
    var mean: real
    var m2: real
    ghost var history: seq<real>

    /** The accumulator is the two-pass definition over everything seen. */
    ghost predicate Valid()
      reads this
    {
      && count == |history|
      && mean == Mean(history)
      && m2 == SquaredDeviations(history, Mean(history))
    }

    constructor ()
      ensures Valid() && history == []
    {
      count, mean, m2, history := 0, 0.0, 0.0, [];
    }

    method Update(value: real)
      requires Valid()
      modifies this
      ensures Valid() && history == old(history) + [value]
    {
      WelfordStep(history, value);
      hide Mean, SquaredDeviations;
      count := count + 1;
      var delta := value - mean;
      mean := mean + delta / count as real;
      var delta2 := value - mean;
      m2 := m2 + delta * delta2;
      history := history + [value];
    }

    method Extend(values: seq<real>)
      requires Valid()
      modifies this
      ensures Valid() && history == old(history) + values
    {
      for i := 0 to |values|
        invariant Valid() && history == old(history) + values[..i]
      {
        Update(values[i]);
      }
      assert values[..|values|] == values;
    }

    function Variance(): (v: real)
      requires Valid()
      reads this
      ensures v == SampleVariance(history)
    {
      if count < 2 then 0.0 else m2 / (count - 1) as real
    }
  }

  /** One Welford step against the definitions. */
  lemma WelfordStep(xs: seq<real>, x: real)
    ensures var n := (|xs| + 1) as real;
            var delta := x - Mean(xs);
            var mean := Mean(xs) + delta / n;
            && Mean(xs + [x]) == mean
            && SquaredDeviations(xs + [x], mean) == SquaredDeviations(xs, Mean(xs)) + delta * (x - mean)
  {
    hide *;
    WelfordMean(xs, x);
    WelfordDeviations(xs, x);
  }

  lemma WelfordMean(xs: seq<real>, x: real)
    ensures Mean(xs + [x]) == Mean(xs) + (x - Mean(xs)) / (|xs| + 1) as real
  {
    hide *;
    var m, n := Mean(xs), (|xs| + 1) as real;
    Cancel(x - m, n);
    MeanTimes(xs);
    MeanTimes(xs + [x]);
    SumAppend(xs, x);
    MeanAlgebra(|xs| as real, m, (x - m) / n, x, Sum(xs));
  }

  lemma WelfordDeviations(xs: seq<real>, x: real)
    ensures var delta := x - Mean(xs);
            var mean := Mean(xs) + delta / (|xs| + 1) as real;
            SquaredDeviations(xs + [x], mean) == SquaredDeviations(xs, Mean(xs)) + delta * (x - mean)
  {
    hide *;
    var m, n := Mean(xs), (|xs| + 1) as real;
    var step := (x - m) / n;
    Cancel(x - m, n);
    MeanTimes(xs);
    DeviationsExpand(xs, m);
    DeviationsExpand(xs, m + step);
    DeviationsAppend(xs, x, m + step);
    ShiftAlgebra(|xs| as real, m, step, x, Sum(xs), Sum(Squares(xs)));
  }

  lemma DeviationsAppend(xs: seq<real>, x: real, m: real)
    ensures SquaredDeviations(xs + [x], m) == SquaredDeviations(xs, m) + Square(x - m)
  {
    var ys := xs + [x];
    assert ys[..|ys|-1] == xs && ys[|ys|-1] == x;
  }

  lemma MeanAlgebra(k: real, m: real, step: real, x: real, sum: real)
    requires k >= 0.0 && m * k == sum && step * (k + 1.0) == x - m
    ensures (sum + x) / (k + 1.0) == m + step
  {
    var n := k + 1.0;
    assert (m + step) * n == m * k + m + step * n;
    assert (m + step) * n / n == m + step;
  }

  /** Moving the centre off the mean by `step` adds k * step^2, which with the
      new value's own deviation is the increment delta * delta2. */
  lemma ShiftAlgebra(k: real, m: real, step: real, x: real, sum: real, sumSq: real)
    requires m * k == sum && step * (k + 1.0) == x - m
    ensures Expansion(sum, sumSq, k, m + step) + Square(x - (m + step)) == Expansion(sum, sumSq, k, m) + (x - m) * (x - (m + step))
  {
    var d, u := x - m, step * step;
    ShiftedCentre(k, m, step, sum);
    assert step * d == k * u + u by { assert step * (step * (k + 1.0)) == u * (k + 1.0); }
    var e := d - step;
    assert e * e == d * e - step * e;
    assert step * e == step * d - u;
  }

  lemma ShiftedCentre(k: real, m: real, step: real, sum: real)
    requires m * k == sum
    ensures k * ((m + step) * (m + step)) - 2.0 * (m + step) * sum == k * (m * m) - 2.0 * m * sum + k * (step * step)
  {
    var w := m * step;
    assert (m + step) * (m + step) == m * m + 2.0 * w + step * step;
    assert k * (m * m + 2.0 * w + step * step) == k * (m * m) + 2.0 * (k * w) + k * (step * step);
    assert k * w == step * sum;
    assert (m + step) * sum == m * sum + step * sum;
  }

  // ------------------------------------------------------------- RollingStats

  class RollingStats {
    const window: nat
    var values: seq<real>
    var sum: real
    var sumSq: real
    ghost var history: seq<real>

    /** The deque is the last `window` values, and the running sums are theirs. */
    ghost predicate Valid()
      reads this
    {
      && window >= 1
      && values == LastN(history, window)
      && sum == Sum(values)
      && sumSq == Sum(Squares(values))
    }

    constructor (window: nat)
      requires window >= 1
      ensures Valid() && history == [] && this.window == window
    {
      this.window, values, sum, sumSq, history := window, [], 0.0, 0.0, [];
    }

    method Update(value: real)
      requires Valid()
      modifies this
      ensures Valid() && history == old(history) + [value]
    {
      hide Sum, Squares, Square;
      LastNAppend(history, value, window);
      SumAppend(values, value);
      SquaresAppend(values, value);
      if |values| == window {
        var evicted := values[0];
        Evict(values, value);
        sum := sum - evicted;
        sumSq := sumSq - Square(evicted);
        values := values[1..];
      }
      values := values + [value];
      sum := sum + value;
      sumSq := sumSq + Square(value);
      history := history + [value];
    }

    lemma HoldsLastValues()
      requires Valid()
      ensures window >= 1 && values == LastN(history, window)
    {
    }

    function CurrentMean(): (m: real)
      requires Valid()
      reads this
      ensures m == Mean(LastN(history, window))
    {
      if values == [] then 0.0 else sum / |values| as real
    }

    function Variance(): (v: real)
      requires Valid()
      reads this
      ensures v == SampleVariance(LastN(history, window))
    {
      var n := |values|;
      if n < 2 then 0.0 else
        hide Sum, Squares, SampleVariance, VarianceFromSums;
        ClampedFormIsTwoPass(values);
        VarianceFromSums(sum, sumSq, n)
    }

    function Score(root: real -> real, value: real): (z: real)
      requires Valid()
      reads this
      ensures z == ZScore(root, LastN(history, window), value)
    {
      var std := root(Variance());
      if std <= 0.0 then 0.0 else (value - CurrentMean()) / std
    }
  }

  lemma SquaresAppend(xs: seq<real>, x: real)
    ensures Squares(xs + [x]) == Squares(xs) + [Square(x)]
    ensures Sum(Squares(xs + [x])) == Sum(Squares(xs)) + Square(x)
  {
    var ys := xs + [x];
    assert ys[..|ys|-1] == xs && ys[|ys|-1] == x;
    SumAppend(Squares(xs), Square(x));
  }

  lemma {:induction false} SquaresDrop(xs: seq<real>)
    requires xs != []
    ensures Squares(xs)[1..] == Squares(xs[1..]) && Squares(xs)[0] == Square(xs[0])
  {
    if |xs| > 1 {
      var init, x := xs[..|xs|-1], xs[|xs|-1];
      SquaresDrop(init);
      SquaresAppend(init, x);
      SquaresAppend(init[1..], x);
      assert xs == init + [x] && xs[1..] == init[1..] + [x];
    }
  }

  lemma SumDrop(xs: seq<real>)
    requires xs != []
    ensures Sum(xs[1..]) == Sum(xs) - xs[0]
  {
    assert xs == [xs[0]] + xs[1..];
    SumConcat([xs[0]], xs[1..]);
    assert [xs[0]][..0] == [];
  }

  /** Evicting the oldest and appending keeps both sums those of the window. */
  lemma Evict(xs: seq<real>, x: real)
    requires xs != []
    ensures Sum(xs[1..] + [x]) == Sum(xs) - xs[0] + x
    ensures Sum(Squares(xs[1..] + [x])) == Sum(Squares(xs)) - Square(xs[0]) + Square(x)
  {
    SumDrop(xs);
    SumAppend(xs[1..], x);
    SquaresDrop(xs);
    SumDrop(Squares(xs));
    SquaresAppend(xs[1..], x);
  }

  /** Until the first eviction the two trackers report one variance. */
  lemma AgreeUntilEviction(w: Welford, r: RollingStats)
    requires w.Valid() && r.Valid() && w.history == r.history && |r.history| <= r.window
    ensures w.Variance() == r.Variance() && w.mean == r.CurrentMean()
  {
  }
}
