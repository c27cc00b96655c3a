/** The combination function: the left-to-right sum of each constituent
    model's forecast scaled by its weight. */
module Combination {
  import opened Weighting

  /** A forecast series, reduced to its values; all series combined together
      share the same timestamps. */
  type Series = seq<real>

  /** Predictions fit for combination with `w`: one per weight, at least one,
      all of the same length. */
  predicate Combinable(preds: seq<Series>, w: seq<real>) {
    && |preds| == |w| >= 1
    && forall i :: 0 <= i < |preds| ==> |preds[i]| == |preds[0]|
  }

  /** `ts * weight`: a series scaled by a weight. */
  function Scale(ts: Series, a: real): Series {
    seq(|ts|, t requires 0 <= t < |ts| => ts[t] * a)
  }

  /** `x + y` on two series with the same timestamps. */
  function Add(x: Series, y: Series): Series
    requires |x| == |y|
  {
    seq(|x|, t requires 0 <= t < |x| => x[t] + y[t])
  }

  /** The left fold `sum` performs over the scaled predictions; the leading
      `0 +` of Python's `sum` leaves the first term unchanged. */
  function Combine(preds: seq<Series>, w: seq<real>): (r: Series)
    requires Combinable(preds, w)
    ensures |r| == |preds[0]|
    decreases |preds|
  {
    var n := |preds|;
    var term := Scale(preds[n - 1], w[n - 1]);
    if n == 1 then term
    else Add(Combine(preds[..n - 1], w[..n - 1]), term)
  }

  /** The values of all predictions at timestamp `t`. */
  function Column(preds: seq<Series>, t: nat): (col: seq<real>)
    requires forall i :: 0 <= i < |preds| ==> t < |preds[i]|
    ensures |col| == |preds|
  {
    seq(|preds|, i requires 0 <= i < |preds| => preds[i][t])
  }

  /** `Σ_i w[i] * x[i]`, summed in model order. */
  function WeightedSum(w: seq<real>, x: seq<real>): real
    requires |w| == |x|
  {
    if w == [] then 0.0
    else WeightedSum(w[..|w| - 1], x[..|x| - 1]) + w[|w| - 1] * x[|x| - 1]
  }

  /** Pointwise reading of the combination: at every timestamp the combined
      forecast is the weighted sum of the models' forecasts there. */
  lemma {:induction false} CombineAt(preds: seq<Series>, w: seq<real>, t: nat)
    requires Combinable(preds, w)
    requires t < |preds[0]|
    ensures Combine(preds, w)[t] == WeightedSum(w, Column(preds, t))
  {
    var n := |preds|;
    assert Column(preds, t)[..n - 1] == Column(preds[..n - 1], t);
    if n == 1 {
      assert w[..0] == [] && Column(preds, t)[..0] == [];
    } else {
      CombineAt(preds[..n - 1], w[..n - 1], t);
    }
  }

  /** With non-negative weights, a weighted sum of values in `[lo, hi]` lies
      between `lo` and `hi` times the total weight. */
  lemma {:induction false} WeightedSumBounds(w: seq<real>, x: seq<real>, lo: real, hi: real)
    requires |w| == |x|
    requires forall i :: 0 <= i < |w| ==> w[i] >= 0.0
    requires forall i :: 0 <= i < |x| ==> lo <= x[i] <= hi
    ensures lo * Sum(w) <= WeightedSum(w, x) <= hi * Sum(w)
  {
    if w != [] {
      var n := |w|;
      var ws, xs, a, v := w[..n - 1], x[..n - 1], w[n - 1], x[n - 1];
      var total, acc := Sum(ws), WeightedSum(ws, xs);
      assert lo * total <= acc <= hi * total by {
        WeightedSumBounds(ws, xs, lo, hi);
      }
      assert Sum(w) == total + a;
      assert WeightedSum(w, x) == acc + a * v;
      BoundsStep(lo, hi, total, acc, a, v);
    }
  }

  /** One step of `WeightedSumBounds`: adding `a * v` to the weighted sum
      and `a` to the total weight keeps the bounds. */
  lemma BoundsStep(lo: real, hi: real, total: real, acc: real, a: real, v: real)
    requires lo * total <= acc <= hi * total
    requires a >= 0.0 && lo <= v <= hi
    ensures lo * (total + a) <= acc + a * v <= hi * (total + a)
  {
  }

  /** With weights forming a weight vector, the combined forecast at every
      timestamp lies between the smallest and the largest of the models'
      forecasts there. */
  lemma CombineWithinForecasts(preds: seq<Series>, w: seq<real>, t: nat, lo: real, hi: real)
    requires Combinable(preds, w)
    requires IsWeighting(w, |preds|)
    requires t < |preds[0]|
    requires forall i :: 0 <= i < |preds| ==> lo <= preds[i][t] <= hi
    ensures lo <= Combine(preds, w)[t] <= hi
  {
    CombineAt(preds, w, t);
    WeightedSumBounds(w, Column(preds, t), lo, hi);
  }

  /** A one-hot weighting at `k` only ever weights the `k`-th value. */
  lemma {:induction false} WeightedSumOneHot(x: seq<real>, k: nat)
    requires k < |x|
    ensures WeightedSum(OneHot(|x|, k), x) == x[k]
    decreases |x|
  {
    var n := |x|;
    assert OneHot(n, k)[..n - 1] == OneHot(n - 1, k);
    if k < n - 1 {
      WeightedSumOneHot(x[..n - 1], k);
    } else {
      WeightedSumZero(x[..n - 1]);
    }
  }

  lemma {:induction false} WeightedSumZero(x: seq<real>)
    ensures WeightedSum(OneHot(|x|, |x|), x) == 0.0
  {
    if x != [] {
      var n := |x|;
      assert OneHot(n, n)[..n - 1] == OneHot(n - 1, n - 1);
      WeightedSumZero(x[..n - 1]);
    }
  }

  /** With one-hot weights at `k` (a fit with a perfect model), the combined
      forecast is exactly the `k`-th model's forecast. */
  lemma CombineOneHot(preds: seq<Series>, k: nat)
    requires Combinable(preds, OneHot(|preds|, k))
    requires k < |preds|
    ensures Combine(preds, OneHot(|preds|, k)) == preds[k]
  {
    var r := Combine(preds, OneHot(|preds|, k));
    forall t | 0 <= t < |r|
      ensures r[t] == preds[k][t]
    {
      CombineAt(preds, OneHot(|preds|, k), t);
      WeightedSumOneHot(Column(preds, t), k);
    }
  }

  /** Weights `[0.2, 0.4, 0.4]` and single-point forecasts `10`, `20`, `30`
      combine to `22`. */
  lemma CombineExample()
    ensures Combine([[10.0], [20.0], [30.0]], [0.2, 0.4, 0.4]) == [22.0]
  {
  }
}
