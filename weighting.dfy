/** The inverse-loss weighting rule: from one evaluation loss per constituent
    model to one weight per model. */
module Weighting {
  import opened Wrappers

  /** The aggregate loss the rolling-origin evaluator reports for one model:
      a finite value, or the unbounded sentinel (`np.inf`) meaning that the
      model cannot be evaluated on the series. */
  datatype Loss = Finite(value: real) | Unbounded

  /** The loss `0.`, which marks a perfect model. */
  const Zero: Loss := Finite(0.0)

  /** The only way a fit fails: the `ValueError` "Impossible to evaluate one
      of the models on this TimeSeries". */
  datatype FitError = ImpossibleToEvaluate

  /** The evaluator's contract: a finite loss is never negative. */
  predicate IsLoss(l: Loss) {
    l.Finite? ==> l.value >= 0.0
  }

  predicate AreLosses(c: seq<Loss>) {
    forall i :: 0 <= i < |c| ==> IsLoss(c[i])
  }

  /** Every loss is finite and strictly positive: the inverse branch. */
  predicate AllPositive(c: seq<Loss>) {
    forall i :: 0 <= i < |c| ==> c[i].Finite? && c[i].value > 0.0
  }

  /** The sum of a vector (`ndarray.sum`), folded from the left. */
  function Sum(s: seq<real>): real {
    if s == [] then 0.0 else Sum(s[..|s| - 1]) + s[|s| - 1]
  }

  /** A weight vector for `n` models: one non-negative weight per model,
      summing to one whenever there is at least one model. */
  predicate IsWeighting(w: seq<real>, n: nat) {
    && |w| == n
    && (forall i :: 0 <= i < |w| ==> w[i] >= 0.0)
    && (n >= 1 ==> Sum(w) == 1.0)
  }

  /** The index of the first perfect model (`criterion.index(0.)`). */
  function FirstZero(c: seq<Loss>): (k: nat)
    requires Zero in c
    ensures k < |c| && c[k] == Zero
    ensures forall j :: 0 <= j < k ==> c[j] != Zero
  {
    if c[0] == Zero then 0 else 1 + FirstZero(c[1..])
  }

  /** `n` zeros with a one at position `k` (`np.zeros(n)` then one slot set). */
  function OneHot(n: nat, k: nat): seq<real> {
    seq(n, i => if i == k then 1.0 else 0.0)
  }

  /** The unnormalised scores `1 / np.array(criterion)`. */
  function Reciprocals(c: seq<Loss>): (score: seq<real>)
    requires AllPositive(c)
    ensures |score| == |c|
    ensures forall i :: 0 <= i < |c| ==> score[i] > 0.0 && score[i] * c[i].value == 1.0
  {
    seq(|c|, i requires 0 <= i < |c| => 1.0 / c[i].value)
  }

  /** Each entry divided by `t` (`score / score.sum()` with `t` the sum). */
  function Divided(s: seq<real>, t: real): (r: seq<real>)
    requires s != [] ==> t != 0.0
    ensures |r| == |s|
  {
    seq(|s|, i requires 0 <= i < |s| => s[i] / t)
  }

  /** The weights of the inverse branch: the scores divided by their sum. */
  function Normalize(score: seq<real>): (w: seq<real>)
    requires forall i :: 0 <= i < |score| ==> score[i] > 0.0
    ensures |w| == |score|
  {
    if score != [] then SumPositive(score); Divided(score, Sum(score))
    else []
  }

  /** The weight-derivation rule of a fit, given the criterion vector. */
  function DeriveWeights(c: seq<Loss>): Result<seq<real>, FitError>
    requires AreLosses(c)
  {
    if Unbounded in c then Failure(ImpossibleToEvaluate)
    else if Zero in c then Success(OneHot(|c|, FirstZero(c)))
    else Success(Normalize(Reciprocals(c)))
  }

  // ---------------------------------------------------------------------
  // Sums

  lemma {:induction false} SumPositive(s: seq<real>)
    requires s != []
    requires forall i :: 0 <= i < |s| ==> s[i] > 0.0
    ensures Sum(s) > 0.0
  {
    var n := |s|;
    if n > 1 {
      SumPositive(s[..n - 1]);
    } else {
      assert s[..n - 1] == [];
    }
  }

  /** Dividing every entry by `t` divides the sum by `t`. */
  lemma {:induction false} SumDivided(s: seq<real>, t: real)
    requires t != 0.0
    ensures Sum(Divided(s, t)) == Sum(s) / t
  {
    if s != [] {
      var n := |s|;
      assert Divided(s, t)[..n - 1] == Divided(s[..n - 1], t);
      SumDivided(s[..n - 1], t);
      calc {
        Sum(Divided(s, t));
        Sum(s[..n - 1]) / t + s[n - 1] / t;
        (Sum(s[..n - 1]) + s[n - 1]) / t;
      }
    }
  }

  /** A one-hot vector sums to one when its one falls inside it. */
  lemma {:induction false} SumOneHot(n: nat, k: nat)
    ensures Sum(OneHot(n, k)) == if k < n then 1.0 else 0.0
  {
    if n > 0 {
      assert OneHot(n, k)[..n - 1] == OneHot(n - 1, k);
      SumOneHot(n - 1, k);
    }
  }

  // ---------------------------------------------------------------------
  // The weight-derivation rule

  /** The fit fails exactly when some criterion is unbounded, whether or not
      a zero criterion is present as well. */
  lemma DeriveFailsIffUnbounded(c: seq<Loss>)
    requires AreLosses(c)
    ensures DeriveWeights(c).Failure? <==> Unbounded in c
    ensures DeriveWeights(c).Failure? ==> DeriveWeights(c).error == ImpossibleToEvaluate
  {
  }

  /** Every successful derivation yields a weight vector: one non-negative
      weight per model, summing to one. */
  lemma DeriveWeightsIsWeighting(c: seq<Loss>)
    requires AreLosses(c)
    requires Unbounded !in c
    ensures DeriveWeights(c).Success?
    ensures IsWeighting(DeriveWeights(c).value, |c|)
  {
    var w := DeriveWeights(c).value;
    if Zero in c {
      SumOneHot(|c|, FirstZero(c));
    } else {
      var score := Reciprocals(c);
      if c != [] {
        SumPositive(score);
        SumDivided(score, Sum(score));
      }
    }
  }

  /** With no unbounded criterion and some zero criterion, all the weight goes
      to the first model whose criterion is zero; later perfect models get
      nothing. */
  lemma ZeroCriterionIsOneHot(c: seq<Loss>, k: nat)
    requires AreLosses(c)
    requires Unbounded !in c
    requires k < |c| && c[k] == Zero
    requires forall j :: 0 <= j < k ==> c[j] != Zero
    ensures DeriveWeights(c).Success?
    ensures |DeriveWeights(c).value| == |c|
    ensures DeriveWeights(c).value[k] == 1.0
    ensures forall i :: 0 <= i < |c| && i != k ==> DeriveWeights(c).value[i] == 0.0
  {
  }

  /** With all criteria positive, every weight is positive. */
  lemma InverseWeightsPositive(c: seq<Loss>, i: nat)
    requires AllPositive(c)
    requires i < |c|
    ensures DeriveWeights(c).Success?
    ensures DeriveWeights(c).value[i] > 0.0
  {
    assert Zero !in c;
    var score := Reciprocals(c);
    SumPositive(score);
  }

  /** With all criteria positive, each weight times its criterion is the same
      for every model: weights are inversely proportional to the losses. */
  lemma InverseWeightsProportional(c: seq<Loss>, i: nat, j: nat)
    requires AllPositive(c)
    requires i < |c| && j < |c|
    ensures DeriveWeights(c).Success?
    ensures DeriveWeights(c).value[i] * c[i].value == DeriveWeights(c).value[j] * c[j].value
  {
    assert Zero !in c;
    var score := Reciprocals(c);
    SumPositive(score);
    var t := Sum(score);
    ScaledReciprocal(score[i], c[i].value, t);
    ScaledReciprocal(score[j], c[j].value, t);
  }

  /** With all criteria positive, a strictly smaller loss earns a strictly
      larger weight. */
  lemma InverseWeightsMonotone(c: seq<Loss>, i: nat, j: nat)
    requires AllPositive(c)
    requires i < |c| && j < |c|
    requires c[i].value < c[j].value
    ensures DeriveWeights(c).Success?
    ensures DeriveWeights(c).value[i] > DeriveWeights(c).value[j]
  {
    InverseWeightsPositive(c, j);
    InverseWeightsProportional(c, i, j);
    var w := DeriveWeights(c).value;
    SmallerFactorLargerPartner(w[i], c[i].value, w[j], c[j].value);
  }

  /** Criteria `[0.5, 0, 0]` give weights `[0, 1, 0]`: the first zero wins. */
  lemma FirstZeroWinsExample()
    ensures DeriveWeights([Finite(0.5), Zero, Zero]) == Success([0.0, 1.0, 0.0])
  {
    var c := [Finite(0.5), Zero, Zero];
    assert c[1] == Zero;
    assert FirstZero(c) == 1 by {
      assert c[0] != Zero;
      assert c[1..][0] == Zero;
    }
    assert Unbounded !in c by {
      assert forall i :: 0 <= i < |c| ==> c[i].Finite?;
    }
    assert OneHot(3, 1) == [0.0, 1.0, 0.0];
  }

  /** An unbounded criterion fails the fit even beside a zero criterion. */
  lemma UnboundedWinsExample()
    ensures DeriveWeights([Finite(1.0), Unbounded]) == Failure(ImpossibleToEvaluate)
    ensures DeriveWeights([Zero, Unbounded]) == Failure(ImpossibleToEvaluate)
  {
  }

  // ---------------------------------------------------------------------
  // Arithmetic steps on reals

  lemma ScaledReciprocal(a: real, x: real, t: real)
    requires a * x == 1.0 && t > 0.0
    ensures (a / t) * x == 1.0 / t
  {
  }

  lemma SmallerFactorLargerPartner(wi: real, ci: real, wj: real, cj: real)
    requires wi * ci == wj * cj
    requires 0.0 < ci < cj && wj > 0.0
    ensures wi > wj
  {
  }
}
