/** The GROE combination model: an ensemble whose weights come from each
    constituent model's generalized rolling-origin evaluation (GROE) loss. */
module GroeCombination {
  import opened Wrappers
  import opened Weighting
  import opened Combination

  /** The keyword that `update_groe_params` pulls out of the GROE options. */
  const NEvaluationsKey: string := "n_evaluations"

  /** The ensemble's own state. `S` is the training series, `M` a constituent
      model, `Mt` the metric and `V` a keyword-argument value. */
  class GroeCombinationModel<S, M, Mt, V> {
    /** The constituent models, owned by the base ensemble. */
    const models: seq<M>
    /** The metric handed to every evaluation. */
    const metrics: Mt
    /** The number of rolling-origin evaluations per model. */
    var nEvaluations: V
    /** Every other option passed on to the evaluator. */
    var groeKwargs: map<string, V>
    /** One loss per model, set by the last fit. */
    var criterion: Option<seq<Loss>>
    /** One weight per model, set by the last successful fit. */
    var weights: Option<seq<real>>

    /** The options never hold the evaluation count, whatever vectors are
        present have one entry per model, and the weights are non-negative
        and sum to one. */
    ghost predicate Valid()
      reads this
    {
      && NEvaluationsKey !in groeKwargs
      && (criterion.Some? ==> |criterion.value| == |models|)
      && (weights.Some? ==> IsWeighting(weights.value, |models|))
    }

    /** `groeKwargs` are the keywords other than `n_evaluations`, which
        Python binds to the named parameter. */
    constructor (models: seq<M>, metrics: Mt, nEvaluations: V, groeKwargs: map<string, V>)
      requires NEvaluationsKey !in groeKwargs
      ensures Valid()
      ensures this.models == models && this.metrics == metrics
      ensures this.nEvaluations == nEvaluations && this.groeKwargs == groeKwargs
      ensures criterion == None && weights == None
    {
      this.models := models;
      this.metrics := metrics;
      this.nEvaluations := nEvaluations;
      this.groeKwargs := groeKwargs;
      criterion := None;
      weights := None;
    }

    /** Replaces the GROE options wholesale with `kwargs`, except that an
        `n_evaluations` entry is taken out and becomes the evaluation count. */
    method UpdateGroeParams(kwargs: map<string, V>)
      requires Valid()
      modifies this`nEvaluations, this`groeKwargs
      ensures Valid()
      ensures NEvaluationsKey in kwargs ==> nEvaluations == kwargs[NEvaluationsKey]
      ensures NEvaluationsKey !in kwargs ==> nEvaluations == old(nEvaluations)
      ensures groeKwargs == kwargs - {NEvaluationsKey}
      ensures NEvaluationsKey !in groeKwargs
    {
      var options := kwargs;
      if NEvaluationsKey in options {
        nEvaluations := options[NEvaluationsKey];
        options := options - {NEvaluationsKey};
      }
      groeKwargs := options;
    }

    /** What the evaluator reports for each model, in model order, under the
        current configuration. */
    ghost function Criteria(trainTs: S, groe: (S, M, Mt, V, map<string, V>) -> Loss): (c: seq<Loss>)
      reads this`nEvaluations, this`groeKwargs
      ensures |c| == |models|
    {
      var n, options := nEvaluations, groeKwargs;
      seq(|models|, i requires 0 <= i < |models| => groe(trainTs, models[i], metrics, n, options))
    }

    /** Evaluates every model on `trainTs` with `groe`, then derives the
        weights. Any unbounded loss makes the fit fail, leaving the weights
        of the previous fit in place; otherwise the weights are replaced. */
    method Fit(trainTs: S, groe: (S, M, Mt, V, map<string, V>) -> Loss) returns (outcome: Outcome<FitError>)
      requires Valid()
      requires forall i :: 0 <= i < |models| ==> IsLoss(groe(trainTs, models[i], metrics, nEvaluations, groeKwargs))
      modifies this`criterion, this`weights
      ensures Valid()
      ensures criterion == Some(Criteria(trainTs, groe))
      ensures AreLosses(criterion.value)
      ensures outcome == Fail(ImpossibleToEvaluate) <==> Unbounded in criterion.value
      ensures outcome.Pass? ==> Some(DeriveWeights(criterion.value).value) == weights
      ensures outcome.Fail? ==> weights == old(weights)
    {
      criterion := Some([]);
      for i := 0 to |models|
        modifies this`criterion
        invariant criterion == Some(Criteria(trainTs, groe)[..i])
      {
        ghost var expected := Criteria(trainTs, groe);
        assert expected[..i + 1] == expected[..i] + [expected[i]];
        criterion := Some(criterion.value + [groe(trainTs, models[i], metrics, nEvaluations, groeKwargs)]);
      }
      var c := criterion.value;
      assert c == Criteria(trainTs, groe);
      assert AreLosses(c);
      if Unbounded in c {
        return Fail(ImpossibleToEvaluate);
      }
      DeriveWeightsIsWeighting(c);
      if Zero in c {
        var w := new real[|c|](_ => 0.0);
        w[FirstZero(c)] := 1.0;
        assert w[..] == OneHot(|c|, FirstZero(c));
        weights := Some(w[..]);
      } else {
        weights := Some(Normalize(Reciprocals(c)));
      }
      outcome := Pass;
    }

    /** The combined forecast for the base ensemble's current per-model
        `predictions`, under the weights of the last successful fit. */
    function CombinationFunction(predictions: seq<Series>): (r: Series)
      reads this
      requires weights.Some? && Combinable(predictions, weights.value)
      ensures |r| == |predictions[0]|
      ensures forall t :: 0 <= t < |r| ==> r[t] == WeightedSum(weights.value, Column(predictions, t))
    {
      CombineEverywhere(predictions, weights.value);
      Combine(predictions, weights.value)
    }
  }

  lemma CombineEverywhere(preds: seq<Series>, w: seq<real>)
    requires Combinable(preds, w)
    ensures forall t :: 0 <= t < |preds[0]| ==> Combine(preds, w)[t] == WeightedSum(w, Column(preds, t))
  {
    forall t | 0 <= t < |preds[0]| {
      CombineAt(preds, w, t);
    }
  }
}
