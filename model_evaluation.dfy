/** The model evaluator: which of its five regression scores `evaluate`
    computes for a list of requested metric names, and the index mask of the
    mean absolute percentage error. The numeric metrics themselves (sklearn
    calls and floating-point arithmetic) are parameters of the model. */
module ModelEvaluation {
  import opened Results

  /** A regression metric over (y_pred, y_true), computed outside this model. */
  type Metric = (seq<real>, seq<real>) -> real

  /** The five metric computations the evaluator dispatches to. */
  datatype Scorers = Scorers(r2: Metric, mae: Metric, mse: Metric, mape: Metric, smape: Metric)

  /** The short names a caller may request, in the order `evaluate` tests them. */
  const ShortNames: seq<string> := ["r2", "mae", "mse", "mape", "smape"]

  /** The dictionary key that each short name fills, index for index. */
  const ScoreKeys: seq<string> := ["r2_score", "mae_score", "mse_score", "mape_score", "smape_score"]

  /** The name that requests every metric. */
  const All: string := "all"

  const InvalidMetricsMessage: string := "Valid values for eval_metrics are: all, r2, mae, mse, mape or smape."

  // The names and keys appear twice: the sequences above pair each short name
  // with its key by index, and the sets below are the same strings as literal
  // sets, which the lemmas about membership read directly. NamesDistinct proves
  // that the two forms agree.

  /** Every name that selects at least one score. */
  const KnownNames: set<string> := {"all", "r2", "mae", "mse", "mape", "smape"}

  /** Every key a result dictionary may hold. */
  const AllScoreKeys: set<string> := {"r2_score", "mae_score", "mse_score", "mape_score", "smape_score"}

  /** The value of the `i`-th metric, `i` indexing ShortNames and ScoreKeys. */
  function Score(scorers: Scorers, i: nat, yPred: seq<real>, yTrue: seq<real>): real
    requires i < 5
  {
    if i == 0 then scorers.r2(yPred, yTrue)
    else if i == 1 then scorers.mae(yPred, yTrue)
    else if i == 2 then scorers.mse(yPred, yTrue)
    else if i == 3 then scorers.mape(yPred, yTrue)
    else scorers.smape(yPred, yTrue)
  }

  /** The metric list `evaluate` works with: a missing list means "all". */
  function EffectiveMetrics(evalMetrics: Option<seq<string>>): seq<string>
  {
    match evalMetrics
    case None => [All]
    case Some(m) => m
  }

  /** Whether the `i`-th metric is requested by `metrics`. */
  predicate Requested(i: nat, metrics: seq<string>)
    requires i < 5
  {
    ShortNames[i] in metrics || All in metrics
  }

  /** The keys of the dictionary that `metrics` asks for. */
  function SelectedKeys(metrics: seq<string>): set<string>
  {
    set i | 0 <= i < 5 && Requested(i, metrics) :: ScoreKeys[i]
  }

  /** Computes the requested scores; fails when no score is requested. */
  method Evaluate(scorers: Scorers, yPred: seq<real>, yTrue: seq<real>, evalMetrics: Option<seq<string>>)
    returns (r: Result<map<string, real>>)
    ensures r.Err? <==> SelectedKeys(EffectiveMetrics(evalMetrics)) == {}
    ensures r.Err? ==> r.error == ValueError(InvalidMetricsMessage)
    ensures r.Ok? ==> r.value.Keys == SelectedKeys(EffectiveMetrics(evalMetrics)) && r.value != map[]
    ensures r.Ok? ==> forall i :: 0 <= i < 5 && ScoreKeys[i] in r.value ==>
                        r.value[ScoreKeys[i]] == Score(scorers, i, yPred, yTrue)
    ensures evalMetrics.None? ==> r.Ok? && r.value.Keys == AllScoreKeys
  {
    var metrics: seq<string>;
    if evalMetrics.None? {
      metrics := [All];
    } else {
      metrics := evalMetrics.value;
    }

    var scores: map<string, real> := map[];
    if "r2" in metrics || All in metrics {
      scores := scores["r2_score" := scorers.r2(yPred, yTrue)];
    }
    if "mae" in metrics || All in metrics {
      scores := scores["mae_score" := scorers.mae(yPred, yTrue)];
    }
    if "mse" in metrics || All in metrics {
      scores := scores["mse_score" := scorers.mse(yPred, yTrue)];
    }
    if "mape" in metrics || All in metrics {
      scores := scores["mape_score" := scorers.mape(yPred, yTrue)];
    }
    if "smape" in metrics || All in metrics {
      scores := scores["smape_score" := scorers.smape(yPred, yTrue)];
    }

    assert scores.Keys == SelectedKeys(metrics) by {
      KeysOfSelection(metrics);
    }
    if evalMetrics.None? {
      DefaultSelectsAll();
    }
    if scores == map[] {
      assert scores.Keys == {};
      return Err(ValueError(InvalidMetricsMessage));
    }
    return Ok(scores);
  }

  /** SelectedKeys spelled out name by name, as `evaluate` tests them. */
  lemma KeysOfSelection(metrics: seq<string>)
    ensures SelectedKeys(metrics) ==
              (if "r2" in metrics || All in metrics then {"r2_score"} else {}) +
              (if "mae" in metrics || All in metrics then {"mae_score"} else {}) +
              (if "mse" in metrics || All in metrics then {"mse_score"} else {}) +
              (if "mape" in metrics || All in metrics then {"mape_score"} else {}) +
              (if "smape" in metrics || All in metrics then {"smape_score"} else {})
  {
    forall k | k in SelectedKeys(metrics)
      ensures k in (if "r2" in metrics || All in metrics then {"r2_score"} else {}) +
                   (if "mae" in metrics || All in metrics then {"mae_score"} else {}) +
                   (if "mse" in metrics || All in metrics then {"mse_score"} else {}) +
                   (if "mape" in metrics || All in metrics then {"mape_score"} else {}) +
                   (if "smape" in metrics || All in metrics then {"smape_score"} else {})
    {
      var i :| 0 <= i < 5 && Requested(i, metrics) && ScoreKeys[i] == k;
    }
    if "r2" in metrics || All in metrics { assert Requested(0, metrics); }
    if "mae" in metrics || All in metrics { assert Requested(1, metrics); }
    if "mse" in metrics || All in metrics { assert Requested(2, metrics); }
    if "mape" in metrics || All in metrics { assert Requested(3, metrics); }
    if "smape" in metrics || All in metrics { assert Requested(4, metrics); }
  }

  /** The five score keys are pairwise distinct, and so are the short names. */
  lemma NamesDistinct()
    ensures forall i, j :: 0 <= i < j < 5 ==> ScoreKeys[i] != ScoreKeys[j]
    ensures forall i, j :: 0 <= i < j < 5 ==> ShortNames[i] != ShortNames[j]
    ensures AllScoreKeys == set i | 0 <= i < 5 :: ScoreKeys[i]
    ensures KnownNames == {All} + set i | 0 <= i < 5 :: ShortNames[i]
  {
    assert ScoreKeys[0][0] != ScoreKeys[1][0] && ScoreKeys[0][0] != ScoreKeys[2][0];
    assert ScoreKeys[1][1] != ScoreKeys[2][1];
    assert ScoreKeys[3][2] != ScoreKeys[1][2] && ScoreKeys[3][1] != ScoreKeys[2][1];
    assert ScoreKeys[4][0] != ScoreKeys[0][0] && ScoreKeys[4][0] != ScoreKeys[1][0];
    assert ScoreKeys[4][0] != ScoreKeys[2][0] && ScoreKeys[4][0] != ScoreKeys[3][0];
    assert ShortNames[3][2] != ShortNames[1][2];
    var shorts := set i | 0 <= i < 5 :: ShortNames[i];
    assert ShortNames[0] in shorts && ShortNames[1] in shorts && ShortNames[2] in shorts;
    assert ShortNames[3] in shorts && ShortNames[4] in shorts;
    var keys := set i | 0 <= i < 5 :: ScoreKeys[i];
    assert ScoreKeys[0] in keys && ScoreKeys[1] in keys && ScoreKeys[2] in keys;
    assert ScoreKeys[3] in keys && ScoreKeys[4] in keys;
  }

  /** A score key is present iff its short name or "all" was requested. */
  lemma KeyPresentIff(metrics: seq<string>, i: nat)
    requires i < 5
    ensures ScoreKeys[i] in SelectedKeys(metrics) <==> ShortNames[i] in metrics || All in metrics
  {
  }

  /** Keys are drawn from the five fixed score keys, so there are at most five. */
  lemma SelectedWithinFive(metrics: seq<string>)
    ensures SelectedKeys(metrics) <= AllScoreKeys
    ensures |SelectedKeys(metrics)| <= 5
  {
    NamesDistinct();
    assert |AllScoreKeys| == 5;
    SubsetCard(SelectedKeys(metrics), AllScoreKeys);
  }

  lemma SubsetCard(a: set<string>, b: set<string>)
    requires a <= b
    ensures |a| <= |b|
  {
    assert b == a + (b - a);
  }

  /** A missing list selects exactly the five score keys. */
  lemma DefaultSelectsAll()
    ensures SelectedKeys(EffectiveMetrics(None)) == AllScoreKeys
    ensures |AllScoreKeys| == 5
  {
    NamesDistinct();
    forall i | 0 <= i < 5 ensures Requested(i, [All]) {
      assert All in [All];
    }
  }

  /** No score is selected iff no requested name is a known one. */
  lemma NothingSelectedIffNoKnownName(metrics: seq<string>)
    ensures SelectedKeys(metrics) == {} <==> forall m :: m in metrics ==> m !in KnownNames
  {
    NamesDistinct();
    forall m | m in metrics && m in KnownNames ensures SelectedKeys(metrics) != {} {
      var i: nat :| i < 5 && (m == All || m == ShortNames[i]);
      assert Requested(i, metrics);
      assert ScoreKeys[i] in SelectedKeys(metrics);
    }
    if SelectedKeys(metrics) != {} {
      var k :| k in SelectedKeys(metrics);
      var i :| 0 <= i < 5 && Requested(i, metrics) && ScoreKeys[i] == k;
      assert ShortNames[i] in KnownNames;
    }
  }

  /** An empty list is not a missing one: it gets no default and selects nothing. */
  lemma EmptyOrBogusSelectsNothing()
    ensures SelectedKeys(EffectiveMetrics(Some([]))) == {}
    ensures SelectedKeys(EffectiveMetrics(Some(["bogus"]))) == {}
  {
    NothingSelectedIffNoKnownName([]);
    NothingSelectedIffNoKnownName(["bogus"]);
  }

  /** The selection depends only on which known names occur in the list. */
  lemma SelectionDependsOnKnownMembers(a: seq<string>, b: seq<string>)
    requires forall n :: n in KnownNames ==> (n in a <==> n in b)
    ensures SelectedKeys(a) == SelectedKeys(b)
  {
  }

  /** Reordering or duplicating entries leaves the selection unchanged. */
  lemma SelectionIgnoresOrderAndDuplicates(a: seq<string>, b: seq<string>)
    requires forall n :: n in a <==> n in b
    ensures SelectedKeys(a) == SelectedKeys(b)
  {
    SelectionDependsOnKnownMembers(a, b);
  }

  /** Unknown names mixed into a list are ignored; with one known name there is no error. */
  lemma UnknownNamesIgnored(metrics: seq<string>, unknown: seq<string>)
    requires forall n :: n in unknown ==> n !in KnownNames
    ensures SelectedKeys(metrics + unknown) == SelectedKeys(metrics)
    ensures (exists n :: n in metrics && n in KnownNames) ==> SelectedKeys(metrics + unknown) != {}
  {
    SelectionDependsOnKnownMembers(metrics + unknown, metrics);
    NothingSelectedIffNoKnownName(metrics);
  }

  /** The positions that the mask `y_pred != 0` keeps, in ascending order. */
  function NonZeroIndices(yPred: seq<real>): (idx: seq<nat>)
    ensures forall k :: 0 <= k < |idx| ==> idx[k] < |yPred| && yPred[idx[k]] != 0.0
    ensures forall i :: 0 <= i < |yPred| && yPred[i] != 0.0 ==> i in idx
    ensures forall k, l :: 0 <= k < l < |idx| ==> idx[k] < idx[l]
  {
    if yPred == [] then []
    else
      var rest := NonZeroIndices(yPred[..|yPred| - 1]);
      if yPred[|yPred| - 1] != 0.0 then rest + [|yPred| - 1] else rest
  }

  function Abs(x: real): real
  {
    if x < 0.0 then -x else x
  }

  /** One percentage term: the absolute error relative to the signed prediction. */
  function MapeTerm(p: real, t: real): (term: real)
    requires p != 0.0
    ensures term * p == Abs(p - t)
  {
    Abs(p - t) / p
  }

  /** The terms `_calc_mape` averages: |y_pred - y_true| divided by y_pred,
      at the positions where y_pred is not zero. */
  function MapeTerms(yPred: seq<real>, yTrue: seq<real>): (terms: seq<real>)
    requires |yPred| == |yTrue|
    ensures |terms| == |NonZeroIndices(yPred)|
    ensures forall k :: 0 <= k < |terms| ==>
              var i := NonZeroIndices(yPred)[k];
              terms[k] == MapeTerm(yPred[i], yTrue[i])
  {
    var idx := NonZeroIndices(yPred);
    seq(|idx|, k requires 0 <= k < |idx| => MapeTerm(yPred[idx[k]], yTrue[idx[k]]))
  }

  /** Actual values at masked-out positions (zero predictions) do not affect the terms. */
  lemma MapeIgnoresZeroPredictions(yPred: seq<real>, yTrue: seq<real>, yTrue': seq<real>)
    requires |yPred| == |yTrue| == |yTrue'|
    requires forall i :: 0 <= i < |yPred| && yPred[i] != 0.0 ==> yTrue[i] == yTrue'[i]
    ensures MapeTerms(yPred, yTrue) == MapeTerms(yPred, yTrue')
  {
  }

  /** As written, a negative prediction yields a negative "absolute" percentage term. */
  lemma MapeTermNegativeForNegativePrediction()
    ensures MapeTerms([-2.0], [2.0]) == [-2.0]
  {
    assert NonZeroIndices([-2.0]) == [0] by {
      assert [-2.0][..0] == [];
    }
  }

  /** One corrected term: the absolute error relative to the absolute prediction. */
  function AbsolutePercentageTerm(p: real, t: real): (term: real)
    requires p != 0.0
    ensures term >= 0.0
    ensures term == Abs(MapeTerm(p, t))
  {
    if p < 0.0 then
      assert Abs(p - t) / p == -(Abs(p - t) / -p);
      Abs(p - t) / -p
    else
      Abs(p - t) / p
  }

  /** The absolute percentage terms with the divisor's sign removed: |y_pred - y_true| / |y_pred|. */
  function AbsolutePercentageTerms(yPred: seq<real>, yTrue: seq<real>): (terms: seq<real>)
    requires |yPred| == |yTrue|
    ensures |terms| == |NonZeroIndices(yPred)|
    ensures forall k :: 0 <= k < |terms| ==> terms[k] >= 0.0
    ensures forall k :: 0 <= k < |terms| ==> terms[k] == Abs(MapeTerms(yPred, yTrue)[k])
  {
    var idx := NonZeroIndices(yPred);
    seq(|idx|, k requires 0 <= k < |idx| => AbsolutePercentageTerm(yPred[idx[k]], yTrue[idx[k]]))
  }

  /** The corrected terms agree with the written ones when no prediction is negative. */
  lemma CorrectedAgreesOnNonNegativePredictions(yPred: seq<real>, yTrue: seq<real>)
    requires |yPred| == |yTrue|
    requires forall i :: 0 <= i < |yPred| ==> yPred[i] >= 0.0
    ensures AbsolutePercentageTerms(yPred, yTrue) == MapeTerms(yPred, yTrue)
  {
  }
}
