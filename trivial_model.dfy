/** The trivial baseline model: it predicts, for every sample window, the
    last known value of feature 0. */
module TrivialModels {

  /** One element of a dataset: the windows `x`, of shape
      (batch_size, window_size, num_features), and the labels `y`. */
  datatype Batch = Batch(x: seq<seq<seq<real>>>, y: seq<real>)

  /** A window has a last time step, and that step has a feature 0. */
  predicate WellShapedWindow(w: seq<seq<real>>)
  {
    |w| > 0 && |w[|w| - 1]| > 0
  }

  /** Every window of a batch has the same number of time steps, and every
      time step the same number of features: numpy holds `x` as one array. */
  predicate Rectangular(x: seq<seq<seq<real>>>)
  {
    forall s, u :: 0 <= s < |x| && 0 <= u < |x[s]| ==>
      |x[s]| == |x[0]| && |x[s][u]| == |x[0][0]|
  }

  predicate WellShapedBatch(batch: Batch)
  {
    Rectangular(batch.x) &&
    forall s :: 0 <= s < |batch.x| ==> WellShapedWindow(batch.x[s])
  }

  predicate WellShaped(dataset: seq<Batch>)
  {
    forall b :: 0 <= b < |dataset| ==> WellShapedBatch(dataset[b])
  }

  /** `x[s, -1, 0]`: feature 0 of the window's last time step. */
  function LastValue(w: seq<seq<real>>): real
    requires WellShapedWindow(w)
  {
    w[|w| - 1][0]
  }

  /** `x[:, -1, 0]`: one prediction per sample window of a batch, in sample order. */
  function BatchPrediction(batch: Batch): seq<real>
    requires WellShapedBatch(batch)
  {
    seq(|batch.x|, s requires 0 <= s < |batch.x| => LastValue(batch.x[s]))
  }

  /** The number of sample windows across all batches. */
  function TotalSamples(dataset: seq<Batch>): nat
  {
    if dataset == [] then 0
    else TotalSamples(dataset[..|dataset| - 1]) + |dataset[|dataset| - 1].x|
  }

  /** The predictions for a dataset: each batch's predictions appended after
      those of the batches before it. */
  function Predictions(dataset: seq<Batch>): seq<real>
    requires WellShaped(dataset)
  {
    if dataset == [] then []
    else Predictions(dataset[..|dataset| - 1]) + BatchPrediction(dataset[|dataset| - 1])
  }

  /** There is one prediction per sample window. */
  lemma {:induction false} PredictionsLength(dataset: seq<Batch>)
    requires WellShaped(dataset)
    ensures |Predictions(dataset)| == TotalSamples(dataset)
  {
    if dataset != [] {
      PredictionsLength(dataset[..|dataset| - 1]);
    }
  }

  /** Predicting on two datasets concatenated equals concatenating their predictions. */
  lemma {:induction false} PredictionsAppend(a: seq<Batch>, b: seq<Batch>)
    requires WellShaped(a) && WellShaped(b)
    ensures WellShaped(a + b)
    ensures Predictions(a + b) == Predictions(a) + Predictions(b)
    decreases |b|
  {
    WellShapedAppend(a, b);
    if b == [] {
      assert a + b == a;
    } else {
      var b' := b[..|b| - 1];
      WellShapedSlice(b, 0, |b| - 1);
      assert b[0..|b| - 1] == b';
      assert (a + b)[..|a + b| - 1] == a + b';
      assert (a + b)[|a + b| - 1] == b[|b| - 1];
      PredictionsAppend(a, b');
    }
  }

  lemma WellShapedAppend(a: seq<Batch>, b: seq<Batch>)
    requires WellShaped(a) && WellShaped(b)
    ensures WellShaped(a + b)
  {
  }

  /** The prediction for sample `s` of batch `b` sits after those of all earlier
      batches and earlier samples, and is that window's last feature-0 value. */
  lemma {:induction false} PredictionAt(dataset: seq<Batch>, b: nat, s: nat)
    requires WellShaped(dataset)
    requires b < |dataset| && s < |dataset[b].x|
    ensures TotalSamples(dataset[..b]) + s < |Predictions(dataset)|
    ensures Predictions(dataset)[TotalSamples(dataset[..b]) + s] == LastValue(dataset[b].x[s])
  {
    var init := dataset[..|dataset| - 1];
    WellShapedSlice(dataset, 0, |dataset| - 1);
    assert dataset[0..|dataset| - 1] == init;
    PredictionsLength(init);
    if b == |dataset| - 1 {
      assert dataset[..b] == init;
    } else {
      assert init[..b] == dataset[..b] && init[b] == dataset[b];
      PredictionAt(init, b, s);
    }
  }

  lemma WellShapedSlice(dataset: seq<Batch>, i: nat, j: nat)
    requires WellShaped(dataset) && i <= j <= |dataset|
    ensures WellShaped(dataset[i..j])
  {
  }

  /** The labels play no part: datasets with the same windows give the same predictions. */
  lemma {:induction false} LabelsIgnored(a: seq<Batch>, b: seq<Batch>)
    requires WellShaped(a) && |a| == |b|
    requires forall i :: 0 <= i < |a| ==> a[i].x == b[i].x
    ensures WellShaped(b)
    ensures Predictions(a) == Predictions(b)
    decreases |a|
  {
    assert forall i :: 0 <= i < |b| ==> WellShapedBatch(a[i]) && a[i].x == b[i].x;
    if a != [] {
      LabelsIgnored(a[..|a| - 1], b[..|b| - 1]);
    }
  }

  /** The hyperparameter dictionary; its values are kept as strings because the
      trivial model reads none of them. */
  type Params = map<string, string>

  class TrivialModel {
    var name: string
    var modelParams: Params

    constructor (modelParams: Params, name: string := "trivial")
      ensures this.name == name && this.modelParams == modelParams
    {
      this.name := name;
      this.modelParams := modelParams;
    }

    /** Training is not necessary for this model. */
    method Train(dataset: seq<Batch>, testDataset: seq<Batch>, modelParams: Params)
      ensures unchanged(this)
    {
    }

    /** Walks the batches in order and appends each batch's predictions. */
    method Predict(testDataset: seq<Batch>) returns (prediction: seq<real>)
      requires WellShaped(testDataset)
      ensures prediction == Predictions(testDataset)
      ensures |prediction| == TotalSamples(testDataset)
    {
      prediction := [];
      for i := 0 to |testDataset|
        invariant WellShaped(testDataset[..i])
        invariant prediction == Predictions(testDataset[..i])
      {
        var batch := testDataset[i];
        var pred := BatchPrediction(batch);
        assert testDataset[..i + 1][..i] == testDataset[..i];
        prediction := prediction + pred;
      }
      assert testDataset[..|testDataset|] == testDataset;
      PredictionsLength(testDataset);
    }

    /** Nothing is saved for this model. */
    method Save(path: string)
      ensures unchanged(this)
    {
    }

    /** Nothing is loaded for this model. */
    method Load(path: string)
      ensures unchanged(this)
    {
    }
  }
}
