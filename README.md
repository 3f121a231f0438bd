# Electricity spot-price forecasting: evaluator, trivial model and model factory

This project models three small parts of a forecasting code base for hourly
electricity spot prices. It states their behaviour in Dafny and proves it.

- **The model evaluator** (`ModelEvaluation`). `evaluate` takes a list of
  metric names (`r2`, `mae`, `mse`, `mape`, `smape`, `all`) and fills a
  dictionary with some of the five score keys `r2_score`, `mae_score`,
  `mse_score`, `mape_score` and `smape_score`. A missing list means `['all']`.
  When no score is selected, it raises a `ValueError`. The five metric
  computations are passed in as a `Scorers` record of functions, because
  their numeric code lives in sklearn and in floating-point numpy. The
  index mask of the mean absolute percentage error is modelled exactly.
- **The trivial baseline model** (`TrivialModels.TrivialModel`). `predict`
  walks the batches of a dataset in order. For each sample window it takes
  feature 0 of the window's last time step and appends it to the
  prediction. `train`, `save` and `load` do nothing.
- **The model factory** (`ModelFactory.Get`). It maps the exact name
  `linear_regression` to a linear-regression model and `prophet` and `rcnn`
  to no model. Every other name raises a `ValueError` whose message names
  the model.

Python exceptions are modelled as `Results.Result` values whose `Err` case
holds the exception class and message.

An empty metric list is not a missing one: it is not replaced by `['all']`,
selects nothing, and raises (`EmptyOrBogusSelectsNothing`).

## Model

| member | source | states |
|---|---|---|
| ModelEvaluation.Evaluate | src/_modellab/model_evaluation.py:67-101 | With metric computations that return, the call fails with the ValueError message iff no score key is selected. On success the dictionary's keys are exactly the selected keys, it is non-empty, and each key holds the score of its own metric. A missing list always succeeds with all five keys. |
| ModelEvaluation.KeyPresentIff | src/_modellab/model_evaluation.py:82-95 | A score key is present iff its short name or `all` occurs in the list. |
| ModelEvaluation.SelectedWithinFive | src/_modellab/model_evaluation.py:81-95 | Selected keys are drawn from the five fixed score keys, so there are at most five. |
| ModelEvaluation.DefaultSelectsAll | src/_modellab/model_evaluation.py:78-95 | A missing list selects exactly the five score keys, which are distinct. |
| ModelEvaluation.NothingSelectedIffNoKnownName | src/_modellab/model_evaluation.py:78-99 | Nothing is selected (so evaluate raises) iff no entry of the list is a known metric name. |
| ModelEvaluation.EmptyOrBogusSelectsNothing | src/_modellab/model_evaluation.py:78-99 | An empty list gets no default and selects nothing, and so does `['bogus']`. |
| ModelEvaluation.SelectionDependsOnKnownMembers | src/_modellab/model_evaluation.py:82-95 | Two lists that contain the same known names select the same keys. |
| ModelEvaluation.SelectionIgnoresOrderAndDuplicates | src/_modellab/model_evaluation.py:82-95 | Reordering or duplicating entries does not change the selected keys. |
| ModelEvaluation.UnknownNamesIgnored | src/_modellab/model_evaluation.py:82-101 | Appending unknown names changes nothing, and a list with one known name is never rejected. |
| ModelEvaluation.NonZeroIndices | src/_modellab/model_evaluation.py:51 | The mask keeps exactly the positions where y_pred is non-zero, in ascending order. |
| ModelEvaluation.MapeTerm | src/_modellab/model_evaluation.py:52 | A term times the prediction equals the absolute error. The divisor is y_pred, not y_true. |
| ModelEvaluation.MapeTerms | src/_modellab/model_evaluation.py:51-52 | There is one term per kept position, in order, and each is the percentage term of the prediction and actual value at that position. |
| ModelEvaluation.MapeIgnoresZeroPredictions | src/_modellab/model_evaluation.py:51-52 | Actual values at positions with a zero prediction do not affect the terms. |
| ModelEvaluation.MapeTermNegativeForNegativePrediction | src/_modellab/model_evaluation.py:52 | As written, the prediction -2 against the actual value 2 gives the term -2. |
| ModelEvaluation.AbsolutePercentageTerms | src/_modellab/model_evaluation.py:52 | There is one corrected term per kept position; each is the absolute value of the term as written, so it is never negative and the correction changes only the sign. |
| ModelEvaluation.CorrectedAgreesOnNonNegativePredictions | src/_modellab/model_evaluation.py:52 | The corrected terms equal the terms as written when no prediction is negative. |
| TrivialModels.PredictionsLength | src/models/trivial_model.py:53-59 | There is one prediction per sample window across all batches, so an empty dataset gives an empty prediction. |
| TrivialModels.PredictionsAppend | src/models/trivial_model.py:54-57 | Predicting on two datasets concatenated equals concatenating their predictions. |
| TrivialModels.PredictionAt | src/models/trivial_model.py:54-57 | The prediction for sample s of batch b comes after the predictions of all earlier batches and equals `x[s][-1][0]`. |
| TrivialModels.LabelsIgnored | src/models/trivial_model.py:55 | Datasets that differ only in their labels give the same predictions. |
| TrivialModels.TrivialModel.constructor | src/models/trivial_model.py:16-23 | The model keeps the given name (default `trivial`) and parameters. |
| TrivialModels.TrivialModel.Train | src/models/trivial_model.py:25-40 | Training changes no state. |
| TrivialModels.TrivialModel.Predict | src/models/trivial_model.py:42-59 | The loop returns the batch-by-batch predictions of the dataset, one per sample window. |
| TrivialModels.TrivialModel.Save | src/models/trivial_model.py:61-67 | Saving changes no state. |
| TrivialModels.TrivialModel.Load | src/models/trivial_model.py:69-76 | Loading changes no state. |
| ModelFactory.UnknownModelMessage | src/models/model_factory.py:26-28 | The error message contains the model name at a fixed position. |
| ModelFactory.Get | src/models/model_factory.py:9-28 | `linear_regression` yields the linear-regression model. `prophet` and `rcnn` yield no model. Every other name raises a ValueError naming the model. The three branches are mutually exclusive. |
| ModelFactory.GetIsRegistryLookup | src/models/model_factory.py:17-28 | Get is a lookup in the three-entry registry. Names outside it raise with a message that names the model. |
| ModelFactory.OtherNamesRaise | src/models/model_factory.py:17-28 | `trivial` and `lstm` raise, and matching is exact and case-sensitive (`Linear_Regression`, `PROPHET` and `rcnn ` raise). |

## Findings

| source | as written | input that shows it | evidently intended | confidence | as-written member | corrected member |
|---|---|---|---|---|---|---|
| src/_modellab/model_evaluation.py:52 | each term is `abs(y_pred - y_true) / y_pred`, divided by the signed prediction | y_pred = [-2.0], y_true = [2.0] gives the term -2.0, so the "absolute" percentage error is negative (spot prices, and so predictions, can be negative) | every term of a mean absolute percentage error is non-negative | medium, not executed | ModelEvaluation.MapeTermNegativeForNegativePrediction | ModelEvaluation.AbsolutePercentageTerms |

## Left out

- The numeric metrics (r2, mean absolute error, mean squared error from sklearn; the mean in `_calc_mape`; the whole of `_calc_smape`). They are foreign calls and floating-point arithmetic, so `Evaluate` takes them as the `Scorers` parameter. NaN results (the mean of no terms, a zero denominator in smape) and the error that smape raises on empty input are not modelled.
- MapeTerm: y_pred and y_true are modelled as reals, so each term is an exact quotient with no float64 rounding, infinity or NaN. For example, `abs(1.0) / 49.0 * 49.0` is not exactly 1.0 in float64, and a NaN prediction passes the `y_pred != 0` mask in the source. Which positions the mask keeps and the choice of y_pred as the divisor are unaffected.
- Evaluate: the metric computations are total functions. sklearn raises its own ValueError for empty or unequal-length arrays, and so does numpy's broadcast in `_calc_mape`; the model does not capture those errors. Its "fails iff no score key is selected" holds only when every requested metric returns.
- MapeTerms: requires y_pred and y_true to have the same length. numpy broadcasting of unequal shapes is not modelled.
- Evaluate: the metric list is a list of strings. A single string passed in its place, where Python's `in` would test substrings, is not modelled.
- TrivialModels.TrivialModel.Predict: requires every batch to be rectangular, as numpy holds it as one array of shape (batch_size, window_size, num_features), with at least one time step and one feature. numpy raises an IndexError when a window is empty and refuses a ragged batch; those errors are not modelled.
- numpy `reshape` and `concatenate` in `predict`. The prediction is a flat sequence.
- The datasets are modelled as finite sequences of batches. Iteration over a streaming dataset is not modelled.
- The hyperparameter dictionary of the trivial model has string values. The model never reads it.
- The base model class (`src/models/model_interface.py`) is not part of this model. The constructor sets the two fields that the base class stores.
- The linear-regression model is not part of this model. The factory returns an opaque tag for it.
- The data layer (daylight-saving normalisation, the local cache merge, the dataset join, first differencing) and the grid-search experiment script. Their source is not part of this model.
