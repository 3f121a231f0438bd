/** The model factory: it maps a model name to a model instance. */
module ModelFactory {
  import opened Results

  /** The model classes the factory constructs. The linear-regression model's
      own behaviour lies outside this model; it is a tag here. */
  datatype ModelInstance = LinearRegressionModel

  const ErrorPrefix: string := "The model with the name \""
  const ErrorSuffix: string := "\" does not exist!"

  /** The message of the ValueError raised for an unknown name. */
  function UnknownModelMessage(modelName: string): (msg: string)
    ensures |msg| == |ErrorPrefix| + |modelName| + |ErrorSuffix|
    ensures msg[|ErrorPrefix|..|ErrorPrefix| + |modelName|] == modelName
  {
    ErrorPrefix + modelName + ErrorSuffix
  }

  /** The names the factory accepts and what each yields; the two placeholder
      names yield no model. */
  const Registry: map<string, Option<ModelInstance>> :=
    map["linear_regression" := Some(LinearRegressionModel), "prophet" := None, "rcnn" := None]

  /** Returns the model registered under exactly `modelName`; raises for any other name. */
  function Get(modelName: string): (r: Result<Option<ModelInstance>>)
    ensures r == Ok(Some(LinearRegressionModel)) <==> modelName == "linear_regression"
    ensures r == Ok(None) <==> modelName == "prophet" || modelName == "rcnn"
    ensures r.Err? <==> modelName !in {"linear_regression", "prophet", "rcnn"}
    ensures r.Err? ==> r.error == ValueError(UnknownModelMessage(modelName))
  {
    if modelName == "linear_regression" then
      Ok(Some(LinearRegressionModel))
    else if modelName == "prophet" then
      Ok(None)
    else if modelName == "rcnn" then
      Ok(None)
    else
      Err(ValueError(UnknownModelMessage(modelName)))
  }

  /** The factory is a lookup in the registry, failing with a message that names the model. */
  lemma GetIsRegistryLookup(modelName: string)
    ensures modelName in Registry ==> Get(modelName) == Ok(Registry[modelName])
    ensures modelName !in Registry ==>
              Get(modelName).Err? &&
              Get(modelName).error.message[|ErrorPrefix|..|ErrorPrefix| + |modelName|] == modelName
  {
  }

  /** Matching is exact and case-sensitive; other model names known elsewhere raise. */
  lemma OtherNamesRaise()
    ensures Get("trivial").Err? && Get("lstm").Err?
    ensures Get("Linear_Regression").Err? && Get("PROPHET").Err? && Get("rcnn ").Err?
  {
  }
}
