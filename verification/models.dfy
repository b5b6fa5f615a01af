/** The model abstraction: a model holds the hyperparameter mapping it was
    constructed with, a numerical estimator built from the documented keys
    of that mapping, and a flag saying whether it has been trained.

    The three variants (linear regression, logistic regression, random
    forest) share one class, `MLModel`, tagged by `ModelKind`; what differs
    per variant (which keys the estimator reads and their defaults, the
    hyperparameter documentation, the description) is a function of the tag.
    The numerical library behind the estimators is the `Library` parameter:
    it decides whether a fit or a prediction is rejected and what is
    predicted for a row. */
module Models {
  import opened Errors

  /** A hyperparameter value as it arrives in a request. */
  datatype HyperValue =
    | NoneValue
    | BoolValue(b: bool)
    | IntValue(i: int)
    | FloatValue(f: real)
    | StrValue(s: string)

  type Hyperparameters = map<string, HyperValue>

  type Row = seq<real>

  /** Training features (one row per sample) and targets. */
  datatype Dataset = Dataset(x: seq<Row>, y: seq<real>)

  datatype ModelKind = LinearRegression | LogisticRegression | RandomForest

  /** The keyword arguments each variant hands to its library estimator. */
  datatype EstimatorConfig =
    | LinearRegressionConfig(fitIntercept: HyperValue)
    | LogisticRegressionConfig(c: HyperValue, maxIter: HyperValue)
    | RandomForestConfig(nEstimators: HyperValue, maxDepth: HyperValue, randomState: HyperValue)

  /** A library estimator: its configuration and, once fitted, the data it
      was fitted on (fitting is deterministic given the configuration, which
      includes the random seed). */
  datatype Estimator = Estimator(config: EstimatorConfig, fittedOn: Option<Dataset>)

  /** The numerical library, which this model does not reimplement. */
  datatype Library = Library(
    fitError: (EstimatorConfig, Dataset) -> Option<Error>,
    predictError: (Estimator, seq<Row>) -> Option<Error>,
    predictRow: (Estimator, Row) -> real)

  /** Everything a model object holds; also what its artifact file stores. */
  datatype ModelState = ModelState(
    kind: ModelKind,
    hyperparameters: Hyperparameters,
    estimator: Option<Estimator>,
    isTrained: bool)
  {
    /** The state of every constructed model: the estimator is present, was
        built from the hyperparameters, and is fitted exactly when the model
        is marked trained. */
    ghost predicate WellFormed() {
      && estimator.Some?
      && estimator.value.config == ConfigFor(kind, hyperparameters)
      && (isTrained <==> estimator.value.fittedOn.Some?)
    }
  }

  /** The documented hyperparameters of each variant and their defaults. */
  function Defaults(kind: ModelKind): map<string, HyperValue> {
    match kind
    case LinearRegression => map["fit_intercept" := BoolValue(true)]
    case LogisticRegression => map["C" := FloatValue(1.0), "max_iter" := IntValue(100)]
    case RandomForest =>
      map["n_estimators" := IntValue(100), "max_depth" := NoneValue, "random_state" := IntValue(42)]
  }

  /** The keyword arguments of an estimator configuration, by name. */
  function Settings(c: EstimatorConfig): map<string, HyperValue> {
    match c
    case LinearRegressionConfig(fitIntercept) => map["fit_intercept" := fitIntercept]
    case LogisticRegressionConfig(cValue, maxIter) => map["C" := cValue, "max_iter" := maxIter]
    case RandomForestConfig(nEstimators, maxDepth, randomState) =>
      map["n_estimators" := nEstimators, "max_depth" := maxDepth, "random_state" := randomState]
  }

  function KindOf(c: EstimatorConfig): ModelKind {
    match c
    case LinearRegressionConfig(_) => LinearRegression
    case LogisticRegressionConfig(_, _) => LogisticRegression
    case RandomForestConfig(_, _, _) => RandomForest
  }

  /** `hyperparameters.get(key, default)` */
  function Get(h: Hyperparameters, key: string, default: HyperValue): HyperValue {
    if key in h then h[key] else default
  }

  /** Each documented key takes its value from `h` when present there and its
      default otherwise; no other key takes part. */
  function Override(defaults: map<string, HyperValue>, h: Hyperparameters): map<string, HyperValue> {
    map k | k in defaults :: if k in h then h[k] else defaults[k]
  }

  /** The estimator a variant's constructor builds from its keyword arguments. */
  function ConfigFor(kind: ModelKind, h: Hyperparameters): (c: EstimatorConfig)
    ensures KindOf(c) == kind
    ensures Settings(c) == Override(Defaults(kind), h)
  {
    match kind
    case LinearRegression => LinearRegressionConfig(Get(h, "fit_intercept", BoolValue(true)))
    case LogisticRegression => LogisticRegressionConfig(Get(h, "C", FloatValue(1.0)), Get(h, "max_iter", IntValue(100)))
    case RandomForest =>
      RandomForestConfig(Get(h, "n_estimators", IntValue(100)), Get(h, "max_depth", NoneValue),
                         Get(h, "random_state", IntValue(42)))
  }

  /** Two configurations of the same variant with the same keyword arguments
      are the same configuration. */
  lemma SettingsDetermineConfig(c1: EstimatorConfig, c2: EstimatorConfig)
    requires KindOf(c1) == KindOf(c2) && Settings(c1) == Settings(c2)
    ensures c1 == c2
  {
    match c1
    case LinearRegressionConfig(_) =>
      assert c1.fitIntercept == Settings(c1)["fit_intercept"] == c2.fitIntercept;
    case LogisticRegressionConfig(_, _) =>
      assert c1.c == Settings(c1)["C"] == c2.c;
      assert c1.maxIter == Settings(c1)["max_iter"] == c2.maxIter;
    case RandomForestConfig(_, _, _) =>
      assert c1.nEstimators == Settings(c1)["n_estimators"] == c2.nEstimators;
      assert c1.maxDepth == Settings(c1)["max_depth"] == c2.maxDepth;
      assert c1.randomState == Settings(c1)["random_state"] == c2.randomState;
  }

  /** Keys a variant does not document never influence its estimator: two
      mappings that agree on the documented keys build the same estimator. */
  lemma ConfigIgnoresUndocumentedKeys(kind: ModelKind, h1: Hyperparameters, h2: Hyperparameters)
    requires forall k :: k in Defaults(kind) ==> (k in h1 <==> k in h2)
    requires forall k :: k in Defaults(kind) && k in h1 ==> h1[k] == h2[k]
    ensures ConfigFor(kind, h1) == ConfigFor(kind, h2)
  {
    assert Override(Defaults(kind), h1) == Override(Defaults(kind), h2);
    SettingsDetermineConfig(ConfigFor(kind, h1), ConfigFor(kind, h2));
  }

  /** `get_hyperparameter_info()` of each variant. */
  function HyperparameterInfo(kind: ModelKind): (docs: map<string, string>)
    ensures docs.Keys == Defaults(kind).Keys
  {
    match kind
    case LinearRegression =>
      map["fit_intercept" := "bool: whether to calculate intercept (default: true)"]
    case LogisticRegression =>
      map["C" := "float: inverse of regularization strength (default: 1.0)",
          "max_iter" := "int: maximum iterations (default: 100)"]
    case RandomForest =>
      map["n_estimators" := "int: number of trees in the forest (default: 100)",
          "max_depth" := "int: maximum depth of trees (default: None)",
          "random_state" := "int: random seed (default: 42)"]
  }

  /** `get_description()` of each variant. */
  function Description(kind: ModelKind): (d: string)
    ensures kind == LinearRegression ==> d == "Linear Regression model for regression tasks"
    ensures kind == LogisticRegression ==> d == "Logistic Regression model for binary classification"
    ensures kind == RandomForest ==> d == "Random Forest model for classification tasks"
  {
    match kind
    case LinearRegression => "Linear Regression model for regression tasks"
    case LogisticRegression => "Logistic Regression model for binary classification"
    case RandomForest => "Random Forest model for classification tasks"
  }

  /** No two variants share a description, so a description identifies the
      variant it documents. */
  lemma DescriptionIdentifiesVariant(k1: ModelKind, k2: ModelKind)
    ensures Description(k1) == Description(k2) <==> k1 == k2
  {
  }

  /** The Python class name of each variant. */
  function ClassName(kind: ModelKind): string {
    match kind
    case LinearRegression => "LinearRegressionModel"
    case LogisticRegression => "LogisticRegressionModel"
    case RandomForest => "RandomForestModel"
  }

  /** The state of a newly constructed model: the whole mapping is kept, the
      estimator is built from it and is not fitted, and the model is not
      trained. */
  function Initial(kind: ModelKind, h: Hyperparameters): (s: ModelState)
    ensures s.kind == kind && s.hyperparameters == h && !s.isTrained
    ensures s.WellFormed()
  {
    ModelState(kind, h, Some(Estimator(ConfigFor(kind, h), None)), false)
  }

  /** `train`: fit the estimator from scratch and mark the model trained.
      There is no guard against training twice. */
  function Fit(s: ModelState, d: Dataset, lib: Library): (r: Result<ModelState>)
    ensures r.Ok? <==> s.estimator.Some? && lib.fitError(s.estimator.value.config, d).None?
    ensures r.Ok? ==> && r.value.isTrained
                      && r.value.kind == s.kind
                      && r.value.hyperparameters == s.hyperparameters
                      && r.value.estimator == Some(Estimator(s.estimator.value.config, Some(d)))
    ensures s.WellFormed() && r.Ok? ==> r.value.WellFormed()
    ensures s.estimator.None? ==> r == Err(OtherError(NoneAttributeMessage("fit")))
    ensures s.estimator.Some? && lib.fitError(s.estimator.value.config, d).Some? ==>
              r == Err(lib.fitError(s.estimator.value.config, d).value)
  {
    match s.estimator
    case None => Err(OtherError(NoneAttributeMessage("fit")))
    case Some(e) =>
      match lib.fitError(e.config, d)
      case Some(err) => Err(err)
      case None => Ok(s.(estimator := Some(e.(fittedOn := Some(d))), isTrained := true))
  }

  /** `predict`: refuse an untrained model, otherwise one library prediction
      per input row. */
  function PredictOutcome(s: ModelState, x: seq<Row>, lib: Library): (r: Result<seq<real>>)
    ensures !s.isTrained ==> r == Err(ValueError(NotTrainedMessage))
    ensures r.Ok? <==> s.isTrained && s.estimator.Some? && lib.predictError(s.estimator.value, x).None?
    ensures r.Ok? ==> && |r.value| == |x|
                      && forall i :: 0 <= i < |x| ==> r.value[i] == lib.predictRow(s.estimator.value, x[i])
    ensures s.isTrained && s.estimator.None? ==> r == Err(OtherError(NoneAttributeMessage("predict")))
    ensures s.isTrained && s.estimator.Some? && lib.predictError(s.estimator.value, x).Some? ==>
              r == Err(lib.predictError(s.estimator.value, x).value)
  {
    if !s.isTrained then Err(ValueError(NotTrainedMessage))
    else
      match s.estimator
      case None => Err(OtherError(NoneAttributeMessage("predict")))
      case Some(e) =>
        match lib.predictError(e, x)
        case Some(err) => Err(err)
        case None => Ok(seq(|x|, i requires 0 <= i < |x| => lib.predictRow(e, x[i])))
  }

  /** A model that was never trained refuses every prediction. */
  lemma FreshModelCannotPredict(kind: ModelKind, h: Hyperparameters, x: seq<Row>, lib: Library)
    ensures PredictOutcome(Initial(kind, h), x, lib) == Err(ValueError(NotTrainedMessage))
  {
  }

  /** Once a well-formed model has been fitted, a prediction the library
      accepts yields exactly one value per input row. */
  lemma TrainedModelPredictsEveryRow(s: ModelState, d: Dataset, x: seq<Row>, lib: Library)
    requires s.WellFormed()
    requires lib.fitError(s.estimator.value.config, d).None?
    requires lib.predictError(Estimator(s.estimator.value.config, Some(d)), x).None?
    ensures Fit(s, d, lib).Ok?
    ensures var p := PredictOutcome(Fit(s, d, lib).value, x, lib); p.Ok? && |p.value| == |x|
  {
  }

  /** Training a trained model again is allowed: it succeeds on the same
      terms as the first time, the model stays trained and the estimator is
      refitted on the new data only. */
  lemma RetrainingIsAllowed(s: ModelState, d1: Dataset, d2: Dataset, lib: Library)
    requires Fit(s, d1, lib).Ok?
    ensures Fit(Fit(s, d1, lib).value, d2, lib).Ok? <==> lib.fitError(s.estimator.value.config, d2).None?
    ensures Fit(Fit(s, d1, lib).value, d2, lib).Ok? ==> Fit(Fit(s, d1, lib).value, d2, lib) == Fit(s, d2, lib)
  {
  }

  /** A model object: BaseMLModel together with the variant it was built as. */
  class MLModel {
    const kind: ModelKind
    var hyperparameters: Hyperparameters
    var estimator: Option<Estimator>
    var isTrained: bool

    function State(): ModelState
      reads this
    {
      ModelState(kind, hyperparameters, estimator, isTrained)
    }

    ghost predicate Valid()
      reads this
    {
      State().WellFormed()
    }

    /** `LinearRegressionModel(**h)`, `LogisticRegressionModel(**h)` or
        `RandomForestModel(**h)`: the base part stores the whole mapping,
        unrecognised keys included, and leaves the estimator unset and the
        model untrained; the variant part then builds the estimator. */
    constructor (kind: ModelKind, hyperparameters: Hyperparameters)
      ensures this.kind == kind && this.hyperparameters == hyperparameters
      ensures estimator == Some(Estimator(ConfigFor(kind, hyperparameters), None))
      ensures !isTrained
      ensures State() == Initial(kind, hyperparameters) && Valid()
    {
      this.kind := kind;
      this.hyperparameters := hyperparameters;
      estimator := None;
      isTrained := false;
      new;
      estimator := Some(Estimator(ConfigFor(kind, hyperparameters), None));
    }

    /** The object an artifact file deserialises to. */
    constructor Restore(s: ModelState)
      ensures State() == s
    {
      kind := s.kind;
      hyperparameters := s.hyperparameters;
      estimator := s.estimator;
      isTrained := s.isTrained;
    }

    method Train(x: seq<Row>, y: seq<real>, lib: Library) returns (r: Outcome)
      modifies this
      ensures var f := Fit(old(State()), Dataset(x, y), lib);
              && (f.Ok? ==> r == Pass && State() == f.value)
              && (f.Err? ==> r == Fail(f.error) && State() == old(State()))
      ensures old(Valid()) ==> Valid()
    {
      if estimator.None? {
        return Fail(OtherError(NoneAttributeMessage("fit")));
      }
      var fitError := lib.fitError(estimator.value.config, Dataset(x, y));
      if fitError.Some? {
        return Fail(fitError.value);
      }
      estimator := Some(estimator.value.(fittedOn := Some(Dataset(x, y))));
      isTrained := true;
      r := Pass;
    }

    method Predict(x: seq<Row>, lib: Library) returns (r: Result<seq<real>>)
      ensures r == PredictOutcome(State(), x, lib)
    {
      if !isTrained {
        return Err(ValueError(NotTrainedMessage));
      }
      if estimator.None? {
        return Err(OtherError(NoneAttributeMessage("predict")));
      }
      var e := estimator.value;
      var predictError := lib.predictError(e, x);
      if predictError.Some? {
        return Err(predictError.value);
      }
      r := Ok(seq(|x|, i requires 0 <= i < |x| => lib.predictRow(e, x[i])));
    }
  }

  /** `model_class(**h)`: the keyword `self` collides with the bound instance
      and raises a `TypeError` before the constructor runs; any other mapping
      constructs the model. */
  method Instantiate(kind: ModelKind, h: Hyperparameters) returns (r: Result<MLModel>)
    ensures r.Err? <==> "self" in h
    ensures r.Err? ==> r.error == OtherError(MultipleValuesMessage(ClassName(kind) + ".__init__", "self"))
    ensures r.Ok? ==> fresh(r.value) && r.value.State() == Initial(kind, h) && r.value.Valid()
  {
    if "self" in h {
      return Err(OtherError(MultipleValuesMessage(ClassName(kind) + ".__init__", "self")));
    }
    var model := new MLModel(kind, h);
    r := Ok(model);
  }
}
