/** The model type registry: a constant table from type name to model
    variant, in registration order, with lookups over it. Nothing here
    changes state. */
module Registry {
  import opened Errors
  import opened Models
  import opened OrderedDicts

  /** What the registry tells about a model type. */
  datatype ModelTypeInfo = ModelTypeInfo(name: string, description: string, hyperparameters: map<string, string>)

  type Entry = (string, ModelKind)

  /** `ModelRegistry._models`, in registration order. */
  const Entries: seq<Entry> := [
    ("linear_regression", LinearRegression),
    ("logistic_regression", LogisticRegression),
    ("random_forest", RandomForest)
  ]

  /** The names of a table, in its order. */
  function Names(entries: seq<Entry>): (names: seq<string>)
    ensures |names| == |entries|
    ensures forall i :: 0 <= i < |entries| ==> names[i] == entries[i].0
  {
    if entries == [] then [] else [entries[0].0] + Names(entries[1..])
  }

  /** Dictionary lookup in a table. */
  function Lookup(entries: seq<Entry>, name: string): (r: Option<ModelKind>)
    ensures r.None? <==> name !in Names(entries)
    ensures r.Some? ==> (name, r.value) in entries
  {
    if entries == [] then None
    else if entries[0].0 == name then Some(entries[0].1)
    else
      var r := Lookup(entries[1..], name);
      assert Names(entries) == [entries[0].0] + Names(entries[1..]);
      r
  }

  /** The registered name of each variant. */
  function TypeName(kind: ModelKind): string {
    match kind
    case LinearRegression => "linear_regression"
    case LogisticRegression => "logistic_regression"
    case RandomForest => "random_forest"
  }

  /** `list_model_types()` */
  function ListModelTypes(): (types: seq<string>)
    ensures types == ["linear_regression", "logistic_regression", "random_forest"]
    ensures Distinct(types)
  {
    Names(Entries)
  }

  /** `get_model_class(model_type)` */
  function GetModelClass(modelType: string): (r: Result<ModelKind>)
    ensures r.Ok? <==> modelType in ListModelTypes()
    ensures r.Ok? ==> (modelType, r.value) in Entries && TypeName(r.value) == modelType
    ensures r.Err? ==> r.error == ValueError(UnknownTypeMessage(modelType, ListModelTypes()))
  {
    match Lookup(Entries, modelType)
    case Some(kind) => Ok(kind)
    case None => Err(ValueError(UnknownTypeMessage(modelType, Names(Entries))))
  }

  /** Every variant is registered under its name, and only there. */
  lemma RegisteredUnderItsName(kind: ModelKind, modelType: string)
    ensures GetModelClass(modelType) == Ok(kind) <==> modelType == TypeName(kind)
  {
    match kind
    case LinearRegression => assert Entries[0] == ("linear_regression", kind);
    case LogisticRegression => assert Entries[1] == ("logistic_regression", kind);
    case RandomForest => assert Entries[2] == ("random_forest", kind);
  }

  /** `get_model_info(model_type)` */
  function GetModelInfo(modelType: string): (r: Result<ModelTypeInfo>)
    ensures r.Ok? <==> GetModelClass(modelType).Ok?
    ensures r.Err? ==> r.error == GetModelClass(modelType).error
    ensures r.Ok? ==> var kind := GetModelClass(modelType).value;
                      r.value == ModelTypeInfo(modelType, Description(kind), HyperparameterInfo(kind))
  {
    match GetModelClass(modelType)
    case Err(e) => Err(e)
    case Ok(kind) => Ok(ModelTypeInfo(modelType, Description(kind), HyperparameterInfo(kind)))
  }

  /** `get_all_models_info()` */
  function GetAllModelsInfo(): (infos: seq<ModelTypeInfo>)
    ensures |infos| == |ListModelTypes()|
    ensures forall i :: 0 <= i < |infos| ==>
              infos[i].name == ListModelTypes()[i] && Ok(infos[i]) == GetModelInfo(ListModelTypes()[i])
  {
    var types := ListModelTypes();
    seq(|types|, i requires 0 <= i < |types| =>
      assert types[i] in types;
      GetModelInfo(types[i]).value)
  }
}
