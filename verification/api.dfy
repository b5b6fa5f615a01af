/** The request handlers of the REST service, as operations over the one
    process-wide `ModelStorage`. A handler answers either with a body or
    with an HTTP error whose status depends on whether the failure was a
    `ValueError`. */
module Api {
  import opened Errors
  import opened Models
  import opened OrderedDicts
  import Registry
  import opened Storage

  datatype Response<T> = Success(body: T) | HttpError(statusCode: int, detail: string)

  datatype TrainRequest = TrainRequest(
    modelType: string,
    modelName: string,
    hyperparameters: Hyperparameters,
    xTrain: seq<Row>,
    yTrain: seq<real>)

  datatype TrainResponse = TrainResponse(message: string, modelName: string, modelType: string)

  datatype PredictRequest = PredictRequest(modelName: string, x: seq<Row>)

  datatype PredictResponse = PredictResponse(modelName: string, predictions: seq<real>)

  datatype StatusResponse = StatusResponse(status: string, message: string)

  /** The collaborators of `train_model` outside the store: the dataset
      store's local write, which may raise, and the numerical library. */
  datatype Services = Services(saveDataset: (string, Dataset) -> Option<Error>, library: Library)

  /** The two `except` clauses of a handler: a `ValueError` becomes the
      handler's own client status, anything else 500; the detail is the
      exception's message. */
  function ErrorResponse<T>(e: Error, valueErrorStatus: int): (r: Response<T>)
    ensures r.HttpError? && r.detail == e.message
    ensures r.statusCode == (if e.ValueError? then valueErrorStatus else 500)
  {
    match e
    case ValueError(message) => HttpError(valueErrorStatus, message)
    case OtherError(message) => HttpError(500, message)
  }

  const TrainedMessage: string := "Model trained successfully"

  function DeletedMessage(name: string): string {
    "Model '" + name + "' deleted successfully"
  }

  /** The dataset name `train_model` saves the training data under. */
  function TrainDatasetName(modelName: string): string {
    modelName + "_train_data"
  }

  /** The first failure of `train_model` after its optional delete: type
      lookup, construction, dataset write, training and finally the store's
      duplicate check, which can only fire when the name is cached without
      metadata (`staleCache`). */
  ghost function TrainFailure(request: TrainRequest, services: Services, staleCache: bool): Option<Error> {
    var kind := Registry.GetModelClass(request.modelType);
    var data := Dataset(request.xTrain, request.yTrain);
    if kind.Err? then Some(kind.error)
    else if "self" in request.hyperparameters then
      Some(OtherError(MultipleValuesMessage(ClassName(kind.value) + ".__init__", "self")))
    else if services.saveDataset(TrainDatasetName(request.modelName), data).Some? then
      services.saveDataset(TrainDatasetName(request.modelName), data)
    else if services.library.fitError(ConfigFor(kind.value, request.hyperparameters), data).Some? then
      services.library.fitError(ConfigFor(kind.value, request.hyperparameters), data)
    else if staleCache then Some(ValueError(AlreadyExistsMessage(request.modelName)))
    else None
  }

  /** The state of the model a successful `train_model` stores: a model of
      the requested variant, built from the request's mapping and fitted on
      the request's training data. */
  ghost function TrainedState(request: TrainRequest, services: Services): (s: ModelState)
    requires TrainFailure(request, services, false).None?
    ensures s.WellFormed() && s.isTrained
    ensures Registry.TypeName(s.kind) == request.modelType && s.hyperparameters == request.hyperparameters
    ensures s.estimator.value.fittedOn == Some(Dataset(request.xTrain, request.yTrain))
  {
    var kind := Registry.GetModelClass(request.modelType).value;
    Fit(Initial(kind, request.hyperparameters), Dataset(request.xTrain, request.yTrain), services.library).value
  }

  /** The stale-cache failure comes last: it only shows when every earlier
      step succeeds. */
  lemma StaleCacheFailsLast(request: TrainRequest, services: Services, stale: bool)
    ensures TrainFailure(request, services, false).Some? ==>
              TrainFailure(request, services, stale) == TrainFailure(request, services, false)
    ensures TrainFailure(request, services, false).None? ==>
              TrainFailure(request, services, stale) == if stale then Some(ValueError(AlreadyExistsMessage(request.modelName))) else None
  {
  }

  /** Dropping a key and then setting it is setting it. */
  lemma SetAfterDrop<V>(m: map<string, V>, name: string, v: V)
    ensures (m - {name})[name := v] == m[name := v]
  {
  }

  /** The first step of `train_model`: a model that exists (has metadata) is
      deleted before anything else happens. */
  method DeleteIfExists(storage: ModelStorage, name: string)
    modifies storage
    ensures var existed := name in old(storage.metadata.entries);
            && storage.models == (if existed then old(storage.models) - {name} else old(storage.models))
            && storage.artifacts == (if existed then old(storage.artifacts) - {name} else old(storage.artifacts))
            && storage.metadata == Pop(old(storage.metadata), name)
            && storage.metadataFile == (if existed then Some(storage.metadata) else old(storage.metadataFile))
    ensures !storage.ModelExists(name)
    ensures old(storage.Consistent()) ==> storage.Consistent()
  {
    if storage.ModelExists(name) {
      var deleted := storage.DeleteModel(name);
      assert deleted.Pass?;
    }
  }

  /** The middle of `train_model`: resolve the type, build the model, write
      the training data to the dataset store, and train. */
  method BuildAndTrain(request: TrainRequest, services: Services) returns (r: Result<MLModel>)
    ensures r.Err? ==> TrainFailure(request, services, false) == Some(r.error)
    ensures r.Ok? ==> && TrainFailure(request, services, false).None?
                      && fresh(r.value)
                      && r.value.State() == TrainedState(request, services)
  {
    var kind := Registry.GetModelClass(request.modelType);
    if kind.Err? {
      return Err(kind.error);
    }
    var built := Instantiate(kind.value, request.hyperparameters);
    if built.Err? {
      return Err(built.error);
    }
    var model := built.value;
    var data := Dataset(request.xTrain, request.yTrain);

    var datasetError := services.saveDataset(TrainDatasetName(request.modelName), data);
    if datasetError.Some? {
      return Err(datasetError.value);
    }

    var trained := model.Train(request.xTrain, request.yTrain, services.library);
    if trained.Fail? {
      return Err(trained.error);
    }
    r := Ok(model);
  }

  /** The rest of `train_model` once the name has no metadata: build and
      train, then save. The store changes only when everything succeeds. */
  method TrainAndSave(storage: ModelStorage, request: TrainRequest, services: Services)
    returns (response: Response<TrainResponse>)
    requires !storage.ModelExists(request.modelName)
    modifies storage
    ensures var name := request.modelName;
            var failure := TrainFailure(request, services, name in old(storage.models));
            && (failure.Some? ==> response == ErrorResponse(failure.value, 400))
            && (failure.None? ==> response == Success(TrainResponse(TrainedMessage, name, request.modelType)))
    ensures response.HttpError? ==> unchanged(storage)
    ensures response.Success? ==> TrainFailure(request, services, false).None?
    ensures var name := request.modelName;
            response.Success? ==>
              && name in storage.models
              && fresh(storage.models[name])
              && storage.models[name].State() == TrainedState(request, services)
              && storage.models == old(storage.models)[name := storage.models[name]]
              && storage.artifacts == old(storage.artifacts)[name := TrainedState(request, services)]
              && storage.metadata == Put(old(storage.metadata), name, Metadata(request.modelType, request.hyperparameters))
              && storage.metadataFile == Some(storage.metadata)
    ensures old(storage.Consistent()) ==> storage.Consistent()
  {
    var name := request.modelName;
    var built := BuildAndTrain(request, services);
    StaleCacheFailsLast(request, services, name in storage.models);
    if built.Err? {
      return ErrorResponse(built.error, 400);
    }
    var saved := storage.SaveModel(name, built.value, request.modelType);
    if saved.Fail? {
      return ErrorResponse(saved.error, 400);
    }
    response := Success(TrainResponse(TrainedMessage, name, request.modelType));
  }

  /** POST /models/train: delete an existing model of that name, then
      resolve the type, build, train and save. Experiment tracking swallows
      its own failures and so has no effect here. A retrained name moves to
      the end of the listing, because the delete drops its metadata key and
      the save inserts it again. */
  method TrainModel(storage: ModelStorage, request: TrainRequest, services: Services)
    returns (response: Response<TrainResponse>)
    modifies storage
    ensures var name := request.modelName;
            var stale := name in old(storage.models) && name !in old(storage.metadata.entries);
            var failure := TrainFailure(request, services, stale);
            && (failure.Some? ==> response == ErrorResponse(failure.value, 400))
            && (failure.None? ==> response == Success(TrainResponse(TrainedMessage, name, request.modelType)))
    ensures old(storage.Consistent()) ==> (response.Success? <==> TrainFailure(request, services, false).None?)
    ensures var name := request.modelName;
            var existed := name in old(storage.metadata.entries);
            response.HttpError? ==>
              && storage.models == (if existed then old(storage.models) - {name} else old(storage.models))
              && storage.artifacts == (if existed then old(storage.artifacts) - {name} else old(storage.artifacts))
              && storage.metadata == Pop(old(storage.metadata), name)
              && storage.metadataFile == (if existed then Some(storage.metadata) else old(storage.metadataFile))
    ensures var name := request.modelName;
            response.Success? ==>
              && name in storage.models
              && fresh(storage.models[name])
              && storage.models[name].State() == TrainedState(request, services)
              && storage.models == old(storage.models)[name := storage.models[name]]
              && storage.artifacts == old(storage.artifacts)[name := TrainedState(request, services)]
              && storage.metadata == Put(Pop(old(storage.metadata), name), name,
                                         Metadata(request.modelType, request.hyperparameters))
              && storage.metadataFile == Some(storage.metadata)
    ensures var name := request.modelName;
            response.Success? ==>
              && storage.GetModelInfo(name) == Ok(ModelInfo(name, request.modelType, request.hyperparameters))
              && storage.ListModels() == Remove(old(storage.ListModels()), name) + [name]
    ensures old(storage.Consistent()) ==> storage.Consistent()
  {
    var name := request.modelName;
    DeleteIfExists(storage, name);
    label deleted:
    response := TrainAndSave(storage, request, services);
    if response.Success? {
      SetAfterDrop(old(storage.models), name, storage.models[name]);
      SetAfterDrop(old(storage.artifacts), name, storage.models[name].State());
      assert storage.metadata.order == old@deleted(storage.metadata.order) + [name];
    }
  }

  /** The response `predict` gives for a prediction outcome. */
  function PredictResponseFor(name: string, outcome: Result<seq<real>>): (r: Response<PredictResponse>)
    ensures r.Success? <==> outcome.Ok?
    ensures r.Success? ==> r.body == PredictResponse(name, outcome.value)
    ensures r.HttpError? ==> && r.statusCode == (if outcome.error.ValueError? then 404 else 500)
                             && r.detail == outcome.error.message
  {
    match outcome
    case Ok(predictions) => Success(PredictResponse(name, predictions))
    case Err(e) => ErrorResponse(e, 404)
  }

  /** POST /models/predict: load the model (from the cache, else from its
      artifact file) and predict. Any `ValueError`, "not trained" included,
      answers 404. */
  method Predict(storage: ModelStorage, request: PredictRequest, library: Library)
    returns (response: Response<PredictResponse>)
    modifies storage`models
    ensures var name := request.modelName;
            name in old(storage.models) ==>
              response == PredictResponseFor(name, PredictOutcome(old(storage.models[name].State()), request.x, library))
    ensures var name := request.modelName;
            name !in old(storage.models) && name !in storage.artifacts ==>
              response == HttpError(404, NotFoundMessage(name))
    ensures var name := request.modelName;
            name !in old(storage.models) && name in storage.artifacts ==>
              response == PredictResponseFor(name, PredictOutcome(storage.artifacts[name], request.x, library))
    ensures response.Success? ==>
              response.body.modelName == request.modelName && |response.body.predictions| == |request.x|
    ensures var name := request.modelName;
            name in old(storage.models) || name !in storage.artifacts ==> storage.models == old(storage.models)
    ensures var name := request.modelName;
            name !in old(storage.models) && name in storage.artifacts ==>
              && name in storage.models
              && fresh(storage.models[name])
              && storage.models[name].State() == storage.artifacts[name]
              && storage.models == old(storage.models)[name := storage.models[name]]
    ensures old(storage.Consistent()) ==> storage.Consistent()
  {
    var loaded := storage.LoadModel(request.modelName);
    if loaded.Err? {
      return ErrorResponse(loaded.error, 404);
    }
    var predictions := loaded.value.Predict(request.x, library);
    if predictions.Err? {
      return ErrorResponse(predictions.error, 404);
    }
    response := Success(PredictResponse(request.modelName, predictions.value));
  }

  /** DELETE /models/{model_name} */
  method DeleteModel(storage: ModelStorage, name: string) returns (response: Response<StatusResponse>)
    modifies storage
    ensures response.HttpError? <==> name !in old(storage.models) && name !in old(storage.metadata.entries)
    ensures response.HttpError? ==> response == HttpError(404, NotFoundMessage(name)) && unchanged(storage)
    ensures response.Success? ==>
              && response.body == StatusResponse("success", DeletedMessage(name))
              && storage.models == old(storage.models) - {name}
              && storage.artifacts == old(storage.artifacts) - {name}
              && storage.metadata == Pop(old(storage.metadata), name)
              && storage.metadataFile == Some(storage.metadata)
              && !storage.ModelExists(name)
    ensures old(storage.Consistent()) ==> storage.Consistent()
  {
    var deleted := storage.DeleteModel(name);
    if deleted.Fail? {
      return ErrorResponse(deleted.error, 404);
    }
    response := Success(StatusResponse("success", DeletedMessage(name)));
  }

  /** GET /models/{model_name} */
  method GetModelInfo(storage: ModelStorage, name: string) returns (response: Response<ModelInfo>)
    ensures response.Success? <==> storage.ModelExists(name)
    ensures response.HttpError? ==> response == HttpError(404, NotFoundMessage(name))
    ensures response.Success? ==> response.body.name == name && Ok(response.body) == storage.GetModelInfo(name)
  {
    var info := storage.GetModelInfo(name);
    if info.Err? {
      return ErrorResponse(info.error, 404);
    }
    response := Success(info.value);
  }

  /** GET /models: one record per stored name, in the store's order. */
  method ListTrainedModels(storage: ModelStorage) returns (response: Response<seq<ModelInfo>>)
    ensures response.Success?
    ensures |response.body| == |storage.ListModels()|
    ensures forall i :: 0 <= i < |response.body| ==>
              && response.body[i].name == storage.ListModels()[i]
              && Ok(response.body[i]) == storage.GetModelInfo(storage.ListModels()[i])
  {
    var names := storage.ListModels();
    var infos: seq<ModelInfo> := [];
    for i := 0 to |names|
      invariant |infos| == i
      invariant forall j :: 0 <= j < i ==> infos[j].name == names[j] && Ok(infos[j]) == storage.GetModelInfo(names[j])
    {
      assert names[i] in names;
      var info := storage.GetModelInfo(names[i]);
      infos := infos + [info.value];
    }
    response := Success(infos);
  }

  /** GET /models/types: one record per registered type, in registration order. */
  method ListModelTypes() returns (response: Response<seq<Registry.ModelTypeInfo>>)
    ensures response == Success(Registry.GetAllModelsInfo())
    ensures |response.body| == |Registry.ListModelTypes()|
    ensures forall i :: 0 <= i < |response.body| ==>
              && response.body[i].name == Registry.ListModelTypes()[i]
              && Ok(response.body[i]) == Registry.GetModelInfo(Registry.ListModelTypes()[i])
  {
    response := Success(Registry.GetAllModelsInfo());
  }

  /** Training twice under one name succeeds both times; the second model
      replaces the first, and the name ends up last in the listing. */
  method RetrainUnderSameName(storage: ModelStorage, request: TrainRequest, services: Services)
    returns (first: Response<TrainResponse>, second: Response<TrainResponse>)
    requires storage.Consistent()
    requires TrainFailure(request, services, false).None?
    modifies storage
    ensures first.Success? && second.Success?
    ensures storage.Consistent() && storage.ModelExists(request.modelName)
    ensures storage.ListModels() == Remove(old(storage.ListModels()), request.modelName) + [request.modelName]
  {
    ghost var names := storage.ListModels();
    first := TrainModel(storage, request, services);
    second := TrainModel(storage, request, services);
    RemoveAppended(Remove(names, request.modelName), request.modelName);
  }
}
