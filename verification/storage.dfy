/** The model store: an in-memory cache of model objects, an in-memory
    metadata dictionary, and a local directory holding one artifact file per
    model plus a metadata file that is rewritten in full after every
    mutation. */
module Storage {
  import opened Errors
  import opened Models
  import opened OrderedDicts

  /** The metadata entry of one stored model. */
  datatype Metadata = Metadata(modelType: string, hyperparameters: Hyperparameters)

  /** What `get_model_info` reports. */
  datatype ModelInfo = ModelInfo(name: string, modelType: string, hyperparameters: Hyperparameters)

  class ModelStorage {
    /** `_models`: the cache from name to model object. */
    var models: map<string, MLModel>
    /** `_metadata`: name to type and hyperparameters, in insertion order. */
    var metadata: OrderedDict<Metadata>
    /** The `<name>.joblib` files of the storage directory and the model
        state each one holds. */
    var artifacts: map<string, ModelState>
    /** The content of `metadata.json`, `None` while the file is absent. */
    var metadataFile: Option<OrderedDict<Metadata>>

    /** Every model with metadata has an artifact file and conversely, and
        every cached model has metadata. */
    ghost predicate Consistent()
      reads this
    {
      artifacts.Keys == metadata.entries.Keys && models.Keys <= metadata.entries.Keys
    }

    /** Opens a storage directory whose artifact files are `disk` and whose
        metadata file holds `file`, if there is one. The cache starts empty. */
    constructor (disk: map<string, ModelState>, file: Option<OrderedDict<Metadata>>)
      ensures models == map[] && artifacts == disk && metadataFile == file
      ensures metadata == (if file.Some? then file.value else Empty())
      ensures Consistent() <==> disk.Keys == metadata.entries.Keys
    {
      models := map[];
      artifacts := disk;
      metadataFile := file;
      metadata := Empty();
      new;
      LoadMetadata(file);
    }

    /** `_load_metadata` */
    method LoadMetadata(file: Option<OrderedDict<Metadata>>)
      modifies this`metadata
      ensures file.Some? ==> metadata == file.value
      ensures file.None? ==> metadata == old(metadata)
    {
      if file.Some? {
        metadata := file.value;
      }
    }

    /** `_save_metadata` */
    method SaveMetadata()
      modifies this`metadataFile
      ensures metadataFile == Some(metadata)
    {
      metadataFile := Some(metadata);
    }

    /** `model_exists` */
    function ModelExists(name: string): (exists_: bool)
      reads this
      ensures exists_ <==> GetModelInfo(name).Ok?
    {
      name in metadata.entries
    }

    /** `list_models`: the names with metadata, in insertion order. */
    function ListModels(): (names: seq<string>)
      reads this
      ensures Distinct(names)
      ensures forall name :: name in names <==> ModelExists(name)
    {
      metadata.order
    }

    /** `get_model_info` */
    function GetModelInfo(name: string): (r: Result<ModelInfo>)
      reads this
      ensures r.Ok? <==> name in metadata.entries
      ensures r.Err? ==> r.error == ValueError(NotFoundMessage(name))
      ensures r.Ok? ==> && r.value.name == name
                        && metadata.entries[name] == Metadata(r.value.modelType, r.value.hyperparameters)
    {
      if name !in metadata.entries then Err(ValueError(NotFoundMessage(name)))
      else Ok(ModelInfo(name, metadata.entries[name].modelType, metadata.entries[name].hyperparameters))
    }

    /** `save_model`. The duplicate check looks at the cache only, so a name
        with metadata that has not been loaded since start-up is overwritten. */
    method SaveModel(name: string, model: MLModel, modelType: string) returns (r: Outcome)
      modifies this
      ensures r.Fail? <==> name in old(models)
      ensures r.Fail? ==> r.error == ValueError(AlreadyExistsMessage(name)) && unchanged(this)
      ensures r.Pass? ==>
                && models == old(models)[name := model]
                && artifacts == old(artifacts)[name := model.State()]
                && metadata == Put(old(metadata), name, Metadata(modelType, model.hyperparameters))
                && metadataFile == Some(metadata)
      ensures r.Pass? ==>
                && ModelExists(name)
                && name in ListModels()
                && GetModelInfo(name) == Ok(ModelInfo(name, modelType, model.hyperparameters))
      ensures old(Consistent()) ==> Consistent()
    {
      if name in models {
        return Fail(ValueError(AlreadyExistsMessage(name)));
      }
      artifacts := artifacts[name := model.State()];
      models := models[name := model];
      metadata := Put(metadata, name, Metadata(modelType, model.hyperparameters));
      SaveMetadata();
      r := Pass;
    }

    /** `load_model`: the cached object if there is one, else a new object
        read from the artifact file, which then joins the cache. */
    method LoadModel(name: string) returns (r: Result<MLModel>)
      modifies this`models
      ensures name in old(models) ==> r == Ok(old(models)[name]) && models == old(models)
      ensures name !in old(models) && name !in artifacts ==>
                r == Err(ValueError(NotFoundMessage(name))) && models == old(models)
      ensures name !in old(models) && name in artifacts ==>
                && r.Ok?
                && fresh(r.value)
                && r.value.State() == artifacts[name]
                && models == old(models)[name := r.value]
      ensures old(Consistent()) ==> Consistent()
    {
      if name in models {
        return Ok(models[name]);
      }
      if name !in artifacts {
        return Err(ValueError(NotFoundMessage(name)));
      }
      var model := new MLModel.Restore(artifacts[name]);
      models := models[name := model];
      r := Ok(model);
    }

    /** `delete_model`. A name counts as present when it is cached or has
        metadata; a missing artifact file is not an error. */
    method DeleteModel(name: string) returns (r: Outcome)
      modifies this
      ensures r.Fail? <==> name !in old(models) && name !in old(metadata.entries)
      ensures r.Fail? ==> r.error == ValueError(NotFoundMessage(name)) && unchanged(this)
      ensures r.Pass? ==>
                && models == old(models) - {name}
                && artifacts == old(artifacts) - {name}
                && metadata == Pop(old(metadata), name)
                && metadataFile == Some(metadata)
      ensures r.Pass? ==>
                && !ModelExists(name)
                && name !in ListModels()
                && GetModelInfo(name) == Err(ValueError(NotFoundMessage(name)))
      ensures old(Consistent()) ==> Consistent()
    {
      if name !in models && name !in metadata.entries {
        return Fail(ValueError(NotFoundMessage(name)));
      }
      if name in artifacts {
        artifacts := artifacts - {name};
      }
      models := models - {name};
      metadata := Pop(metadata, name);
      SaveMetadata();
      r := Pass;
    }
  }

  /** Saving under a cached name fails and leaves the first model in place. */
  method SaveTwice(storage: ModelStorage, name: string, first: MLModel, second: MLModel, modelType: string)
    returns (r1: Outcome, r2: Outcome)
    requires name !in storage.models
    modifies storage
    ensures r1 == Pass && r2 == Fail(ValueError(AlreadyExistsMessage(name)))
    ensures name in storage.models && storage.models[name] == first
    ensures name in storage.artifacts && storage.artifacts[name] == first.State()
  {
    r1 := storage.SaveModel(name, first, modelType);
    r2 := storage.SaveModel(name, second, modelType);
  }

  /** Save a model, see it listed, delete it, and find it gone: not listed,
      not loadable, no information. */
  method SaveListDeleteLoad(storage: ModelStorage, name: string, model: MLModel, modelType: string)
    returns (loaded: Result<MLModel>)
    requires storage.Consistent() && !storage.ModelExists(name)
    modifies storage
    ensures storage.Consistent()
    ensures name !in storage.ListModels() && storage.GetModelInfo(name).Err?
    ensures loaded == Err(ValueError(NotFoundMessage(name)))
  {
    var saved := storage.SaveModel(name, model, modelType);
    assert saved.Pass? && name in storage.ListModels();
    var deleted := storage.DeleteModel(name);
    assert deleted.Pass?;
    loaded := storage.LoadModel(name);
  }

  /** A store reopened on the directory another store wrote is consistent,
      knows the saved model, and loading gives back the saved state. */
  method ReopenAfterSave(storage: ModelStorage, name: string, model: MLModel, modelType: string)
    returns (reopened: ModelStorage, loaded: Result<MLModel>)
    requires storage.Consistent() && name !in storage.models
    modifies storage
    ensures reopened.Consistent()
    ensures reopened.GetModelInfo(name) == Ok(ModelInfo(name, modelType, model.hyperparameters))
    ensures loaded.Ok? && loaded.value.State() == model.State()
  {
    var saved := storage.SaveModel(name, model, modelType);
    reopened := new ModelStorage(storage.artifacts, storage.metadataFile);
    loaded := reopened.LoadModel(name);
  }

  /** The duplicate check looks only at the cache: in a store that has not
      loaded `name` since it was opened, saving under a name that has
      metadata succeeds and overwrites its entry and its artifact. */
  method OverwriteUncached(storage: ModelStorage, name: string, replacement: MLModel, modelType: string)
    returns (r: Outcome)
    requires storage.ModelExists(name) && name !in storage.models
    modifies storage
    ensures r == Pass
    ensures storage.GetModelInfo(name) == Ok(ModelInfo(name, modelType, replacement.hyperparameters))
    ensures storage.artifacts == old(storage.artifacts)[name := replacement.State()]
  {
    r := storage.SaveModel(name, replacement, modelType);
  }
}
