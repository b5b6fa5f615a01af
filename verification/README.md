# A verified model of the ML model store

This project models the core of a small REST service that trains and serves
supervised-learning models, and proves properties of the model in Dafny. The
core has five parts:

- **The model store** (`ModelStorage`). It keeps a cache of model objects and a
  metadata dictionary (name to type and hyperparameters). Its directory holds
  one `<name>.joblib` artifact per model and a `metadata.json` file. That file
  is rewritten in full after every save and delete.
- **The model type registry.** It is a constant, ordered table of three type
  names: `linear_regression`, `logistic_regression` and `random_forest`.
- **The model abstraction.** It is the base class plus three variants. A model
  keeps its hyperparameter mapping, builds its estimator from the documented
  keys (with defaults), and keeps an `is_trained` flag. `predict` refuses an
  untrained model.
- **The request handlers.** These are train, predict, delete, get-info,
  list-models and list-types. Each one composes store and registry calls.
  Train, predict, delete and get-info map a `ValueError` to 400 or 404 and
  any other failure to 500. The two listing handlers catch every exception
  alike and answer 500 for any failure; in the model neither listing can fail.
- **Python dictionary order.** `list_models` returns the metadata keys in
  insertion order. The file `ordered_dicts.dfy` models this order.

Files and modules:

- `errors.dfy` (`Errors`): `Option`, `Result` and `Outcome`, the two exception
  classes (`ValueError` and any other error), and the exact error messages.
- `ordered_dicts.dfy` (`OrderedDicts`): insertion-ordered string-keyed
  dictionaries with `Put` (assignment) and `Pop`.
- `models.dfy` (`Models`): hyperparameter values, estimator configurations,
  defaults, the `MLModel` class, and the pure `Fit` / `PredictOutcome` that
  specify `train` and `predict`.
- `registry.dfy` (`Registry`): the registration table and its lookups.
- `storage.dfy` (`Storage`): the `ModelStorage` class, plus client methods that
  run the lifecycle scenarios against the class's specifications.
- `api.dfy` (`Api`): the handlers as methods over a `ModelStorage`.

Modelling choices:

- **Variants.** The three variants are one class, `MLModel`, tagged by
  `ModelKind`. What differs per variant (keys read, defaults, docs,
  description) is a function of the tag.
- **The numerical library** (scikit-learn) is a `Library` parameter with three
  parts:
  - whether a fit is rejected, and with which error;
  - whether a prediction is rejected;
  - the value predicted for a row.

  A fitted estimator is represented by its configuration and the dataset it was
  fitted on.
- **The storage directory** is two fields of the store:
  - `artifacts`: the artifact files, each holding the full model state;
  - `metadataFile`: the content of `metadata.json`.

  Both are ordinary fields because the code reads them: `load_model` reads an
  artifact, and start-up reads the metadata file. Opening a store (the
  constructor) takes the directory's content as parameters.
- **The dataset store's local write** in `train_model` is a parameter that may
  raise.
- **The experiment tracker** catches all of its own failures and computes
  nothing the handler uses, so it has no effect in the model.

The invariant `Consistent()` has two parts:

- a name has an artifact exactly when it has metadata;
- every cached name has metadata.

A store opened on a directory is consistent exactly when the artifact names
equal the metadata keys. Save, load and delete each preserve it. So does every
handler.

The duplicate check of `save_model` looks at the cache only, and the model
keeps that behaviour as written:

- `OverwriteUncached` shows the consequence. A name that has metadata but is
  not yet cached (for example, after a restart) is saved without error, and its
  entry and artifact are overwritten.
- `TrainModel` deletes an existing name before saving, so the handler is not
  affected on a consistent store.
- On an inconsistent store, a name can be cached without metadata. Then
  `TrainModel` answers 400 "already exists". This case is the `staleCache`
  argument of `TrainFailure`.

## Model

| member | source | states |
|---|---|---|
| OrderedDicts.Put | app/storage/model_storage.py:62-65 | assigning a key keeps its position if present and appends it otherwise; the entries are updated at that key only |
| OrderedDicts.Remove | app/storage/model_storage.py:114 | removing a key keeps exactly the other keys, keeps distinctness, and changes nothing when the key is absent |
| OrderedDicts.Pop | app/storage/model_storage.py:113-114 | `pop(k, None)` drops the key from the entries and the order; on an absent key it is the identity |
| OrderedDicts.RemoveAt | app/storage/model_storage.py:114 | in an order without duplicates, removing the key at position `i` gives the keys before it followed by the keys after it, so the remaining keys keep their order |
| OrderedDicts.RemoveAppended | app/storage/model_storage.py:62-65 | removing a key from an order that ends with it gives the same keys as removing it from the order without it, so re-inserting a popped key puts it back at the end and nowhere else |
| Models.ConfigFor | app/models/implementations.py:15-18 | each variant's estimator is built from its documented keys only; a key present in the mapping (even with value None) wins over the default, and an absent key takes the default: fit_intercept=True; C=1.0 and max_iter=100; n_estimators=100, max_depth=None and random_state=42 |
| Models.SettingsDetermineConfig | app/models/implementations.py:41-45 | an estimator configuration is determined by its variant and its keyword arguments |
| Models.ConfigIgnoresUndocumentedKeys | app/models/implementations.py:71-78 | two hyperparameter mappings that agree on a variant's documented keys build the same estimator, so unrecognised keys never influence it |
| Models.HyperparameterInfo | app/models/implementations.py:89-95 | the documented keys of each variant are exactly the keys its constructor reads |
| Models.Description | app/models/implementations.py:33-35 | the descriptions are "Linear Regression model for regression tasks", "Logistic Regression model for binary classification" and "Random Forest model for classification tasks" |
| Models.DescriptionIdentifiesVariant | app/models/implementations.py:97-99 | two variants have the same description exactly when they are the same variant |
| Models.Initial | app/models/base.py:19-21 | a newly built model keeps the kind and the whole mapping, is untrained, and is well-formed (its unfitted estimator is built from the mapping) |
| Models.Fit | app/models/implementations.py:20-22 | training succeeds exactly when the estimator exists and the library accepts the data; the result is trained, with the same variant and hyperparameters, and is refitted on the new data; well-formedness is kept; a rejected fit raises the library's own error, and a missing estimator raises the `NoneType` AttributeError |
| Models.PredictOutcome | app/models/implementations.py:24-27 | an untrained model fails with "Model must be trained before making predictions"; a prediction succeeds exactly when the model is trained, has an estimator and the library accepts the rows, and it then yields one library value per input row; a trained model whose rows the library rejects raises the library's own error unchanged, and a missing estimator raises the `NoneType` AttributeError |
| Models.FreshModelCannotPredict | app/models/base.py:19-21 | a newly built model refuses every prediction with the not-trained error |
| Models.TrainedModelPredictsEveryRow | app/models/implementations.py:47-54 | after a successful fit of a well-formed model, a prediction the library accepts returns exactly one value per row |
| Models.RetrainingIsAllowed | app/models/implementations.py:80-82 | training a trained model again is not guarded: it succeeds on the same terms as a first training and equals a single training on the new data |
| Models.MLModel.constructor | app/models/base.py:12-21 | the whole mapping, unrecognised keys included, is stored as hyperparameters; the model is untrained; the estimator (left unset by the base part) is then built from the mapping; the state is `Initial` and the object is valid |
| Models.MLModel.Restore | app/storage/model_storage.py:90 | an object read back from an artifact has exactly the state the artifact holds |
| Models.MLModel.Train | app/models/implementations.py:47-49 | on success the new state is `Fit` of the old state and the outcome is Pass; on failure the library's error is raised and the model takes the rejected fit to leave the state as it was (see "## Left out"); validity is preserved |
| Models.MLModel.Predict | app/models/implementations.py:84-87 | the result is `PredictOutcome` of the object's state |
| Models.Instantiate | app/main.py:127 | `model_class(**h)` raises a TypeError "<Class>.__init__() got multiple values for argument 'self'" exactly when the mapping has the key `self`; otherwise it gives a new valid object in the `Initial` state |
| Registry.Names | app/models/registry.py:49 | the key list has one name per table entry, in table order |
| Registry.Lookup | app/models/registry.py:34-39 | a lookup fails exactly when the name is not among the table's keys; a found variant is registered under that name |
| Registry.ListModelTypes | app/models/registry.py:42-49 | the registered types are exactly linear_regression, logistic_regression and random_forest, in registration order, without duplicates |
| Registry.GetModelClass | app/models/registry.py:21-39 | succeeds exactly for the registered names, with the variant registered under that name; any other string fails with a ValueError whose message lists the available types |
| Registry.RegisteredUnderItsName | app/models/registry.py:14-18 | `get_model_class(t)` returns a given variant exactly when `t` is that variant's registered name (so linear_regression gives the linear-regression variant) |
| Registry.GetModelInfo | app/models/registry.py:52-67 | for a known type the record has that name and the description and hyperparameter docs of the variant `get_model_class` returns; for an unknown type it fails with the same error as `get_model_class` |
| Registry.GetAllModelsInfo | app/models/registry.py:70-77 | one record per registered type, in the order of `list_model_types`, each equal to `get_model_info` of that type |
| Storage.ModelStorage.constructor | app/storage/model_storage.py:16-28 | the cache starts empty; the metadata is the file's content, or empty when there is no file; the store is consistent exactly when the artifact names equal the metadata keys |
| Storage.ModelStorage.LoadMetadata | app/storage/model_storage.py:30-34 | the metadata becomes the file's content when the file exists and is left alone otherwise |
| Storage.ModelStorage.SaveMetadata | app/storage/model_storage.py:36-39 | the metadata file becomes a copy of the in-memory metadata |
| Storage.ModelStorage.ModelExists | app/storage/model_storage.py:150-160 | a model exists exactly when `get_model_info` succeeds for it |
| Storage.ModelStorage.ListModels | app/storage/model_storage.py:119-126 | the listed names are distinct and are exactly the existing models |
| Storage.ModelStorage.GetModelInfo | app/storage/model_storage.py:128-148 | succeeds exactly for names with metadata, reporting that name and its stored type and hyperparameters; otherwise fails with "Model '<name>' not found" |
| Storage.ModelStorage.SaveModel | app/storage/model_storage.py:41-68 | fails with "already exists" exactly when the name is cached, changing nothing; on success the artifact holds the model's state, the cache maps the name to the model, the metadata entry is {type, hyperparameters} (other names untouched), the file equals the metadata, and the model exists, is listed and has that info; consistency is preserved |
| Storage.ModelStorage.LoadModel | app/storage/model_storage.py:70-94 | a cached name returns the cached object unchanged; otherwise it fails with "not found" exactly when there is no artifact; otherwise it returns a new object with the artifact's state and adds it to the cache; nothing but the cache changes; consistency is preserved |
| Storage.ModelStorage.DeleteModel | app/storage/model_storage.py:96-117 | fails with "not found" exactly when the name is neither cached nor in metadata, changing nothing; on success the name leaves the cache, the artifacts and the metadata (its order included), a missing artifact is no error, the file equals the metadata, and info and existence fail; consistency is preserved |
| Storage.SaveTwice | app/storage/model_storage.py:55-56 | a second save under the same name fails with "already exists" and the first model stays cached with its artifact |
| Storage.SaveListDeleteLoad | app/storage/model_storage.py:83-126 | save, list, delete: afterwards the name is not listed, has no info, and loading it fails with "not found" |
| Storage.ReopenAfterSave | app/storage/model_storage.py:28-34 | a store opened on the directory a save wrote is consistent, reports the saved info, and loads a model with the saved state |
| Storage.OverwriteUncached | app/storage/model_storage.py:55-65 | a name with metadata that is not cached is saved without error, and its entry and artifact are overwritten |
| Api.ErrorResponse | app/main.py:156-161 | a ValueError becomes the handler's client status and any other error becomes 500, with the message as detail |
| Api.DeleteIfExists | app/main.py:122-124 | a name with metadata is deleted (cache entry, artifact and metadata key, and metadata.json rewritten); a name without metadata leaves the store as it was; afterwards the name has no metadata; consistency is preserved |
| Api.BuildAndTrain | app/main.py:126-136 | fails with the first failure among type lookup, construction (key `self`), dataset write and training; on success the model is new and its state is exactly a model of the requested variant built from the request's mapping and fitted on the request's X_train and y_train |
| Api.TrainedState | app/main.py:126-136 | the stored state is well-formed and trained, of the requested type, with the request's hyperparameters, and fitted on the request's training data |
| Api.StaleCacheFailsLast | app/main.py:122-147 | the store's duplicate check is the last possible failure: it decides the answer only when the type lookup, construction, dataset write and training all succeed |
| Api.TrainAndSave | app/main.py:126-154 | on a name without metadata: the answer is 400/500 for the first failure and leaves the store unchanged; on success the cache and artifact hold the trained state, the metadata key is inserted and metadata.json equals the metadata |
| Api.TrainModel | app/main.py:105-161 | the response is 400/500 for the first failure (unknown type, construction, dataset write, training, stale cache) and otherwise echoes name and type; on a consistent store it succeeds exactly when nothing but the stale-cache check could fail; after a failure the store is as the delete left it; on success the cache and artifact hold the trained state, the metadata is `Put(Pop(old, name), ...)` so the name moves to the end of the listing, metadata.json equals the metadata, and the info reports the requested type and hyperparameters; every other name is untouched; consistency is preserved |
| Api.PredictResponseFor | app/main.py:187-196 | 200 exactly when the prediction succeeded, with the predictions; a ValueError becomes 404 and any other error 500, with the message as detail |
| Api.Predict | app/main.py:164-196 | a cached model answers its own prediction outcome; a name neither cached nor with an artifact answers 404 "not found"; otherwise the artifact's state answers and a new object with that state joins the cache; the cache is otherwise unchanged; a success carries one prediction per input row |
| Api.DeleteModel | app/main.py:199-226 | 404 "not found" exactly when the store has neither a cached object nor metadata for the name, changing nothing; otherwise "success", with this name alone removed from the cache, the artifacts and the metadata, and metadata.json rewritten |
| Api.GetModelInfo | app/main.py:79-102 | 200 exactly when the model exists, carrying the store's info for it; otherwise 404 "not found" |
| Api.ListTrainedModels | app/main.py:61-76 | exactly one info record per name from `list_models`, in that order, each equal to the store's info for that name |
| Api.ListModelTypes | app/main.py:44-58 | the body is `get_all_models_info()`: one full record (name, description, hyperparameter docs) per registered type, in registration order |
| Api.RetrainUnderSameName | app/main.py:122-147 | on a consistent store, training twice under one name succeeds both times, the name still exists, and it is listed last, after the other names in their old order |

## Left out

- The remote object-store mirror (`s3_storage.py`) is not part of this model. The modelled `model_storage.py` never calls it.
- Local file-system failures are not modelled: `joblib.dump`, file unlink and the metadata write are assumed to succeed. In the source they would propagate as status 500.
- Artifact paths are not modelled. Artifacts are keyed by model name, but the source stores each one at the path `<storage dir>/<name>.joblib`, and distinct names can share that file. For example, `a` and `./a` share one file, and an absolute name such as `/tmp/x` leaves the directory. Training `a` and then `./a` overwrites the first artifact. Deleting `./a` then unlinks the file while `a` keeps its metadata, and after a restart `load_model("a")` returns the other model. The `artifacts` map, and the claim that save, load and delete preserve `Consistent()`, hold only for names that map to distinct files inside the directory. Names that are not valid file names are not distinguished either.
- Serialisation is not modelled: an artifact stores the model state exactly. JSON conversion of hyperparameter values in `metadata.json` is not modelled.
- Numerical fitting and prediction are the `Library` parameter. Predictions are `real` values, and floating-point behaviour is not modelled. Hyperparameter values are limited to None, booleans, integers, reals and strings; lists and nested mappings are left out.
- The NumPy conversion of request rows is not modelled. This includes the `ValueError` NumPy raises for ragged rows.
- The dataset store's DVC calls and the experiment tracker are not modelled. They swallow their own failures. The dataset store's local write is a parameter that may raise.
- The `/` and `/health` endpoints are not modelled: they only return constant status messages.
- The abstract base class cannot be a Dafny trait, so there is no type-level check that a variant provides `train`, `predict`, `get_hyperparameter_info` and `get_description`. Every variant gets them from functions over `ModelKind`.
- Logging (the `logger` calls in every handler and store operation) is not modelled: it changes no state and no response.
- Fitting is deterministic in the model: an estimator is its configuration plus the data it was fitted on. A random forest built with `"random_state": null` draws from the global random generator, so two fits on the same data can differ. `Models.RetrainingIsAllowed` (a refit equals a single fit) and equal states predicting alike hold only under this abstraction.
- Concurrency (FastAPI async dispatch) is not modelled. Operations are taken to run one at a time.
- Models.MLModel.Train: a fit that raises is taken to leave the estimator as it was. scikit-learn's `fit` updates the estimator in place and can raise after changing it. For example, `LogisticRegression.fit` records the feature count before it rejects continuous targets, and a later `predict` then expects the new feature count while `is_trained` stays true. The model's failure clause (`State() == old(State())`, validity kept) therefore holds only under this abstraction. Only `is_trained` and `hyperparameters` are certainly unchanged. The handlers never reach this path, because `train_model` always trains a newly built object and drops it when training fails.
- Models.MLModel.constructor: the intermediate state with no estimator, after the base part and before the variant part, is only visible inside the constructor.
