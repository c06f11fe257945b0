# TensorIO (iOS) federated-learning core, modelled in Dafny

TensorIO lets an iOS device run and train machine-learning models on local
data and take part in federated learning. This project models the pieces of
its core whose behaviour the headers state:

- a model identifier: the triple (model, hyperparameters, checkpoint) and its
  `tio:///models/…` bundle-id form (`FleaModelIdentifier`);
- the mutable training batch (`Batches`);
- the training loop over epochs and batches, with the trainer built from a
  federated task (`Training`, `FederatedTasks`);
- the update check and update result conventions of the model updater
  (`ModelUpdater`);
- task-bundle validation, where built-in checks run first and the custom block
  runs last (`TaskBundleValidation`);
- the federated manager's registered model ids and its delegate actions
  (`FederatedManagement`);
- the scalar layer description and data types (`ScalarLayer`);
- the test doubles the trainer and the manager are checked against: the mock
  batch data source, trainable model, data-source provider and delegate
  (`BatchDataSourceMock`, `TrainableModelMock`, `DataSourceProviderMock`,
  `FederatedManagerDelegateMock`).

Classes stay classes where the source updates fields in place: the batch,
the trainer, the manager and the four mocks. Values stay values: the
identifier, the task, the layer description, the validator and the updater's
decision. The trainer's nested loops are methods, proved against the
specification functions `Chunks`, `Schedule` and `BatchRows`. The data-source
provider and delegate mocks keep a ghost record of every call they counted,
and their `Valid()` invariants tie each counter to that record. The trainable
model mock records the rows of every batch it trained on, and its `Valid()`
ties `trainCount` to that record; its `runCount` and `exportCount` are plain
counters. The batch data source mock keeps only its per-index fetch counters.

The model follows the declarations and documentation of the repository's
Objective-C headers. Where behaviour is not stated there, the model makes one
choice and names it below. `TIOFederatedManagerAction` follows its declaration
order in `TIOFederatedManagerDelegate.h` (`StartTask` after
`UnpackageTaskBundle`).

## Model

| member | source | states |
|---|---|---|
| FleaModelIdentifier.Parse | TensorIO/Classes/Federated/TIOFleaModelIdentifier.h:49-60 | `initWithBundleId:`: a parsed identifier always has non-empty, slash-free components; any id not in the format gives `None` |
| FleaModelIdentifier.ParseRender | TensorIO/Classes/Federated/TIOFleaModelIdentifier.h:50-57 | rendering a well-formed triple in the `tio:///models/M/hyperparameters/H/checkpoints/C` format and parsing it back gives the same triple |
| FleaModelIdentifier.RenderParse | TensorIO/Classes/Federated/TIOFleaModelIdentifier.h:50-57 | any id that parses is exactly the rendering of the triple it parses to, so the components are the segments after `models/`, `hyperparameters/` and `checkpoints/` |
| FleaModelIdentifier.ParseExactlyRenderings | TensorIO/Classes/Federated/TIOFleaModelIdentifier.h:50-60 | `Parse(s) == Some(id)` exactly when `id` is well formed and `s` is its rendering (both directions) |
| FleaModelIdentifier.ParseRejectsSingleSegment | TensorIO/Classes/Federated/TIOFleaModelIdentifier.h:57-60 | a bundle id with a single path segment after the prefix gives `None` |
| FleaModelIdentifier.ParseRejectsOnlyOnePart | TensorIO/Classes/Federated/TIOFleaModelIdentifier.h:57-60 | `tio:///models/onlyOnePart` gives `None` |
| FleaModelIdentifier.RenderJoinsSegments | TensorIO/Classes/Federated/TIOFleaModelIdentifier.h:55 | the rendering is the prefix followed by the five segments joined with `/` |
| FleaModelIdentifier.SplitJoin | TensorIO/Classes/Federated/TIOFleaModelIdentifier.h:55 | splitting slash-free segments joined with `/` gives the segments back |
| FleaModelIdentifier.JoinSplit | TensorIO/Classes/Federated/TIOFleaModelIdentifier.h:55 | joining the segments of a split gives the path back |
| FleaModelIdentifier.JoinExtendsFirst | TensorIO/Classes/Federated/TIOFleaModelIdentifier.h:55 | a character in front of the first segment ends up in front of the joined path |
| Batches.Batch.constructor | TensorIO/Classes/Core/TIOData/TIOBatch.h:36-59 | `initWithKeys:` stores the keys, and the batch starts empty with count 0 |
| Batches.Batch.Count | TensorIO/Classes/Core/TIOData/TIOBatch.h:49-53 | `count` is the number of items the batch holds; with the constructor and `AddItem` it is 0 for a new batch and one more after each `addItem:` |
| Batches.Batch.AddItem | TensorIO/Classes/Core/TIOData/TIOBatch.h:50-66 | requires the item's key set to equal the batch keys; appends it, so count grows by 1 and earlier items and the keys are unchanged |
| Batches.Batch.ItemAtIndex | TensorIO/Classes/Core/TIOData/TIOBatch.h:68-72 | for an index below count, returns the item added at that position (the row) |
| Batches.Batch.ValuesForKey | TensorIO/Classes/Core/TIOData/TIOBatch.h:74-78 | for a batch key, the column has one entry per item, and entry j is item j's value for the key |
| BatchDataSourceMock.MockBatchDataSource.constructor | Example/Tests/TIOMockBatchDataSource.h:35-48 | `initWithItemCount:`: one counter per item, all zero; `numberOfItems` is the count given |
| BatchDataSourceMock.MockBatchDataSource.NumberOfItems | Example/Tests/TIOMockBatchDataSource.h:42-48 | `numberOfItems` is the number of per-index counters; the constructor makes it the count given and `itemAtIndex:` keeps it |
| BatchDataSourceMock.MockBatchDataSource.ItemAtIndexCountAtIndex | Example/Tests/TIOMockBatchDataSource.h:35-40 | returns the fetch counter of the index |
| BatchDataSourceMock.MockBatchDataSource.ItemAtIndex | Example/Tests/TIOMockBatchDataSource.h:26-49 | returns the row for the index, carrying exactly the source's keys; adds one to that index's counter and leaves every other counter alone |
| BatchDataSourceMock.MockItem | Example/Tests/TIOMockBatchDataSource.h:46-49 | the row for an index carries exactly the source's keys, each mapped to a value tagged with the index |
| BatchDataSourceMock.RowsAppend | Example/Tests/TIOMockBatchDataSource.h:46-49 | fetching one more index appends its row |
| BatchDataSourceMock.FetchedByAppend | Example/Tests/TIOMockBatchDataSource.h:35-40 | fetching one run of indices and then another grows every counter by its occurrences in the two runs together |
| BatchDataSourceMock.FetchedEveryAdd | Example/Tests/TIOMockBatchDataSource.h:35-40 | fetching every index x times and then y times fetches it x + y times |
| TrainableModelMock.MockTrainableModel.InitMock | TensorIO/Mocks/Core/TIOMockTrainableModel.h:61-65 | `initMock`: run, train and export counts all start at zero |
| TrainableModelMock.MockTrainableModel.Run | TensorIO/Mocks/Core/TIOMockTrainableModel.h:35-39 | `run:error:` adds one to `runCount` and changes no other counter |
| TrainableModelMock.MockTrainableModel.RunOn | TensorIO/Mocks/Core/TIOMockTrainableModel.h:95-96 | `runOn:` adds one to `runCount` and changes no other counter |
| TrainableModelMock.MockTrainableModel.Train | TensorIO/Mocks/Core/TIOMockTrainableModel.h:41-45 | `train:` adds one to `trainCount`, records the batch's rows and changes no other counter |
| TrainableModelMock.MockTrainableModel.ExportTo | TensorIO/Mocks/Core/TIOMockTrainableModel.h:47-51 | `exportTo:error:` adds one to `exportCount` and changes no other counter |
| FederatedTasks.ParametersComeOnlyFromTrainingFields | TensorIO/Classes/Federated/TIOFederatedTask/TIOModelTrainer+FederatedTask.h:34-44 | a trainer's parameters are the task's epochs, batch size and shuffle flag; two tasks give the same parameters exactly when these three agree, so placeholders play no part |
| FederatedTasks.ParametersOf | TensorIO/Classes/Federated/TIOFederatedTask/TIOModelTrainer+FederatedTask.h:34-44 | a trainer built from a task takes the task's epochs, batch size and shuffle flag |
| Training.ModelTrainer.FromTask | TensorIO/Classes/Federated/TIOFederatedTask/TIOModelTrainer+FederatedTask.h:34-44 | `initWithModel:task:dataSource:` trains exactly the given model on the given data source, with the task's epochs, batch size and shuffle |
| Training.ModelTrainer.constructor | TensorIO/Classes/Core/TIOModel/TIOModelTrainer.h:25-31 | a trainer keeps the model, the data source, the epoch count, the batch size and the shuffle flag it is given |
| Training.ModelTrainer.FetchInto | TensorIO/Classes/Core/TIOModel/TIOModelTrainer.h:26-28 | fetches one index's row from the data source and appends it to the batch; only that index's counter grows, by one |
| Training.ModelTrainer.PrepareBatch | TensorIO/Classes/Core/TIOModel/TIOModelTrainer.h:26-28 | builds a fresh batch with the source's keys holding the rows of the given index range, in order; every counter grows by the number of times its index occurs in the range |
| Training.ModelTrainer.TrainChunk | TensorIO/Classes/Core/TIOModel/TIOModelTrainer.h:26-30 | one pass of the epoch loop: `train:` is called once, on the rows of the index range; run and export counts do not change |
| Training.ModelTrainer.TrainEpoch | TensorIO/Classes/Core/TIOModel/TIOModelTrainer.h:25-31 | one epoch: `train:` on the rows of consecutive chunks of the index order, in order, the last chunk possibly shorter; each counter grows by the occurrences of its index in the order |
| Training.ModelTrainer.TrainPermutedEpoch | Example/Tests/TIOMockBatchDataSource.h:26-40 | an epoch over a permutation of all indices fetches every index exactly once |
| Training.ModelTrainer.TrainOrders | TensorIO/Classes/Core/TIOModel/TIOModelTrainer.h:25-31 | one epoch per given permutation, oldest first: the model is trained on the rows of `Schedule(orders)` and every index is fetched once per order |
| Training.ModelTrainer.Train | TensorIO/Classes/Core/TIOModel/TIOModelTrainer.h:25-31 | the whole run trains on the batches of `Schedule` in order; `trainCount` grows by epochs × ⌈N / batchSize⌉ and every index is fetched `epochs` times |
| Training.TrainOnBatch | TensorIO/Classes/Core/TIOModel/TIOModelTrainer.h:28-30 | single-batch mode: the given batch is passed to `train:` unchanged, once per epoch |
| Training.SevenRowsTwoEpochs | TensorIO/Classes/Core/TIOModel/TIOModelTrainer.h:25-31 | 7 rows, 2 epochs and batches of 3 give 6 `train:` calls; every index is fetched twice |
| Training.SevenRowsChunks | TensorIO/Classes/Core/TIOModel/TIOModelTrainer.h:26-28 | seven ascending indices in batches of three are [0,1,2], [3,4,5], [6] |
| Training.SevenRowsInBatchesOfThree | TensorIO/Classes/Core/TIOModel/TIOModelTrainer.h:26-28 | 7 rows in batches of 3 are chunked as [0,1,2], [3,4,5], [6]; two epochs give 6 batches covering the rows twice in ascending order |
| Training.Range | TensorIO/Classes/Core/TIOModel/TIOModelTrainer.h:26-28 | the unshuffled order of an epoch has N entries |
| Training.RangeAscending | TensorIO/Classes/Core/TIOModel/TIOModelTrainer.h:26-28 | the unshuffled order of an epoch is 0, 1, …, N-1: position i holds i |
| Training.MultiplicitySnoc | Example/Tests/TIOMockBatchDataSource.h:35-40 | visiting one more index adds one to its visit count and nothing to any other's |
| Training.RangeMultiplicity | Example/Tests/TIOMockBatchDataSource.h:26-40 | the unshuffled order lists each index below N exactly once and nothing else |
| Training.PermutationStaysInRange | Example/Tests/TIOMockBatchDataSource.h:26-40 | a shuffled order has N entries, all valid indices |
| Training.PermutationVisitsOnce | Example/Tests/TIOMockBatchDataSource.h:26-40 | a shuffled order lists each index exactly once |
| Training.PermutationFetchesEvery | Example/Tests/TIOMockBatchDataSource.h:26-40 | fetching the indices of a permutation of all indices grows every counter by exactly one |
| Training.EpochOrdersArePermutations | TensorIO/Classes/Core/TIOModel/TIOModelTrainer.h:25-31 | with or without shuffling there is one order per epoch, and each is a permutation of the N indices |
| Training.ChunksFlatten | TensorIO/Classes/Core/TIOModel/TIOModelTrainer.h:26-28 | the batches of an epoch, concatenated, are the epoch's order: nothing is dropped or reordered |
| Training.FlattenAppend | TensorIO/Classes/Core/TIOModel/TIOModelTrainer.h:26-28 | the indices of two batch lists, concatenated, are the indices of each list in turn |
| Training.ChunksSizes | TensorIO/Classes/Core/TIOModel/TIOModelTrainer.h:26-28 | every batch holds between 1 and batchSize items, and every batch but the last holds exactly batchSize |
| Training.ChunksCount | TensorIO/Classes/Core/TIOModel/TIOModelTrainer.h:26-28 | an epoch over N items has ⌈N / batchSize⌉ batches |
| Training.ChunksStep | TensorIO/Classes/Core/TIOModel/TIOModelTrainer.h:26-28 | the batches from a position on are the next batchSize items (or fewer at the end) followed by the batches after them |
| Training.ScheduleCount | TensorIO/Classes/Core/TIOModel/TIOTrainableModel.h:33-41 | a run of E epochs over N items has E × ⌈N / batchSize⌉ batches, one `train:` call each |
| Training.ScheduleSnoc | TensorIO/Classes/Core/TIOModel/TIOModelTrainer.h:25-31 | one more epoch appends that epoch's batches to the run's batches |
| Training.ScheduleBatchesBounded | TensorIO/Classes/Core/TIOModel/TIOModelTrainer.h:26-28 | no batch of the whole run holds more than batchSize items |
| Training.BatchRowsAppend | TensorIO/Classes/Core/TIOModel/TIOModelTrainer.h:26-28 | the rows of consecutive batch lists concatenate |
| Training.Repeat | TensorIO/Classes/Core/TIOModel/TIOModelTrainer.h:28-30 | n copies of the same batch |
| ModelUpdater.CheckForUpdate | TensorIO/Classes/Deploy/TIOModelUpdater.h:63-73 | an available update keeps the bundle's model id, differs from the bundle's triple, and targets the model's canonical hyperparameters with their canonical checkpoint, both looked up successfully; no update means both lookups succeeded and the bundle is already at the canonical triple; a bundle id that does not parse fails with `MalformedBundleId`; a failed model or hyperparameters lookup fails with that lookup's error |
| ModelUpdater.UpdateAvailableIff | TensorIO/Classes/Deploy/TIOModelUpdater.h:63-66 | an update is available exactly when the id parses, both lookups succeed, and the canonical hyperparameters or their canonical checkpoint differ from the bundle's |
| ModelUpdater.CheckForUpdateCallback | TensorIO/Classes/Deploy/TIOModelUpdater.h:68-73 | the callback gets `updateAvailable = YES` with no error exactly when an update is available; with an error, `updateAvailable` is NO |
| ModelUpdater.Update | TensorIO/Classes/Deploy/TIOModelUpdater.h:75-87 | YES exactly when the update installs a bundle (`Installed`): the target triple's archive downloads, unzips, validates and is moved over the installed path, and the bundle found there afterwards is the unzipped one; YES comes with no error and the bundle URL; NO with no error means no update was available; a failed check or download reports its error; every other outcome is NO with an error and leaves the bundle as it was |
| ModelUpdater.CurrentBundleHasNoUpdate | TensorIO/Classes/Deploy/TIOModelUpdater.h:63-87 | a bundle already at the canonical hyperparameters and checkpoint reports no update and no error, and an update leaves it untouched |
| ModelUpdater.UpdateReachesCanonical | TensorIO/Classes/Deploy/TIOModelUpdater.h:75-87 | once an update installs an unzipped bundle that declares the target triple, checking again finds no update |
| TaskBundleValidation.InitWithModelBundleAtPath | TensorIO/Classes/Federated/TIOFederatedTaskBundleValidator.h:45-71 | the validator keeps the bundle path and its task.json as read-only properties |
| TaskBundleValidation.FirstFailure | TensorIO/Classes/Federated/TIOFederatedTaskBundleValidator.h:75-87 | finds the first built-in check that fails, with its error, and all checks before it passed; `None` exactly when all pass |
| TaskBundleValidation.ValidateCustomValidator | TensorIO/Classes/Federated/TIOFederatedTaskBundleValidator.h:101-116 | runs the block on the validator's path and the given JSON; the result is the block's verdict, and on NO the error is the one the block passed back |
| TaskBundleValidation.Validate | TensorIO/Classes/Federated/TIOFederatedTaskBundleValidator.h:75-87 | YES comes with no error; if a built-in check fails, the result is NO with an error |
| TaskBundleValidation.ValidateWithoutCustom | TensorIO/Classes/Federated/TIOFederatedTaskBundleValidator.h:89-99 | `validate:` is `validate:error:` with no block: YES exactly when every built-in check passes, and NO always comes with an error |
| TaskBundleValidation.ValidateOkIff | TensorIO/Classes/Federated/TIOFederatedTaskBundleValidator.h:75-87 | YES exactly when every built-in check passes and the custom block, if any, answers YES (both directions) |
| TaskBundleValidation.CustomValidatorRunsLast | TensorIO/Classes/Federated/TIOFederatedTaskBundleValidator.h:25-27 | when a built-in check fails, the result is that check's failure whatever the block is |
| TaskBundleValidation.CustomValidatorDecidesLast | TensorIO/Classes/Federated/TIOFederatedTaskBundleValidator.h:25-37 | once the built-in checks pass, the block receives the bundle's path and JSON, its answer is the result, and its error is surfaced unchanged |
| TaskBundleValidation.BuiltInErrorIsFirstFailure | TensorIO/Classes/Federated/TIOFederatedTaskBundleValidator.h:75-87 | the error reported is that of the first built-in check that fails |
| FederatedManagement.Registered | TensorIO/Classes/Federated/TIOFederatedManager.h:65-77 | after registering an id it is tracked, once; the other tracked ids are unchanged |
| FederatedManagement.Unregistered | TensorIO/Classes/Federated/TIOFederatedManager.h:79-83 | after unregistering an id it is not tracked; the other ids stay, in order, still without duplicates |
| FederatedManagement.UnregisteredAppend | TensorIO/Classes/Federated/TIOFederatedManager.h:79-83 | unregistering works position by position over a split of the listing |
| FederatedManagement.RegisterIdempotent | TensorIO/Classes/Federated/TIOFederatedManager.h:65-77 | registering an id twice tracks the same ids as registering it once |
| FederatedManagement.UnregisterUndoesRegister | TensorIO/Classes/Federated/TIOFederatedManager.h:65-83 | unregistering a newly registered id restores the earlier listing exactly |
| FederatedManagement.UnregisterIdempotent | TensorIO/Classes/Federated/TIOFederatedManager.h:79-83 | unregistering twice is the same as unregistering once |
| FederatedManagement.OtherIdsUnaffected | TensorIO/Classes/Federated/TIOFederatedManager.h:65-83 | registering or unregistering one id does not change whether any other id is tracked |
| FederatedManagement.WithoutId | TensorIO/Classes/Federated/TIOFederatedManager.h:79-83 | the unregister loop keeps exactly the ids `Unregistered` keeps |
| FederatedManagement.FederatedManager.constructor | TensorIO/Classes/Federated/TIOFederatedManager.h:44-63 | `initWithDataSourceProvider:delegate:` sets the provider, and the delegate if one is given; no ids are tracked yet |
| FederatedManagement.FederatedManager.SetDataSourceProvider | TensorIO/Classes/Federated/TIOFederatedManager.h:51-57 | sets or clears the provider, nothing else |
| FederatedManagement.FederatedManager.SetDelegate | TensorIO/Classes/Federated/TIOFederatedManager.h:59-63 | sets or clears the delegate, nothing else |
| FederatedManagement.FederatedManager.RegisterForTasksForModelWithId | TensorIO/Classes/Federated/TIOFederatedManager.h:34-35 | requires a data source provider; the tracked ids become `Registered(old, id)` and stay free of duplicates |
| FederatedManagement.FederatedManager.UnregisterForTasksForModelWithId | TensorIO/Classes/Federated/TIOFederatedManager.h:79-83 | the tracked ids become `Unregistered(old, id)` and stay free of duplicates |
| FederatedManagement.FederatedManager.CheckForTasks | TensorIO/Classes/Federated/TIOFederatedManager.h:34-35 | requires a data source provider; tasks are requested for exactly the tracked model ids, each once |
| ScalarLayer.DataTypeName | TensorIO/Classes/Core/TIOLayerInterface/TIODataTypes.h:15-21 | every known data type has a non-empty model.json name; the unknown type has none |
| ScalarLayer.DataTypeNameRoundTrip | TensorIO/Classes/Core/TIOLayerInterface/TIODataTypes.h:15-21 | every known data type is read back from its name |
| ScalarLayer.DataTypeForNameRoundTrip | TensorIO/Classes/Core/TIOLayerInterface/TIODataTypes.h:15-21 | a name that denotes a known type is that type's name |
| ScalarLayer.InitWithShape | TensorIO/Classes/Core/TIOLayerInterface/TIOScalarLayerDescription.h:86-106 | the designated initializer stores shape, batched, dtype and quantized unchanged, and the result is a scalar layer description: shape `[1]` or `[-1,1]`, batched exactly with the placeholder |
| ScalarLayer.Product | TensorIO/Classes/Core/TIOLayerInterface/TIOScalarLayerDescription.h:63-68 | the product of the dimensions with every `-1` read as 1 is at least 1 when every dimension is positive or the placeholder |
| ScalarLayer.Length | TensorIO/Classes/Core/TIOLayerInterface/TIOScalarLayerDescription.h:63-70 | `length` of every scalar layer description is 1 |
| ScalarLayer.ProductAppend | TensorIO/Classes/Core/TIOLayerInterface/TIOScalarLayerDescription.h:63-68 | the length of a concatenated shape is the product of the lengths |
| ScalarLayer.BatchPlaceholderIsNeutral | TensorIO/Classes/Core/TIOLayerInterface/TIOScalarLayerDescription.h:38-43 | a `-1` batch placeholder at the first or the last axis leaves the length unchanged |
| ScalarLayer.BatchedIffPlaceholderShape | TensorIO/Classes/Core/TIOLayerInterface/TIOScalarLayerDescription.h:38-49 | in every scalar layer description `[-1,1]` goes with batched and `[1]` with not batched |
| DataSourceProviderMock.MockFederatedManagerDataSourceProvider.constructor | TensorIO/Mocks/Federated/TIOMockFederatedManagerDataSourceProvider.h:33-52 | empty tables and no requests counted |
| DataSourceProviderMock.MockFederatedManagerDataSourceProvider.DataSourceForTaskWithId | TensorIO/Mocks/Federated/TIOMockFederatedManagerDataSourceProvider.h:38-44 | returns the data source set for the task, if any; adds one to that task's count and leaves every other count alone |
| DataSourceProviderMock.MockFederatedManagerDataSourceProvider.ModelBundleForModelWithId | TensorIO/Mocks/Federated/TIOMockFederatedManagerDataSourceProvider.h:46-52 | returns the bundle set for the model, if any; adds one to that model's count and leaves every other count alone |
| DataSourceProviderMock.MockFederatedManagerDataSourceProvider.DataSourceForTaskWithIdCountForTaskId | TensorIO/Mocks/Federated/TIOMockFederatedManagerDataSourceProvider.h:38-44 | the number of data source requests made for the task, zero if there were none |
| DataSourceProviderMock.MockFederatedManagerDataSourceProvider.ModelBundleForModelWithIdCountForModelId | TensorIO/Mocks/Federated/TIOMockFederatedManagerDataSourceProvider.h:46-52 | the number of bundle requests made for the model, zero if there were none |
| DataSourceProviderMock.MockFederatedManagerDataSourceProvider.SetDataSource | TensorIO/Mocks/Federated/TIOMockFederatedManagerDataSourceProvider.h:54-58 | afterwards the task maps to the given data source; no other entry or count changes |
| DataSourceProviderMock.MockFederatedManagerDataSourceProvider.RemoveDataSourceForTaskId | TensorIO/Mocks/Federated/TIOMockFederatedManagerDataSourceProvider.h:54-59 | afterwards the task has no data source; no other entry or count changes |
| DataSourceProviderMock.MockFederatedManagerDataSourceProvider.SetModelBundle | TensorIO/Mocks/Federated/TIOMockFederatedManagerDataSourceProvider.h:61-65 | afterwards the model maps to the given bundle; no other entry or count changes |
| DataSourceProviderMock.MockFederatedManagerDataSourceProvider.RemoveModelBundleForModelId | TensorIO/Mocks/Federated/TIOMockFederatedManagerDataSourceProvider.h:61-66 | afterwards the model has no bundle; no other entry or count changes |
| Counters.Bump | TensorIO/Mocks/Federated/TIOMockFederatedManagerDataSourceProvider.h:38-52 | counting a call for a key adds one to that key's count, which reads as zero if it was never counted, and leaves every other count alone |
| Counters.BumpTracksHistory | TensorIO/Mocks/Federated/TIOMockFederatedManagerDataSourceProvider.h:38-52 | when every counter equals the number of times its key occurs in a record of calls, bumping a key keeps that true for the record with the key appended |
| FederatedManagerDelegateMock.MockFederatedManagerDelegate.InitWithExpectation | TensorIO/Mocks/Federated/TIOMockFederatedManagerDelegate.h:29-36 | no callbacks counted or recorded and the expectation is not yet fulfilled |
| FederatedManagerDelegateMock.MockFederatedManagerDelegate.DidBeginAction | TensorIO/Mocks/Federated/TIOMockFederatedManagerDelegate.h:52-56 | records one more begin of the action; its begin count stays the number of begin callbacks for it; no other count, record or the expectation changes |
| FederatedManagerDelegateMock.MockFederatedManagerDelegate.WillBeginProcessingTaskWithId | TensorIO/Mocks/Federated/TIOMockFederatedManagerDelegate.h:38-43 | records one more begin-processing for the task; its count stays the number of such callbacks for it; no other count, record or the expectation changes |
| FederatedManagerDelegateMock.MockFederatedManagerDelegate.DidCompleteTaskWithId | TensorIO/Mocks/Federated/TIOMockFederatedManagerDelegate.h:29-50 | records one more completion for the task, its count stays the number of completions for it, no other count or record changes, and the expectation is fulfilled |
| FederatedManagerDelegateMock.MockFederatedManagerDelegate.DidFailWithError | TensorIO/Mocks/Federated/TIOMockFederatedManagerDelegate.h:29-36 | records one more failure of the action, its count stays the number of failures for it, no other count or record changes, and the expectation is fulfilled |
| FederatedManagerDelegateMock.MockFederatedManagerDelegate.WillBeginProcessingTaskWithIdCountForTaskId | TensorIO/Mocks/Federated/TIOMockFederatedManagerDelegate.h:38-43 | the number of begin-processing callbacks received for the task |
| FederatedManagerDelegateMock.MockFederatedManagerDelegate.DidCompleteTaskWithIdCountForTaskId | TensorIO/Mocks/Federated/TIOMockFederatedManagerDelegate.h:45-50 | the number of complete callbacks received for the task |
| FederatedManagerDelegateMock.MockFederatedManagerDelegate.DidBeginActionCountForAction | TensorIO/Mocks/Federated/TIOMockFederatedManagerDelegate.h:52-56 | the number of begin callbacks received for the action |
| FederatedManagerDelegateMock.MockFederatedManagerDelegate.DidFailWithErrorCountForAction | TensorIO/Mocks/Federated/TIOMockFederatedManagerDelegate.h:58-63 | the number of failure callbacks received for the action |

## Left out

- The `checkForTasks` pipeline is not modelled. It is a chain of asynchronous network calls on background threads, and its action order is not visible. Only its provider precondition and the ids it starts from are modelled.
- Network clients are not modelled: the Flea client, the model repository client, the URL session mocks and the background session handler. The repository's answers are an input of the updater (`Repository`).
- The updater's download, unzip, validation and directory replacement are not modelled as file-system operations. Each is an input that gives the step's result (`UpdateSteps`). The unzipped bundle's id is whatever that step reports.
- ModelUpdater.UpdateReachesCanonical: asks the caller to confirm that the unzipped bundle declares the target triple, because nothing in the headers says the downloaded bundle's id is checked against it.
- ModelUpdater.Update: an unzip, validation or move failure is reported with the failing step's error, but the contract only promises that some error is reported.
- JSON parsing of the response entities and of task.json is left out, because the key names are not visible. Their fields appear as plain records (`MRModel`, `MRHyperparameter`, `FederatedTask`).
- Tensor marshalling to TensorFlow and TFLite is left out. So are the quantizer and dequantizer blocks of `TIOScalarLayerDescription`: they are foreign calls over floating-point buffers.
- Progress callbacks (`didProgress:forAction:`) carry advisory floats and are left out.
- Model loading and unloading, and the values `train:` and `run:` return, are left out. Results are not modelled; the mocks count calls.
- TrainableModelMock.MockTrainableModel.RunOn: `runOn:` and `runOn:error:` are counted in `runCount`. The header documents `runCount` for `run:` only, so this is a modelling choice.
- TrainableModelMock.MockTrainableModel.ExportTo: always reports success. The mock's copying of `mockExportsURL` is a file-system operation.
- The item values of the mock data source are not visible. Each row maps every key to a value tagged with its index (`MockItem`). The keys are a constructor argument.
- The built-in checks of the task bundle validator are not visible. They are a sequence of check functions that the validator carries, run in order.
- TaskBundleValidation.ValidateCustomValidator: when the block answers YES, any error it set is dropped. When it answers NO without setting an error, NO comes back without an error. So "on NO the error is set" is only proved for built-in failures.
- Training.ModelTrainer.Train: shuffling is not a random number generator. The caller supplies one permutation of the indices per epoch. An error from `train:` is not modelled, so the abort-on-first-error path is out.
- Training.TrainOnBatch: single-batch mode sends the given batch to `train:` once per epoch. The header only says the trainer may be given a single batch.
- ScalarLayer.InitWithShape: requires a scalar shape, with `batched` set exactly when the placeholder is present. The header promises that every scalar layer description has such a shape, but it does not say what the initializer does with any other shape.
- Training.ModelTrainer.constructor: requires a batch size of at least 1. The header does not say what the trainer does with a batch size of 0, and chunks of size 0 would never advance through an epoch.
- Training.ModelTrainer.FromTask: requires the task's batch size to be at least 1. `TIOFederatedTask.h` declares `batchSize` as an `NSUInteger`, so a task can carry 0, and what the trainer then does is not stated.
- Batches.Batch.ValuesForKey: requires a key the batch holds. For any other key every item would yield nil, which an `NSArray` cannot hold, so the source would fail at run time.
- ModelUpdater.CheckForUpdate: the target's hyperparameters are the model's `canonicalHyperparameters`, and its checkpoint is their `canonicalCheckpoint`. The headers also describe an `upgradeTo` field on a (model, hyperparameters) pair, but they do not say which field drives an upgrade. The model carries `upgradeTo` and never reads it.
- FederatedManagement.Registered: tracked model ids are kept in the order they were registered. `registeredModelIds` is an `NSArray` whose order the header does not state, so the "in order" promises of `Unregistered` rest on this choice.
- Batches.Batch.ItemAtIndex: requires an index below `count`. The core calls it only in range; what an out-of-range index does (an `NSArray` raises) is not modelled.
- BatchDataSourceMock.MockBatchDataSource.ItemAtIndex: requires an index below `numberOfItems`. The trainer calls it only with indices of its epoch order, which are in range; out-of-range behaviour is not modelled.
- BatchDataSourceMock.MockBatchDataSource.ItemAtIndexCountAtIndex: requires an index below `numberOfItems`. Out-of-range behaviour (an `NSArray` raises) is not modelled.
- Integer widths are not modelled: `NSUInteger` counts and `length` are unbounded integers; none of the modelled values comes near 2^64.
- The bundle-id grammar is a literal prefix and a split on `/`. The regular expression the implementation uses is not visible, so which characters it allows in a segment is an assumption: anything but `/`.
- `TIOModelTrainer.h` declares no members. The trainer's operations are modelled from its class documentation and from how its mocks count calls.
- The older duplicate mocks under `Example/Tests` and `FederatedExample` repeat the `TensorIO/Mocks` versions and are not modelled separately.
