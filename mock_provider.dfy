/** `TIOMockFederatedManagerDataSourceProvider`: tables of mock data sources
    (by task id) and mock model bundles (by model id), and a count of how often
    each was asked for. Beside the counters it keeps, as a specification-only
    record, the ids of every request in the order they came. */
module DataSourceProviderMock {
  import opened Wrappers
  import opened Counters
  import opened BatchDataSourceMock

  /** `TIOMockModelBundle`: a bundle at a path that vends a mocked model; the
      model itself is not part of this model. */
  datatype MockModelBundle = MockModelBundle(path: string)

  class MockFederatedManagerDataSourceProvider {
    /** `dataSources`, by task id. */
    var dataSources: map<string, MockBatchDataSource>
    /** `modelBundles`, by model id. */
    var modelBundles: map<string, MockModelBundle>
    /** `dataSourceForTaskWithIdCount`. */
    var dataSourceForTaskWithIdCount: map<string, nat>
    /** `modelBundleForModelWithIdCount`. */
    var modelBundleForModelWithIdCount: map<string, nat>
    /** The task ids of all data source requests, oldest first. */
    ghost var dataSourceRequests: seq<string>
    /** The model ids of all model bundle requests, oldest first. */
    ghost var modelBundleRequests: seq<string>

    /** Every counter is the number of requests made for its id. */
    ghost predicate Valid()
      reads this
    {
      && (forall t :: CountOf(dataSourceForTaskWithIdCount, t) == multiset(dataSourceRequests)[t])
      && (forall m :: CountOf(modelBundleForModelWithIdCount, m) == multiset(modelBundleRequests)[m])
    }

    /** A provider with empty tables and no requests. */
    constructor ()
      ensures Valid()
      ensures dataSources == map[] && modelBundles == map[]
      ensures dataSourceForTaskWithIdCount == map[] && modelBundleForModelWithIdCount == map[]
      ensures dataSourceRequests == [] && modelBundleRequests == []
    {
      dataSources, modelBundles := map[], map[];
      dataSourceForTaskWithIdCount, modelBundleForModelWithIdCount := map[], map[];
      dataSourceRequests, modelBundleRequests := [], [];
    }

    /** `dataSourceForTaskWithId:`: the data source set for the task, if any,
        counting one more request for that task and no other. */
    method DataSourceForTaskWithId(taskId: string) returns (dataSource: Option<MockBatchDataSource>)
      requires Valid()
      modifies this
      ensures Valid()
      ensures dataSource == if taskId in dataSources then Some(dataSources[taskId]) else None
      ensures CountOf(dataSourceForTaskWithIdCount, taskId) == CountOf(old(dataSourceForTaskWithIdCount), taskId) + 1
      ensures forall t :: t != taskId ==> CountOf(dataSourceForTaskWithIdCount, t) == CountOf(old(dataSourceForTaskWithIdCount), t)
      ensures dataSourceForTaskWithIdCount == Bump(old(dataSourceForTaskWithIdCount), taskId)
      ensures dataSourceRequests == old(dataSourceRequests) + [taskId]
      ensures dataSources == old(dataSources) && modelBundles == old(modelBundles)
      ensures modelBundleForModelWithIdCount == old(modelBundleForModelWithIdCount)
      ensures modelBundleRequests == old(modelBundleRequests)
    {
      BumpTracksHistory(dataSourceForTaskWithIdCount, dataSourceRequests, taskId);
      dataSourceForTaskWithIdCount := Bump(dataSourceForTaskWithIdCount, taskId);
      dataSourceRequests := dataSourceRequests + [taskId];
      dataSource := if taskId in dataSources then Some(dataSources[taskId]) else None;
    }

    /** `federatedManager:modelBundleForId:`: the bundle set for the model,
        if any, counting one more request for that model and no other. */
    method ModelBundleForModelWithId(modelId: string) returns (bundle: Option<MockModelBundle>)
      requires Valid()
      modifies this
      ensures Valid()
      ensures bundle == if modelId in modelBundles then Some(modelBundles[modelId]) else None
      ensures CountOf(modelBundleForModelWithIdCount, modelId) == CountOf(old(modelBundleForModelWithIdCount), modelId) + 1
      ensures forall m :: m != modelId ==> CountOf(modelBundleForModelWithIdCount, m) == CountOf(old(modelBundleForModelWithIdCount), m)
      ensures modelBundleForModelWithIdCount == Bump(old(modelBundleForModelWithIdCount), modelId)
      ensures modelBundleRequests == old(modelBundleRequests) + [modelId]
      ensures dataSources == old(dataSources) && modelBundles == old(modelBundles)
      ensures dataSourceForTaskWithIdCount == old(dataSourceForTaskWithIdCount)
      ensures dataSourceRequests == old(dataSourceRequests)
    {
      BumpTracksHistory(modelBundleForModelWithIdCount, modelBundleRequests, modelId);
      modelBundleForModelWithIdCount := Bump(modelBundleForModelWithIdCount, modelId);
      modelBundleRequests := modelBundleRequests + [modelId];
      bundle := if modelId in modelBundles then Some(modelBundles[modelId]) else None;
    }

    /** `dataSourceForTaskWithIdCountForTaskId:`: the number of data source
        requests made for the task, zero if there were none. */
    method DataSourceForTaskWithIdCountForTaskId(taskId: string) returns (count: nat)
      requires Valid()
      ensures count == multiset(dataSourceRequests)[taskId]
    {
      count := CountOf(dataSourceForTaskWithIdCount, taskId);
    }

    /** `modelBundleForModelWithIdCountForModelId:`: the number of bundle
        requests made for the model, zero if there were none. */
    method ModelBundleForModelWithIdCountForModelId(modelId: string) returns (count: nat)
      requires Valid()
      ensures count == multiset(modelBundleRequests)[modelId]
    {
      count := CountOf(modelBundleForModelWithIdCount, modelId);
    }

    /** `setDataSource:forTaskId:` */
    method SetDataSource(dataSource: MockBatchDataSource, taskId: string)
      requires Valid()
      modifies this
      ensures Valid()
      ensures dataSources == old(dataSources)[taskId := dataSource]
      ensures modelBundles == old(modelBundles)
      ensures dataSourceForTaskWithIdCount == old(dataSourceForTaskWithIdCount)
      ensures modelBundleForModelWithIdCount == old(modelBundleForModelWithIdCount)
      ensures dataSourceRequests == old(dataSourceRequests) && modelBundleRequests == old(modelBundleRequests)
    {
      dataSources := dataSources[taskId := dataSource];
    }

    /** `removeDataSourceForTaskId:` */
    method RemoveDataSourceForTaskId(taskId: string)
      requires Valid()
      modifies this
      ensures Valid()
      ensures dataSources == old(dataSources) - {taskId}
      ensures modelBundles == old(modelBundles)
      ensures dataSourceForTaskWithIdCount == old(dataSourceForTaskWithIdCount)
      ensures modelBundleForModelWithIdCount == old(modelBundleForModelWithIdCount)
      ensures dataSourceRequests == old(dataSourceRequests) && modelBundleRequests == old(modelBundleRequests)
    {
      dataSources := dataSources - {taskId};
    }

    /** `setModelBundle:forModelId:` */
    method SetModelBundle(bundle: MockModelBundle, modelId: string)
      requires Valid()
      modifies this
      ensures Valid()
      ensures modelBundles == old(modelBundles)[modelId := bundle]
      ensures dataSources == old(dataSources)
      ensures dataSourceForTaskWithIdCount == old(dataSourceForTaskWithIdCount)
      ensures modelBundleForModelWithIdCount == old(modelBundleForModelWithIdCount)
      ensures dataSourceRequests == old(dataSourceRequests) && modelBundleRequests == old(modelBundleRequests)
    {
      modelBundles := modelBundles[modelId := bundle];
    }

    /** `removeModelBundleForModelId:` */
    method RemoveModelBundleForModelId(modelId: string)
      requires Valid()
      modifies this
      ensures Valid()
      ensures modelBundles == old(modelBundles) - {modelId}
      ensures dataSources == old(dataSources)
      ensures dataSourceForTaskWithIdCount == old(dataSourceForTaskWithIdCount)
      ensures modelBundleForModelWithIdCount == old(modelBundleForModelWithIdCount)
      ensures dataSourceRequests == old(dataSourceRequests) && modelBundleRequests == old(modelBundleRequests)
    {
      modelBundles := modelBundles - {modelId};
    }
  }
}
