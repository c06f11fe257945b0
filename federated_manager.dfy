/** `TIOFederatedManager`: the model ids it tracks for federated tasks, and the
    actions it reports to its delegate. The task pipeline that `checkForTasks`
    starts is not part of this model; only its precondition and the ids it
    works from are. */
module FederatedManagement {
  import opened Sequences

  /** `TIOFederatedManagerAction`, in declaration order. */
  datatype FederatedManagerAction =
    | GetTasks
    | GetTask
    | DownloadTaskBundle
    | UnpackageTaskBundle
    | StartTask
    | LoadTask
    | LoadModel
    | TrainModel
    | UploadTaskResults

  /** No id is listed twice. */
  ghost predicate NoDuplicates(ids: seq<string>)
  {
    forall i, j :: 0 <= i < j < |ids| ==> ids[i] != ids[j]
  }

  /** The tracked ids after registering `modelId`: it is listed, once, and the
      listing is otherwise unchanged. */
  function Registered(ids: seq<string>, modelId: string): (r: seq<string>)
    ensures modelId in r
    ensures forall x :: x in r <==> x in ids || x == modelId
    ensures modelId in ids ==> r == ids
    ensures NoDuplicates(ids) ==> NoDuplicates(r)
  {
    if modelId in ids then ids else ids + [modelId]
  }

  /** The tracked ids after unregistering `modelId`: every other id keeps its
      place in the listing. */
  function Unregistered(ids: seq<string>, modelId: string): (r: seq<string>)
    ensures forall x :: x in r <==> x in ids && x != modelId
    ensures modelId !in ids ==> r == ids
    ensures NoDuplicates(ids) ==> NoDuplicates(r)
    ensures |r| <= |ids|
  {
    if |ids| == 0 then []
    else
      var rest := Unregistered(ids[1..], modelId);
      assert NoDuplicates(ids) ==> NoDuplicates(ids[1..]) by {
        if NoDuplicates(ids) {
          forall i, j | 0 <= i < j < |ids[1..]| ensures ids[1..][i] != ids[1..][j] {
            assert ids[1..][i] == ids[i + 1] && ids[1..][j] == ids[j + 1];
          }
        }
      }
      if ids[0] == modelId then rest
      else
        assert NoDuplicates(ids) ==> NoDuplicates([ids[0]] + rest) by {
          if NoDuplicates(ids) {
            assert ids[0] !in ids[1..] by {
              assert forall k :: 0 <= k < |ids[1..]| ==> ids[1..][k] == ids[k + 1];
            }
            var r := [ids[0]] + rest;
            forall i, j | 0 <= i < j < |r| ensures r[i] != r[j] {
              if i == 0 {
                assert r[j] == rest[j - 1];
              } else {
                assert r[i] == rest[i - 1] && r[j] == rest[j - 1];
              }
            }
          }
        }
        [ids[0]] + rest
  }

  /** Unregistering distributes over a split of the listing. */
  lemma {:induction false} UnregisteredAppend(a: seq<string>, b: seq<string>, modelId: string)
    ensures Unregistered(a + b, modelId) == Unregistered(a, modelId) + Unregistered(b, modelId)
    decreases |a|
  {
    if |a| == 0 {
      assert a + b == b;
    } else {
      assert (a + b)[1..] == a[1..] + b;
      UnregisteredAppend(a[1..], b, modelId);
    }
  }

  /** Registering twice tracks the same ids as registering once. */
  lemma RegisterIdempotent(ids: seq<string>, modelId: string)
    ensures Registered(Registered(ids, modelId), modelId) == Registered(ids, modelId)
  {
  }

  /** Unregistering an id never registered undoes its registration exactly. */
  lemma UnregisterUndoesRegister(ids: seq<string>, modelId: string)
    requires modelId !in ids
    ensures Unregistered(Registered(ids, modelId), modelId) == ids
  {
    UnregisteredAppend(ids, [modelId], modelId);
    assert Unregistered([modelId], modelId) == Unregistered([], modelId);
  }

  /** Unregistering twice is the same as unregistering once. */
  lemma {:induction false} UnregisterIdempotent(ids: seq<string>, modelId: string)
    ensures Unregistered(Unregistered(ids, modelId), modelId) == Unregistered(ids, modelId)
  {
    var r := Unregistered(ids, modelId);
    assert modelId !in r;
  }

  /** Registering and unregistering one id leave whether any other id is
      tracked unchanged. */
  lemma OtherIdsUnaffected(ids: seq<string>, modelId: string, other: string)
    requires other != modelId
    ensures other in Registered(ids, modelId) <==> other in ids
    ensures other in Unregistered(ids, modelId) <==> other in ids
  {
  }

  /** The loop `unregisterForTasksForModelWithId:` runs over the tracked ids:
      keeps, in order, every id other than `modelId`. */
  method WithoutId(ids: seq<string>, modelId: string) returns (kept: seq<string>)
    ensures kept == Unregistered(ids, modelId)
  {
    kept := [];
    var i := 0;
    while i < |ids|
      invariant 0 <= i <= |ids|
      invariant kept == Unregistered(ids[..i], modelId)
    {
      UnregisteredAppend(ids[..i], [ids[i]], modelId);
      PrefixSnoc(ids, i);
      if ids[i] != modelId {
        kept := kept + [ids[i]];
      }
      i := i + 1;
    }
    assert ids[..i] == ids;
  }

  class FederatedManager {
    /** Whether `dataSourceProvider` is set; it is a weak reference and may
        become nil. */
    var hasDataSourceProvider: bool
    /** Whether a delegate is set. */
    var hasDelegate: bool
    /** `registeredModelIds`. */
    var registeredModelIds: seq<string>

    ghost predicate Valid()
      reads this
    {
      NoDuplicates(registeredModelIds)
    }

    /** `initWithDataSourceProvider:delegate:`: the provider is required, the
        delegate optional, and no model ids are tracked yet. */
    constructor (hasDelegate: bool)
      ensures Valid()
      ensures hasDataSourceProvider && this.hasDelegate == hasDelegate
      ensures registeredModelIds == []
    {
      hasDataSourceProvider := true;
      this.hasDelegate := hasDelegate;
      registeredModelIds := [];
    }

    /** Setting or clearing `dataSourceProvider`. */
    method SetDataSourceProvider(present: bool)
      modifies this
      ensures hasDataSourceProvider == present
      ensures hasDelegate == old(hasDelegate) && registeredModelIds == old(registeredModelIds)
    {
      hasDataSourceProvider := present;
    }

    /** Setting or clearing `delegate`. */
    method SetDelegate(present: bool)
      modifies this
      ensures hasDelegate == present
      ensures hasDataSourceProvider == old(hasDataSourceProvider) && registeredModelIds == old(registeredModelIds)
    {
      hasDelegate := present;
    }

    /** `registerForTasksForModelWithId:`; a data source provider must be set
        before registering. */
    method RegisterForTasksForModelWithId(modelId: string)
      requires Valid() && hasDataSourceProvider
      modifies this
      ensures Valid()
      ensures registeredModelIds == Registered(old(registeredModelIds), modelId)
      ensures hasDataSourceProvider == old(hasDataSourceProvider) && hasDelegate == old(hasDelegate)
    {
      if modelId !in registeredModelIds {
        registeredModelIds := registeredModelIds + [modelId];
      }
    }

    /** `unregisterForTasksForModelWithId:`; an id that is not tracked is
        ignored. */
    method UnregisterForTasksForModelWithId(modelId: string)
      requires Valid()
      modifies this
      ensures Valid()
      ensures registeredModelIds == Unregistered(old(registeredModelIds), modelId)
      ensures hasDataSourceProvider == old(hasDataSourceProvider) && hasDelegate == old(hasDelegate)
    {
      var kept := WithoutId(registeredModelIds, modelId);
      registeredModelIds := kept;
    }

    /** `checkForTasks`: a data source provider must be set; tasks are asked
        for exactly the tracked model ids, each once. */
    method CheckForTasks() returns (requested: seq<string>)
      requires Valid() && hasDataSourceProvider
      ensures forall m :: m in requested <==> m in registeredModelIds
      ensures NoDuplicates(requested)
    {
      requested := registeredModelIds;
    }
  }
}
