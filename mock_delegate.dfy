/** `TIOMockFederatedManagerDelegate`: counts the federated manager's delegate
    callbacks per task id and per action, and resolves its test expectation
    once a task has completed or failed. Beside the counters it keeps, as a
    specification-only record, the argument of every callback of each kind in
    the order they came. */
module FederatedManagerDelegateMock {
  import opened Counters
  import opened FederatedManagement

  class MockFederatedManagerDelegate {
    var willBeginProcessingTaskWithIdCount: map<string, nat>
    var didCompleteTaskWithIdCount: map<string, nat>
    var didBeginActionCount: map<FederatedManagerAction, nat>
    var didFailWithErrorCount: map<FederatedManagerAction, nat>
    /** Whether `expectation` has been fulfilled. */
    var expectationFulfilled: bool
    /** The task ids of the begin-processing callbacks, oldest first. */
    ghost var processingStarted: seq<string>
    /** The task ids of the complete callbacks, oldest first. */
    ghost var completed: seq<string>
    /** The actions of the begin callbacks, oldest first. */
    ghost var actionsBegun: seq<FederatedManagerAction>
    /** The actions of the failure callbacks, oldest first. */
    ghost var actionsFailed: seq<FederatedManagerAction>

    /** Every counter is the number of matching callbacks received, and the
        expectation is fulfilled exactly when a task has completed or an
        action has failed. */
    ghost predicate Valid()
      reads this
    {
      && (forall t :: CountOf(willBeginProcessingTaskWithIdCount, t) == multiset(processingStarted)[t])
      && (forall t :: CountOf(didCompleteTaskWithIdCount, t) == multiset(completed)[t])
      && (forall a :: CountOf(didBeginActionCount, a) == multiset(actionsBegun)[a])
      && (forall a :: CountOf(didFailWithErrorCount, a) == multiset(actionsFailed)[a])
      && (expectationFulfilled <==> |completed| + |actionsFailed| > 0)
    }

    /** `initWithExpectation:`: no callbacks yet, expectation unfulfilled. */
    constructor InitWithExpectation()
      ensures Valid()
      ensures !expectationFulfilled
      ensures processingStarted == [] && completed == [] && actionsBegun == [] && actionsFailed == []
      ensures willBeginProcessingTaskWithIdCount == map[] && didCompleteTaskWithIdCount == map[]
      ensures didBeginActionCount == map[] && didFailWithErrorCount == map[]
    {
      willBeginProcessingTaskWithIdCount, didCompleteTaskWithIdCount := map[], map[];
      didBeginActionCount, didFailWithErrorCount := map[], map[];
      expectationFulfilled := false;
      processingStarted, completed, actionsBegun, actionsFailed := [], [], [], [];
    }

    /** `federatedManager:didBeginAction:` counts one more start of `action`. */
    method DidBeginAction(action: FederatedManagerAction)
      requires Valid()
      modifies this
      ensures Valid()
      ensures actionsBegun == old(actionsBegun) + [action]
      ensures didBeginActionCount == Bump(old(didBeginActionCount), action)
      ensures willBeginProcessingTaskWithIdCount == old(willBeginProcessingTaskWithIdCount)
      ensures didCompleteTaskWithIdCount == old(didCompleteTaskWithIdCount)
      ensures didFailWithErrorCount == old(didFailWithErrorCount)
      ensures expectationFulfilled == old(expectationFulfilled)
      ensures processingStarted == old(processingStarted) && completed == old(completed) && actionsFailed == old(actionsFailed)
    {
      BumpTracksHistory(didBeginActionCount, actionsBegun, action);
      didBeginActionCount := Bump(didBeginActionCount, action);
      actionsBegun := actionsBegun + [action];
    }

    /** `federatedManager:willBeginProcessingTaskWithId:` counts one more for
        `taskId`. */
    method WillBeginProcessingTaskWithId(taskId: string)
      requires Valid()
      modifies this
      ensures Valid()
      ensures processingStarted == old(processingStarted) + [taskId]
      ensures willBeginProcessingTaskWithIdCount == Bump(old(willBeginProcessingTaskWithIdCount), taskId)
      ensures didCompleteTaskWithIdCount == old(didCompleteTaskWithIdCount)
      ensures didBeginActionCount == old(didBeginActionCount)
      ensures didFailWithErrorCount == old(didFailWithErrorCount)
      ensures expectationFulfilled == old(expectationFulfilled)
      ensures completed == old(completed) && actionsBegun == old(actionsBegun) && actionsFailed == old(actionsFailed)
    {
      BumpTracksHistory(willBeginProcessingTaskWithIdCount, processingStarted, taskId);
      willBeginProcessingTaskWithIdCount := Bump(willBeginProcessingTaskWithIdCount, taskId);
      processingStarted := processingStarted + [taskId];
    }

    /** `federatedManager:didCompleteTaskWithId:` counts one more for `taskId`
        and fulfils the expectation. */
    method DidCompleteTaskWithId(taskId: string)
      requires Valid()
      modifies this
      ensures Valid()
      ensures completed == old(completed) + [taskId]
      ensures didCompleteTaskWithIdCount == Bump(old(didCompleteTaskWithIdCount), taskId)
      ensures willBeginProcessingTaskWithIdCount == old(willBeginProcessingTaskWithIdCount)
      ensures didBeginActionCount == old(didBeginActionCount)
      ensures didFailWithErrorCount == old(didFailWithErrorCount)
      ensures expectationFulfilled
      ensures processingStarted == old(processingStarted) && actionsBegun == old(actionsBegun) && actionsFailed == old(actionsFailed)
    {
      BumpTracksHistory(didCompleteTaskWithIdCount, completed, taskId);
      didCompleteTaskWithIdCount := Bump(didCompleteTaskWithIdCount, taskId);
      completed := completed + [taskId];
      expectationFulfilled := true;
    }

    /** `federatedManager:didFailWithError:forAction:` counts one more failure
        of `action` and fulfils the expectation; the error itself is not kept. */
    method DidFailWithError(error: string, action: FederatedManagerAction)
      requires Valid()
      modifies this
      ensures Valid()
      ensures actionsFailed == old(actionsFailed) + [action]
      ensures didFailWithErrorCount == Bump(old(didFailWithErrorCount), action)
      ensures willBeginProcessingTaskWithIdCount == old(willBeginProcessingTaskWithIdCount)
      ensures didCompleteTaskWithIdCount == old(didCompleteTaskWithIdCount)
      ensures didBeginActionCount == old(didBeginActionCount)
      ensures expectationFulfilled
      ensures processingStarted == old(processingStarted) && completed == old(completed) && actionsBegun == old(actionsBegun)
    {
      BumpTracksHistory(didFailWithErrorCount, actionsFailed, action);
      didFailWithErrorCount := Bump(didFailWithErrorCount, action);
      actionsFailed := actionsFailed + [action];
      expectationFulfilled := true;
    }

    /** `willBeginProcessingTaskWithIdCountForTaskId:` */
    method WillBeginProcessingTaskWithIdCountForTaskId(taskId: string) returns (count: nat)
      requires Valid()
      ensures count == multiset(processingStarted)[taskId]
    {
      count := CountOf(willBeginProcessingTaskWithIdCount, taskId);
    }

    /** `didCompleteTaskWithIdCountForTaskId:` */
    method DidCompleteTaskWithIdCountForTaskId(taskId: string) returns (count: nat)
      requires Valid()
      ensures count == multiset(completed)[taskId]
    {
      count := CountOf(didCompleteTaskWithIdCount, taskId);
    }

    /** `didBeginActionCountForAction:` */
    method DidBeginActionCountForAction(action: FederatedManagerAction) returns (count: nat)
      requires Valid()
      ensures count == multiset(actionsBegun)[action]
    {
      count := CountOf(didBeginActionCount, action);
    }

    /** `didFailWithErrorCountForAction:` */
    method DidFailWithErrorCountForAction(action: FederatedManagerAction) returns (count: nat)
      requires Valid()
      ensures count == multiset(actionsFailed)[action]
    {
      count := CountOf(didFailWithErrorCount, action);
    }
  }
}
