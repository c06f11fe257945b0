/** `TIOMockBatchDataSource`: a batch data source of a given size that counts
    how many times each index has been fetched, so that the trainer's loop can
    be checked against its fetch counts. */
module BatchDataSourceMock {
  import opened TensorData

  /** The row the mock returns for an index: every key maps to a value tagged
      with that index, so a row reveals which index it was fetched for. */
  function MockItem(keys: seq<string>, index: nat): (item: BatchItem)
    ensures item.Keys == KeySet(keys)
    ensures forall k :: k in item ==> item[k] == Data(index)
  {
    map k | k in KeySet(keys) :: Data(index)
  }

  /** The rows for a sequence of indices. */
  function Rows(keys: seq<string>, indices: seq<nat>): seq<BatchItem>
  {
    seq(|indices|, j requires 0 <= j < |indices| => MockItem(keys, indices[j]))
  }

  lemma RowsAppend(keys: seq<string>, indices: seq<nat>, i: nat)
    ensures Rows(keys, indices + [i]) == Rows(keys, indices) + [MockItem(keys, i)]
  {
  }

  /** The fetch counters went from `before` to `after` by fetching `indices`:
      every counter grew by the number of times its index occurs there. */
  predicate FetchedBy(before: seq<nat>, after: seq<nat>, indices: seq<nat>)
  {
    |after| == |before| &&
    forall i :: 0 <= i < |before| ==> after[i] == before[i] + multiset(indices)[i]
  }

  /** Fetching one run of indices and then another fetches their
      concatenation. */
  lemma FetchedByAppend(c0: seq<nat>, c1: seq<nat>, c2: seq<nat>, x: seq<nat>, y: seq<nat>)
    requires FetchedBy(c0, c1, x) && FetchedBy(c1, c2, y)
    ensures FetchedBy(c0, c2, x + y)
  {
    assert multiset(x + y) == multiset(x) + multiset(y);
  }

  /** The fetch counters went from `before` to `after` by fetching every index
      `times` times. */
  predicate FetchedEvery(before: seq<nat>, after: seq<nat>, times: nat)
  {
    |after| == |before| &&
    forall i :: 0 <= i < |before| ==> after[i] == before[i] + times
  }

  lemma FetchedEveryAdd(c0: seq<nat>, c1: seq<nat>, c2: seq<nat>, x: nat, y: nat)
    requires FetchedEvery(c0, c1, x) && FetchedEvery(c1, c2, y)
    ensures FetchedEvery(c0, c2, x + y)
  {
  }

  class MockBatchDataSource {
    /** The keys of the rows this source vends. */
    const keys: seq<string>
    /** `itemAtIndexCount`: one fetch counter per index. */
    var itemAtIndexCount: seq<nat>

    /** `initWithItemCount:`, with the keys the vended rows carry. */
    constructor (count: nat, keys: seq<string>)
      ensures this.keys == keys
      ensures |itemAtIndexCount| == count && NumberOfItems() == count
      ensures forall i :: 0 <= i < count ==> itemAtIndexCount[i] == 0
    {
      this.keys := keys;
      itemAtIndexCount := seq(count, _ => 0);
    }

    /** `numberOfItems` equals the count given at initialization. */
    function NumberOfItems(): (n: nat)
      reads this
      ensures n == |itemAtIndexCount|
    {
      |itemAtIndexCount|
    }

    /** `itemAtIndexCountAtIndex:`. */
    method ItemAtIndexCountAtIndex(index: nat) returns (count: nat)
      requires index < NumberOfItems()
      ensures count == itemAtIndexCount[index]
    {
      count := itemAtIndexCount[index];
    }

    /** `itemAtIndex:` returns the row for an index and adds one to that
        index's counter, leaving every other counter as it was. */
    method ItemAtIndex(index: nat) returns (item: BatchItem)
      requires index < NumberOfItems()
      modifies this
      ensures item == MockItem(keys, index) && item.Keys == KeySet(keys)
      ensures |itemAtIndexCount| == old(|itemAtIndexCount|) && NumberOfItems() == old(NumberOfItems())
      ensures itemAtIndexCount[index] == old(itemAtIndexCount[index]) + 1
      ensures forall i :: 0 <= i < |itemAtIndexCount| && i != index ==> itemAtIndexCount[i] == old(itemAtIndexCount[i])
      ensures FetchedBy(old(itemAtIndexCount), itemAtIndexCount, [index])
    {
      itemAtIndexCount := itemAtIndexCount[index := itemAtIndexCount[index] + 1];
      item := MockItem(keys, index);
    }
  }
}
