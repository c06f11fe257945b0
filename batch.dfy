/** `TIOBatch`: a mutable table of training examples. Each row (item) maps the
    batch's keys to values; a column gathers one key's value across all rows. */
module Batches {
  import opened TensorData

  class Batch {
    /** The batch keys, fixed at initialization. */
    const keys: seq<string>
    /** The rows added so far, in the order they were added. */
    var items: seq<BatchItem>

    /** Every row carries exactly the batch keys. */
    ghost predicate Valid()
      reads this
    {
      forall j :: 0 <= j < |items| ==> items[j].Keys == KeySet(keys)
    }

    /** The number of items in the batch. */
    function Count(): (n: nat)
      reads this
      ensures n == |items|
    {
      |items|
    }

    /** `initWithKeys:`: an empty batch with the given keys. */
    constructor (keys: seq<string>)
      ensures Valid()
      ensures this.keys == keys && items == [] && Count() == 0
    {
      this.keys := keys;
      items := [];
    }

    /** `addItem:` appends one row; the row must carry exactly the batch keys. */
    method AddItem(item: BatchItem)
      requires Valid()
      requires item.Keys == KeySet(keys)
      modifies this
      ensures Valid()
      ensures items == old(items) + [item]
      ensures Count() == old(Count()) + 1
    {
      items := items + [item];
    }

    /** `itemAtIndex:` returns the row added at that position. */
    method ItemAtIndex(index: nat) returns (item: BatchItem)
      requires index < Count()
      ensures item == items[index]
    {
      item := items[index];
    }

    /** `valuesForKey:` returns the column for one of the batch keys: one value
        per row, in row order. */
    method ValuesForKey(key: string) returns (column: seq<Data>)
      requires Valid()
      requires key in keys
      ensures |column| == Count()
      ensures forall j :: 0 <= j < |column| ==> key in items[j] && column[j] == items[j][key]
    {
      column := [];
      var j := 0;
      while j < |items|
        invariant 0 <= j <= |items|
        invariant |column| == j
        invariant forall i :: 0 <= i < j ==> key in items[i] && column[i] == items[i][key]
      {
        assert items[j].Keys == KeySet(keys);
        column := column + [items[j][key]];
        j := j + 1;
      }
    }
  }
}
