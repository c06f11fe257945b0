/** `TIOModelTrainer`: runs training passes on a model, iterating over a number
    of epochs and preparing batches of a given size from a batch data source,
    or training on one batch handed to it directly.

    Each epoch visits every index of the data source once: in ascending order,
    or -- when shuffling -- in the order of a permutation drawn for that epoch.
    The visited indices are cut into consecutive chunks of `batchSize`; the last
    chunk of an epoch may be shorter and is kept. Each chunk becomes one batch
    and one call of the model's `train:`. */
module Training {
  import opened TensorData
  import opened Batches
  import opened BatchDataSourceMock
  import opened TrainableModelMock
  import opened FederatedTasks
  import opened Sequences

  // ---------------------------------------------------------------------------
  // Index orders

  /** The ascending index order 0, 1, ..., n - 1. */
  function Range(n: nat): (r: seq<nat>)
    ensures |r| == n
  {
    if n == 0 then [] else Range(n - 1) + [n - 1]
  }

  /** Position i of the ascending order holds i. */
  lemma {:induction false} RangeAscending(n: nat)
    ensures forall i :: 0 <= i < n ==> Range(n)[i] == i
  {
    if n > 0 {
      RangeAscending(n - 1);
      assert forall i :: 0 <= i < n - 1 ==> Range(n)[i] == Range(n - 1)[i];
    }
  }

  /** Appending an index adds one to its multiplicity and nothing to any
      other's. */
  lemma MultiplicitySnoc(s: seq<nat>, x: nat, i: nat)
    ensures multiset(s + [x])[i] == multiset(s)[i] + if i == x then 1 else 0
  {
    assert multiset(s + [x]) == multiset(s) + multiset{x};
  }

  lemma {:induction false} RangeMultiplicity(n: nat, i: nat)
    ensures multiset(Range(n))[i] == if i < n then 1 else 0
  {
    if n > 0 {
      var last: nat := n - 1;
      RangeMultiplicity(last, i);
      assert Range(n) == Range(last) + [last];
      MultiplicitySnoc(Range(last), last, i);
    }
  }

  /** `order` visits each of the indices 0 .. n - 1 exactly once. */
  predicate IsPermutation(order: seq<nat>, n: nat)
  {
    multiset(order) == multiset(Range(n))
  }

  lemma PermutationStaysInRange(order: seq<nat>, n: nat)
    requires IsPermutation(order, n)
    ensures |order| == n
    ensures forall j :: 0 <= j < |order| ==> order[j] < n
  {
    assert |multiset(order)| == |order|;
    assert |multiset(Range(n))| == n;
    forall j | 0 <= j < |order|
      ensures order[j] < n
    {
      assert order[j] in multiset(order);
      RangeMultiplicity(n, order[j]);
    }
  }

  lemma PermutationVisitsOnce(order: seq<nat>, n: nat, i: nat)
    requires IsPermutation(order, n)
    requires i < n
    ensures multiset(order)[i] == 1
  {
    RangeMultiplicity(n, i);
  }

  // ---------------------------------------------------------------------------
  // Batching one epoch

  /** The batches of one epoch: consecutive chunks of `size` indices; the last
      one holds whatever is left. */
  function Chunks(order: seq<nat>, size: nat): seq<seq<nat>>
    requires size >= 1
    decreases |order|
  {
    if order == [] then []
    else if |order| <= size then [order]
    else [order[..size]] + Chunks(order[size..], size)
  }

  /** The concatenation of a list of batches. */
  function Flatten(chunks: seq<seq<nat>>): seq<nat>
  {
    if chunks == [] then [] else chunks[0] + Flatten(chunks[1..])
  }

  /** ceil(n / d). */
  function CeilDiv(n: nat, d: nat): nat
    requires d >= 1
  {
    (n + d - 1) / d
  }

  lemma DivUnique(a: nat, d: nat, q: int, r: int)
    requires d >= 1
    requires a == q * d + r && 0 <= r < d
    ensures a / d == q
  {
    var k := a / d - q;
    assert d * k == r - a % d;
  }

  lemma DivStep(x: nat, d: nat)
    requires d >= 1
    ensures (x + d) / d == x / d + 1
  {
    var q, r := x / d, x % d;
    assert x + d == (q + 1) * d + r;
    DivUnique(x + d, d, q + 1, r);
  }

  lemma DivSmall(n: nat, d: nat)
    requires 1 <= n <= d
    ensures (n + d - 1) / d == 1
  {
  }

  /** Taking a batch off the front of what is left of an epoch. */
  lemma ChunksStep(order: seq<nat>, start: nat, size: nat)
    requires size >= 1
    requires start < |order|
    ensures var end := if start + size <= |order| then start + size else |order|;
      Chunks(order[start..], size) == [order[start..end]] + Chunks(order[end..], size)
  {
    var end := if start + size <= |order| then start + size else |order|;
    var rest := order[start..];
    if |rest| <= size {
      assert end == |order| && rest == order[start..end];
      assert order[end..] == [];
    } else {
      assert rest[..size] == order[start..end];
      assert rest[size..] == order[end..];
    }
  }

  /** The batches of an epoch hold exactly the epoch's indices, in order. */
  lemma {:induction false} ChunksFlatten(order: seq<nat>, size: nat)
    requires size >= 1
    ensures Flatten(Chunks(order, size)) == order
    decreases |order|
  {
    if order != [] && |order| > size {
      ChunksFlatten(order[size..], size);
      var c := Chunks(order, size);
      assert c[0] == order[..size] && c[1..] == Chunks(order[size..], size);
      assert order == order[..size] + order[size..];
    }
  }

  /** Flattening distributes over concatenation. */
  lemma {:induction false} FlattenAppend(a: seq<seq<nat>>, b: seq<seq<nat>>)
    ensures Flatten(a + b) == Flatten(a) + Flatten(b)
    decreases |a|
  {
    if a == [] {
      assert a + b == b;
    } else {
      assert (a + b)[1..] == a[1..] + b;
      FlattenAppend(a[1..], b);
      AppendAssoc(a[0], Flatten(a[1..]), Flatten(b));
    }
  }

  /** No batch is empty or larger than `size`, and every batch but the last is
      exactly `size` long. */
  lemma {:induction false} ChunksSizes(order: seq<nat>, size: nat)
    requires size >= 1
    ensures forall k :: 0 <= k < |Chunks(order, size)| ==> 1 <= |Chunks(order, size)[k]| <= size
    ensures forall k :: 0 <= k < |Chunks(order, size)| - 1 ==> |Chunks(order, size)[k]| == size
    decreases |order|
  {
    if order != [] && |order| > size {
      ChunksSizes(order[size..], size);
      var c := Chunks(order, size);
      assert c[1..] == Chunks(order[size..], size);
      forall k | 1 <= k < |c|
        ensures c[k] == Chunks(order[size..], size)[k - 1]
      {
      }
    }
  }

  /** An epoch over n indices has ceil(n / size) batches. */
  lemma {:induction false} ChunksCount(order: seq<nat>, size: nat)
    requires size >= 1
    ensures |Chunks(order, size)| == CeilDiv(|order|, size)
    decreases |order|
  {
    if order == [] {
    } else if |order| <= size {
      DivSmall(|order|, size);
    } else {
      ChunksCount(order[size..], size);
      DivStep(|order| - size + size - 1, size);
    }
  }

  // ---------------------------------------------------------------------------
  // The whole run

  /** The index order of every epoch: the given permutations when shuffling,
      otherwise ascending order each time. */
  function EpochOrders(permutations: seq<seq<nat>>, n: nat, epochs: nat, shuffle: bool): seq<seq<nat>>
  {
    if shuffle then permutations else seq(epochs, _ => Range(n))
  }

  /** The batches of a whole run, epoch after epoch. */
  function Schedule(orders: seq<seq<nat>>, size: nat): seq<seq<nat>>
    requires size >= 1
    decreases |orders|
  {
    if orders == [] then []
    else Schedule(orders[..|orders| - 1], size) + Chunks(orders[|orders| - 1], size)
  }

  /** A run of E epochs over n indices makes E * ceil(n / size) batches. */
  lemma {:induction false} ScheduleCount(orders: seq<seq<nat>>, n: nat, size: nat)
    requires size >= 1
    requires forall e :: 0 <= e < |orders| ==> |orders[e]| == n
    ensures |Schedule(orders, size)| == |orders| * CeilDiv(n, size)
    decreases |orders|
  {
    if orders != [] {
      var last := |orders| - 1;
      var init := orders[..last];
      assert forall e :: 0 <= e < |init| ==> init[e] == orders[e];
      ScheduleCount(init, n, size);
      ChunksCount(orders[last], size);
      var c := CeilDiv(n, size);
      assert |Schedule(orders, size)| == |Schedule(init, size)| + |Chunks(orders[last], size)|;
      MulSucc(last, c);
    }
  }

  lemma MulSucc(a: nat, c: nat)
    ensures (a + 1) * c == a * c + c
  {
  }

  /** The schedule of one more epoch is the earlier schedule followed by that
      epoch's batches. */
  lemma ScheduleSnoc(orders: seq<seq<nat>>, e: nat, size: nat)
    requires size >= 1
    requires e < |orders|
    ensures Schedule(orders[..e + 1], size) == Schedule(orders[..e], size) + Chunks(orders[e], size)
  {
    assert orders[..e + 1][..e] == orders[..e];
    assert orders[..e + 1][e] == orders[e];
  }

  /** Every batch of a run is non-empty and at most `size` long. */
  lemma {:induction false} ScheduleBatchesBounded(orders: seq<seq<nat>>, size: nat)
    requires size >= 1
    ensures forall k :: 0 <= k < |Schedule(orders, size)| ==> 1 <= |Schedule(orders, size)[k]| <= size
    decreases |orders|
  {
    if orders != [] {
      var last := |orders| - 1;
      ScheduleBatchesBounded(orders[..last], size);
      ChunksSizes(orders[last], size);
    }
  }

  /** The rows of each batch of a run. */
  function BatchRows(keys: seq<string>, chunks: seq<seq<nat>>): seq<seq<BatchItem>>
  {
    seq(|chunks|, k requires 0 <= k < |chunks| => Rows(keys, chunks[k]))
  }

  lemma BatchRowsAppend(keys: seq<string>, a: seq<seq<nat>>, b: seq<seq<nat>>)
    ensures BatchRows(keys, a + b) == BatchRows(keys, a) + BatchRows(keys, b)
  {
  }

  /** Seven ascending indices in batches of three: sizes 3, 3 and 1. */
  lemma SevenRowsChunks()
    ensures Chunks(Range(7), 3) == [[0, 1, 2], [3, 4, 5], [6]]
  {
    var r := Range(7);
    assert r == [0, 1, 2, 3, 4, 5, 6];
    assert r[..3] == [0, 1, 2];
    assert r[3..][..3] == [3, 4, 5];
    assert r[3..][3..] == [6];
    assert Chunks(r[3..][3..], 3) == [[6]];
    assert Chunks(r[3..], 3) == [[3, 4, 5], [6]];
  }

  /** Seven rows, batches of three, two epochs, no shuffling: each epoch makes
      batches of sizes 3, 3 and 1, so the run makes six batches and fetches
      fourteen rows. */
  lemma SevenRowsInBatchesOfThree()
    ensures Chunks(Range(7), 3) == [[0, 1, 2], [3, 4, 5], [6]]
    ensures |Schedule(EpochOrders([], 7, 2, false), 3)| == 6
    ensures Flatten(Schedule(EpochOrders([], 7, 2, false), 3)) == Range(7) + Range(7)
  {
    SevenRowsChunks();
    var r := Range(7);
    var orders := EpochOrders([], 7, 2, false);
    assert orders == [r, r];
    assert orders[..1] == [r];
    var one: seq<seq<nat>> := [r];
    assert one[..0] == [];
    assert Schedule([r], 3) == Chunks(r, 3);
    var c := Chunks(r, 3);
    assert Schedule(orders, 3) == c + c;
    ChunksFlatten(r, 3);
    FlattenAppend(c, c);
  }

  /** Every epoch's order is a permutation of all n indices, whether it is
      drawn by the shuffle or ascending. */
  lemma EpochOrdersArePermutations(permutations: seq<seq<nat>>, n: nat, epochs: nat, shuffle: bool)
    requires shuffle ==> (|permutations| == epochs && forall e :: 0 <= e < epochs ==> IsPermutation(permutations[e], n))
    ensures |EpochOrders(permutations, n, epochs, shuffle)| == epochs
    ensures forall e :: 0 <= e < epochs ==>
              && IsPermutation(EpochOrders(permutations, n, epochs, shuffle)[e], n)
              && |EpochOrders(permutations, n, epochs, shuffle)[e]| == n
  {
    var orders := EpochOrders(permutations, n, epochs, shuffle);
    forall e | 0 <= e < epochs
      ensures IsPermutation(orders[e], n) && |orders[e]| == n
    {
      PermutationStaysInRange(orders[e], n);
    }
  }

  /** Fetching a permutation of all indices fetches every index once. */
  lemma PermutationFetchesEvery(before: seq<nat>, after: seq<nat>, order: seq<nat>)
    requires IsPermutation(order, |before|) && FetchedBy(before, after, order)
    ensures FetchedEvery(before, after, 1)
  {
    forall i | 0 <= i < |before|
      ensures multiset(order)[i] == 1
    {
      PermutationVisitsOnce(order, |before|, i);
    }
  }

  // ---------------------------------------------------------------------------
  // The trainer

  class ModelTrainer {
    /** The model that is trained. */
    const model: MockTrainableModel
    /** The data source that provides the rows. */
    const dataSource: MockBatchDataSource
    const epochs: nat
    const batchSize: nat
    const shuffle: bool

    predicate Valid()
    {
      batchSize >= 1
    }

    /** A trainer over a data source with explicit parameters. */
    constructor (model: MockTrainableModel, dataSource: MockBatchDataSource, epochs: nat, batchSize: nat, shuffle: bool)
      requires batchSize >= 1
      ensures Valid()
      ensures this.model == model && this.dataSource == dataSource
      ensures this.epochs == epochs && this.batchSize == batchSize && this.shuffle == shuffle
    {
      this.model := model;
      this.dataSource := dataSource;
      this.epochs := epochs;
      this.batchSize := batchSize;
      this.shuffle := shuffle;
    }

    /** `initWithModel:task:dataSource:`: epochs, batch size and shuffle come
        from the task; its placeholders are ignored. */
    constructor FromTask(model: MockTrainableModel, task: FederatedTask, dataSource: MockBatchDataSource)
      requires task.batchSize >= 1
      ensures Valid()
      ensures this.model == model && this.dataSource == dataSource
      ensures TrainingParameters(epochs, batchSize, shuffle) == ParametersOf(task)
    {
      var p := ParametersOf(task);
      this.model := model;
      this.dataSource := dataSource;
      this.epochs := p.epochs;
      this.batchSize := p.batchSize;
      this.shuffle := p.shuffle;
    }

    /** Fetches the row for one index from the data source and adds it to
        `batch`. */
    method FetchInto(batch: Batch, index: nat)
      requires batch.Valid() && batch.keys == dataSource.keys
      requires index < dataSource.NumberOfItems()
      modifies batch, dataSource
      ensures batch.Valid()
      ensures batch.items == old(batch.items) + [MockItem(dataSource.keys, index)]
      ensures FetchedBy(old(dataSource.itemAtIndexCount), dataSource.itemAtIndexCount, [index])
    {
      var item := dataSource.ItemAtIndex(index);
      batch.AddItem(item);
    }

    /** Fetches the rows for `order[start..end]` into a fresh batch. */
    method PrepareBatch(order: seq<nat>, start: nat, end: nat) returns (batch: Batch)
      requires start <= end <= |order|
      requires forall j :: 0 <= j < |order| ==> order[j] < dataSource.NumberOfItems()
      modifies dataSource
      ensures fresh(batch) && batch.Valid()
      ensures batch.keys == dataSource.keys
      ensures batch.items == Rows(dataSource.keys, order[start..end])
      ensures FetchedBy(old(dataSource.itemAtIndexCount), dataSource.itemAtIndexCount, order[start..end])
    {
      batch := new Batch(dataSource.keys);
      var j := start;
      while j < end
        invariant start <= j <= end
        invariant fresh(batch) && batch.Valid() && batch.keys == dataSource.keys
        invariant batch.items == Rows(dataSource.keys, order[start..j])
        invariant FetchedBy(old(dataSource.itemAtIndexCount), dataSource.itemAtIndexCount, order[start..j])
      {
        ghost var counts := dataSource.itemAtIndexCount;
        ghost var fetched := order[start..j];
        FetchInto(batch, order[j]);
        FetchedByAppend(old(dataSource.itemAtIndexCount), counts, dataSource.itemAtIndexCount, fetched, [order[j]]);
        RowsAppend(dataSource.keys, fetched, order[j]);
        SliceSnoc(order, start, j);
        j := j + 1;
      }
    }

    /** One pass of the epoch loop: fetches the rows of `order[start..end]`
        into a batch and trains the model on it. */
    method TrainChunk(order: seq<nat>, start: nat, end: nat)
      requires Valid() && model.Valid()
      requires start <= end <= |order|
      requires forall j :: 0 <= j < |order| ==> order[j] < dataSource.NumberOfItems()
      modifies model, dataSource
      ensures model.Valid()
      ensures model.trained == old(model.trained) + [Rows(dataSource.keys, order[start..end])]
      ensures model.runCount == old(model.runCount) && model.exportCount == old(model.exportCount)
      ensures FetchedBy(old(dataSource.itemAtIndexCount), dataSource.itemAtIndexCount, order[start..end])
    {
      var batch := PrepareBatch(order, start, end);
      model.Train(batch);
    }

    /** One epoch over the indices in `order`: one `train:` call per chunk. */
    method TrainEpoch(order: seq<nat>)
      requires Valid() && model.Valid()
      requires forall j :: 0 <= j < |order| ==> order[j] < dataSource.NumberOfItems()
      modifies model, dataSource
      ensures model.Valid()
      ensures model.trained == old(model.trained) + BatchRows(dataSource.keys, Chunks(order, batchSize))
      ensures model.runCount == old(model.runCount) && model.exportCount == old(model.exportCount)
      ensures FetchedBy(old(dataSource.itemAtIndexCount), dataSource.itemAtIndexCount, order)
    {
      var start := 0;
      ghost var done: seq<seq<nat>> := [];
      while start < |order|
        invariant 0 <= start <= |order|
        invariant Chunks(order, batchSize) == done + Chunks(order[start..], batchSize)
        invariant model.Valid()
        invariant model.trained == old(model.trained) + BatchRows(dataSource.keys, done)
        invariant model.runCount == old(model.runCount) && model.exportCount == old(model.exportCount)
        invariant FetchedBy(old(dataSource.itemAtIndexCount), dataSource.itemAtIndexCount, order[..start])
      {
        var end := if start + batchSize <= |order| then start + batchSize else |order|;
        ghost var counts := dataSource.itemAtIndexCount;
        TrainChunk(order, start, end);
        FetchedByAppend(old(dataSource.itemAtIndexCount), counts, dataSource.itemAtIndexCount, order[..start], order[start..end]);
        PrefixSplit(order, start, end);
        ChunksStep(order, start, batchSize);
        ghost var chunk := order[start..end];
        AppendAssoc(done, [chunk], Chunks(order[end..], batchSize));
        BatchRowsAppend(dataSource.keys, done, [chunk]);
        assert BatchRows(dataSource.keys, [chunk]) == [Rows(dataSource.keys, chunk)];
        AppendAssoc(old(model.trained), BatchRows(dataSource.keys, done), BatchRows(dataSource.keys, [chunk]));
        done := done + [chunk];
        start := end;
      }
      assert order[..start] == order;
      assert order[start..] == [];
    }

    /** An epoch over a permutation of all indices fetches every row once. */
    method TrainPermutedEpoch(order: seq<nat>)
      requires Valid() && model.Valid()
      requires IsPermutation(order, dataSource.NumberOfItems())
      modifies model, dataSource
      ensures model.Valid()
      ensures model.trained == old(model.trained) + BatchRows(dataSource.keys, Chunks(order, batchSize))
      ensures model.runCount == old(model.runCount) && model.exportCount == old(model.exportCount)
      ensures FetchedEvery(old(dataSource.itemAtIndexCount), dataSource.itemAtIndexCount, 1)
    {
      PermutationStaysInRange(order, dataSource.NumberOfItems());
      TrainEpoch(order);
      PermutationFetchesEvery(old(dataSource.itemAtIndexCount), dataSource.itemAtIndexCount, order);
    }

    /** Runs one epoch per order, oldest first. */
    method TrainOrders(orders: seq<seq<nat>>)
      requires Valid() && model.Valid()
      requires forall e :: 0 <= e < |orders| ==> IsPermutation(orders[e], dataSource.NumberOfItems())
      modifies model, dataSource
      ensures model.Valid()
      ensures model.trained == old(model.trained) + BatchRows(dataSource.keys, Schedule(orders, batchSize))
      ensures model.runCount == old(model.runCount) && model.exportCount == old(model.exportCount)
      ensures FetchedEvery(old(dataSource.itemAtIndexCount), dataSource.itemAtIndexCount, |orders|)
    {
      var e := 0;
      while e < |orders|
        invariant 0 <= e <= |orders|
        invariant model.Valid()
        invariant model.trained == old(model.trained) + BatchRows(dataSource.keys, Schedule(orders[..e], batchSize))
        invariant model.runCount == old(model.runCount) && model.exportCount == old(model.exportCount)
        invariant FetchedEvery(old(dataSource.itemAtIndexCount), dataSource.itemAtIndexCount, e)
      {
        ghost var before := Schedule(orders[..e], batchSize);
        ghost var counts := dataSource.itemAtIndexCount;
        TrainPermutedEpoch(orders[e]);
        FetchedEveryAdd(old(dataSource.itemAtIndexCount), counts, dataSource.itemAtIndexCount, e, 1);
        ScheduleSnoc(orders, e, batchSize);
        BatchRowsAppend(dataSource.keys, before, Chunks(orders[e], batchSize));
        AppendAssoc(old(model.trained), BatchRows(dataSource.keys, before), BatchRows(dataSource.keys, Chunks(orders[e], batchSize)));
        e := e + 1;
      }
      assert orders[..e] == orders;
    }

    /** `train`: `epochs` epochs over the data source. `permutations` stands
        for the shuffle's random draws, one order per epoch; it is only read
        when shuffling. Every index is fetched once per epoch, and the model
        is trained on the batches of the run's schedule, in order. */
    method Train(permutations: seq<seq<nat>>)
      requires Valid() && model.Valid()
      requires shuffle ==>
                 (|permutations| == epochs &&
                  forall e :: 0 <= e < epochs ==> IsPermutation(permutations[e], dataSource.NumberOfItems()))
      modifies model, dataSource
      ensures model.Valid()
      ensures model.trained == old(model.trained) +
                BatchRows(dataSource.keys, Schedule(EpochOrders(permutations, dataSource.NumberOfItems(), epochs, shuffle), batchSize))
      ensures model.trainCount == old(model.trainCount) + epochs * CeilDiv(dataSource.NumberOfItems(), batchSize)
      ensures model.runCount == old(model.runCount) && model.exportCount == old(model.exportCount)
      ensures FetchedEvery(old(dataSource.itemAtIndexCount), dataSource.itemAtIndexCount, epochs)
    {
      var n := dataSource.NumberOfItems();
      var orders := EpochOrders(permutations, n, epochs, shuffle);
      EpochOrdersArePermutations(permutations, n, epochs, shuffle);
      TrainOrders(orders);
      ScheduleCount(orders, n, batchSize);
    }
  }

  /** n copies of x. */
  function Repeat<T>(x: T, n: nat): (r: seq<T>)
    ensures |r| == n
    ensures forall k :: 0 <= k < n ==> r[k] == x
  {
    if n == 0 then [] else Repeat(x, n - 1) + [x]
  }

  /** Single-batch mode: the given batch is passed, as it is, to one `train:`
      call per epoch. */
  method TrainOnBatch(model: MockTrainableModel, batch: Batch, epochs: nat)
    requires model.Valid()
    modifies model
    ensures model.Valid()
    ensures model.trained == old(model.trained) + Repeat(batch.items, epochs)
    ensures model.runCount == old(model.runCount) && model.exportCount == old(model.exportCount)
  {
    var e := 0;
    while e < epochs
      invariant 0 <= e <= epochs
      invariant model.Valid()
      invariant model.trained == old(model.trained) + Repeat(batch.items, e)
      invariant model.runCount == old(model.runCount) && model.exportCount == old(model.exportCount)
    {
      model.Train(batch);
      e := e + 1;
    }
  }

  /** A run like the trainer tests': seven rows, two epochs, batches of three,
      no shuffling. It trains six batches and fetches every row twice. */
  method SevenRowsTwoEpochs() returns (model: MockTrainableModel, source: MockBatchDataSource)
    ensures model.trainCount == 6 && model.runCount == 0 && model.exportCount == 0
    ensures source.NumberOfItems() == 7
    ensures forall i :: 0 <= i < 7 ==> source.itemAtIndexCount[i] == 2
  {
    model := new MockTrainableModel.InitMock();
    source := new MockBatchDataSource(7, ["input", "label"]);
    var trainer := new ModelTrainer(model, source, 2, 3, false);
    trainer.Train([]);
    assert CeilDiv(7, 3) == 3;
  }
}
