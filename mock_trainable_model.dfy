/** `TIOMockTrainableModel`: a trainable model that only counts the calls made
    to it. Beside the three counters it keeps, as a specification-only record,
    the rows of every batch it was asked to train on. */
module TrainableModelMock {
  import opened TensorData
  import opened Batches

  class MockTrainableModel {
    /** Number of inference calls. */
    var runCount: nat
    /** Number of `train:` calls. */
    var trainCount: nat
    /** Number of `exportTo:` calls. */
    var exportCount: nat
    /** The rows of each batch passed to `train:`, oldest first. */
    ghost var trained: seq<seq<BatchItem>>

    ghost predicate Valid()
      reads this
    {
      trainCount == |trained|
    }

    /** `initMock`: every counter starts at zero. */
    constructor InitMock()
      ensures Valid()
      ensures runCount == 0 && trainCount == 0 && exportCount == 0 && trained == []
    {
      runCount, trainCount, exportCount := 0, 0, 0;
      trained := [];
    }

    /** `run:error:` counts one inference call and changes nothing else. */
    method Run(batch: Batch)
      modifies this
      ensures runCount == old(runCount) + 1
      ensures trainCount == old(trainCount) && exportCount == old(exportCount) && trained == old(trained)
    {
      runCount := runCount + 1;
    }

    /** `runOn:` and `runOn:error:` count one inference call each. */
    method RunOn(input: Data)
      modifies this
      ensures runCount == old(runCount) + 1
      ensures trainCount == old(trainCount) && exportCount == old(exportCount) && trained == old(trained)
    {
      runCount := runCount + 1;
    }

    /** `train:` counts one training call and records the batch it was given. */
    method Train(batch: Batch)
      requires Valid()
      modifies this
      ensures Valid()
      ensures trainCount == old(trainCount) + 1
      ensures trained == old(trained) + [batch.items]
      ensures runCount == old(runCount) && exportCount == old(exportCount)
    {
      trainCount := trainCount + 1;
      trained := trained + [batch.items];
    }

    /** `exportTo:error:` counts one export call and reports success. */
    method ExportTo(fileURL: string) returns (ok: bool)
      modifies this
      ensures ok
      ensures exportCount == old(exportCount) + 1
      ensures runCount == old(runCount) && trainCount == old(trainCount) && trained == old(trained)
    {
      exportCount := exportCount + 1;
      ok := true;
    }
  }
}
