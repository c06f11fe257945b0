/** `TIOFederatedTask` as a read-only record, and the training parameters a
    trainer takes from it (`TIOModelTrainer (FederatedTask)`). */
module FederatedTasks {
  import opened Wrappers
  import opened TensorData

  /** A federated learning task for one model, as unpacked from task.json. */
  datatype FederatedTask = FederatedTask(
    identifier: string,
    name: string,
    details: string,
    modelIdentifier: string,
    epochs: nat,
    batchSize: nat,
    shuffle: bool,
    placeholders: Option<map<string, Data>>)

  /** What a trainer is configured with. */
  datatype TrainingParameters = TrainingParameters(epochs: nat, batchSize: nat, shuffle: bool)

  /** The parameters of a trainer built from a task: epochs, batch size and
      shuffle are the task's; the placeholders are ignored. */
  function ParametersOf(task: FederatedTask): (p: TrainingParameters)
    ensures p.epochs == task.epochs && p.batchSize == task.batchSize && p.shuffle == task.shuffle
  {
    TrainingParameters(task.epochs, task.batchSize, task.shuffle)
  }

  /** The trainer copies epochs, batch size and shuffle from the task, and two
      tasks that differ in anything else -- placeholders, names, ids -- give
      the same parameters. */
  lemma ParametersComeOnlyFromTrainingFields(t1: FederatedTask, t2: FederatedTask)
    ensures ParametersOf(t1).epochs == t1.epochs
    ensures ParametersOf(t1).batchSize == t1.batchSize
    ensures ParametersOf(t1).shuffle == t1.shuffle
    ensures ParametersOf(t1) == ParametersOf(t2) <==>
              t1.epochs == t2.epochs && t1.batchSize == t2.batchSize && t1.shuffle == t2.shuffle
  {
  }
}
