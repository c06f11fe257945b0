/** The values that flow through batches. `TIOData` is a protocol adopted by
    numbers, arrays, dictionaries and pixel buffers; the training core never
    looks inside one, so a value is modelled as an opaque tagged token. */
module TensorData {

  /** An opaque `TIOData` value. */
  datatype Data = Data(tag: int)

  /** A `TIOBatchItem`: one training example, a dictionary from key to value. */
  type BatchItem = map<string, Data>

  /** The keys of a key list, as a set. */
  function KeySet(keys: seq<string>): set<string>
  {
    set k | k in keys
  }
}
