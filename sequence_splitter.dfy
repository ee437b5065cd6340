/**
 `batching.sequence_splitter.split_into_batches` is not part of this
 model. Only the contract the sender relies on is stated, as a
 hypothesis about whatever splitting function is supplied: the chunks,
 concatenated in order, are exactly the items, and no items give no chunks.
 */
module SequenceSplitter {

  import opened Messages

  /** The chunks of a partition concatenated in order. */
  function Flatten<T>(chunks: seq<seq<T>>): (r: seq<T>) {
    if chunks == [] then [] else chunks[0] + Flatten(chunks[1..])
  }

  /** The assumed contract of the splitter, for every input and size limit (in MB). */
  ghost predicate SplitterContract(split: (seq<Dict>, nat) -> seq<seq<Dict>>) {
    forall items, limit :: Flatten(split(items, limit)) == items && (items == [] ==> split(items, limit) == [])
  }
}
