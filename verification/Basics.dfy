/** Values shared by every component: optional values, results, bytes and byte streams. */
module Basics {

  datatype Option<+T> = None | Some(value: T)

  datatype Result<+T, +E> = Ok(value: T) | Err(error: E)

  type byte = x: int | 0 <= x < 256

  type Bytes = seq<byte>

  /** The bytes a stream of chunks carries. */
  function Concat<T>(chunks: seq<seq<T>>): seq<T> {
    if chunks == [] then [] else Concat(chunks[..|chunks| - 1]) + chunks[|chunks| - 1]
  }

  /** Reading one more chunk appends that chunk to what was read before. */
  lemma ConcatStep<T>(chunks: seq<seq<T>>, n: nat)
    requires n < |chunks|
    ensures Concat(chunks[..n + 1]) == Concat(chunks[..n]) + chunks[n]
  {
    assert chunks[..n + 1][..n] == chunks[..n];
  }

  lemma ConcatWhole<T>(chunks: seq<seq<T>>)
    ensures Concat(chunks[..|chunks|]) == Concat(chunks)
  {
    assert chunks[..|chunks|] == chunks;
  }
}
