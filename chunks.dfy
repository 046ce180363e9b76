/** Bytes and the chunks a stream hands out, with the two measures the relay
    cares about: how many bytes a run of chunks holds and which byte stream it
    carries. */
module Chunks {

  newtype byte = x: int | 0 <= x < 0x100

  /** One buffer as a stream emits it or as it is written to a sink. */
  type Chunk = seq<byte>

  /** What `read()` yields: a buffer, or `null` when nothing is buffered. */
  datatype Option<+T> = None | Some(value: T)

  /** Total number of bytes in a run of chunks. */
  function TotalLength(cs: seq<Chunk>): nat
  {
    if cs == [] then 0 else TotalLength(cs[..|cs| - 1]) + |cs[|cs| - 1]|
  }

  /** The byte stream a run of chunks carries, chunk boundaries forgotten. */
  function Concat(cs: seq<Chunk>): seq<byte>
  {
    if cs == [] then [] else Concat(cs[..|cs| - 1]) + cs[|cs| - 1]
  }

  lemma {:induction false} TotalLengthAppend(a: seq<Chunk>, b: seq<Chunk>)
    ensures TotalLength(a + b) == TotalLength(a) + TotalLength(b)
  {
    if b == [] {
      assert a + b == a;
    } else {
      assert (a + b)[..|a + b| - 1] == a + b[..|b| - 1];
      assert (a + b)[|a + b| - 1] == b[|b| - 1];
      TotalLengthAppend(a, b[..|b| - 1]);
    }
  }

  lemma {:induction false} ConcatAppend(a: seq<Chunk>, b: seq<Chunk>)
    ensures Concat(a + b) == Concat(a) + Concat(b)
  {
    if b == [] {
      assert a + b == a;
    } else {
      assert (a + b)[..|a + b| - 1] == a + b[..|b| - 1];
      assert (a + b)[|a + b| - 1] == b[|b| - 1];
      ConcatAppend(a, b[..|b| - 1]);
    }
  }

  /** Counting bytes chunk by chunk agrees with the length of the byte stream. */
  lemma {:induction false} ConcatLength(cs: seq<Chunk>)
    ensures |Concat(cs)| == TotalLength(cs)
  {
    if cs != [] {
      ConcatLength(cs[..|cs| - 1]);
    }
  }
}
