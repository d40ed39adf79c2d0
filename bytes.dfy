/** Bytes, the exceptions the streams raise, and concatenation of byte chunks. */
module Bytes {

  /** A Java `byte`, held as its unsigned value 0..255. */
  newtype byte = x: int | 0 <= x < 256

  type Bytes = seq<byte>

  /** The value Java sees when a `byte` is widened to `int` (sign extension). */
  function Signed(b: byte): (v: int)
    ensures -128 <= v < 128
    ensures v % 256 == b as int
    ensures v < 0 <==> b >= 128
  {
    if b < 128 then b as int else b as int - 256
  }

  /** The byte Java stores for `(byte) v`: the eight low-order bits of `v`. */
  function LowByte(v: int): (b: byte)
    ensures (v - b as int) % 256 == 0
    ensures 0 <= v < 256 ==> b as int == v
  {
    (v % 256) as byte
  }

  /** The exceptions the modelled streams throw. */
  datatype Fault =
    | IOException(message: string)
    | NullPointer
    | IndexOutOfBounds
    | BufferUnderflow

  datatype Option<+T> = None | Some(value: T)

  datatype Result<+T> = Ok(value: T) | Err(fault: Fault)

  /** All chunks joined in order. */
  function Concat(chunks: seq<Bytes>): Bytes
  {
    if chunks == [] then [] else chunks[0] + Concat(chunks[1..])
  }

  /** Appending a chunk at the end appends its bytes at the end. */
  lemma {:induction false} ConcatAppend(chunks: seq<Bytes>, last: Bytes)
    ensures Concat(chunks + [last]) == Concat(chunks) + last
  {
    if chunks != [] {
      assert (chunks + [last])[1..] == chunks[1..] + [last];
      ConcatAppend(chunks[1..], last);
    }
  }

  /** Concatenation distributes over joining two lists of chunks. */
  lemma {:induction false} ConcatJoin(a: seq<Bytes>, b: seq<Bytes>)
    ensures Concat(a + b) == Concat(a) + Concat(b)
  {
    if a == [] {
      assert a + b == b;
    } else {
      assert (a + b)[1..] == a[1..] + b;
      ConcatJoin(a[1..], b);
    }
  }
}
