/** Values shared by every part of the stream-decoding core: bytes, optional
    values, results, and the errors the core hands back to its callers. */
module Bytes {

  /** A Go `byte`. */
  newtype byte = b: int | 0 <= b < 256

  /** The body of a log record, as text. */
  type Record = seq<byte>

  /** The record delimiter of the line scanner, '\n'. */
  const NEWLINE: byte := 10

  datatype Option<+T> = None | Some(value: T)

  datatype Result<+T> = Ok(value: T) | Fail(error: Error)

  /** How a byte stream ends once its data is exhausted: cleanly (`io.EOF`),
      or with a read failure that the stream keeps reporting. */
  datatype SourceEnd = CleanEnd | Broken(code: int)

  /** The errors surfaced by the core. */
  datatype Error =
    | EOF                                         // io.EOF: the stream is exhausted
    | ReadFailure(code: int)                      // any other read error of the source
    | NegativeCount                               // bufio.ErrNegativeCount
    | DiscardFailed(offset: int, cause: Error)    // "failed to discard offset N: <cause>"
    | CharsetFailure(code: int)                   // the per-record decoding failed

  /** The error a read reports when it runs into the end of the stream. */
  function EndError(e: SourceEnd): (err: Error)
    ensures err == EOF <==> e.CleanEnd?
  {
    match e
    case CleanEnd => EOF
    case Broken(c) => ReadFailure(c)
  }

  /** The bytes of an ASCII string literal. */
  function AsBytes(s: string): (b: seq<byte>)
    requires forall i :: 0 <= i < |s| ==> s[i] as int < 256
    ensures |b| == |s| && forall i :: 0 <= i < |s| ==> b[i] as int == s[i] as int
  {
    seq(|s|, i requires 0 <= i < |s| => s[i] as int as byte)
  }

  /** The concatenation of a sequence of chunks, in order. */
  function Flatten<T>(chunks: seq<seq<T>>): seq<T>
  {
    if chunks == [] then [] else chunks[0] + Flatten(chunks[1..])
  }

  lemma {:induction false} FlattenAppend<T>(a: seq<seq<T>>, b: seq<seq<T>>)
    ensures Flatten(a + b) == Flatten(a) + Flatten(b)
  {
    if a != [] {
      assert (a + b)[1..] == a[1..] + b;
      FlattenAppend(a[1..], b);
    } else {
      assert a + b == b;
    }
  }
}
