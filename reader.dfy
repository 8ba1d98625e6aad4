/** The byte-stream source the core reads from: a read-once sequence of bytes
    with a read position, offering the two operations the core uses on it,
    reading up to the next newline (bufio.Reader.ReadBytes('\n')) and
    skipping a number of bytes (bufio.Reader.Discard, io.CopyN to io.Discard). */
module Source {
  import opened Bytes

  /** The length of the raw line at the head of `rest`: up to and including
      the first newline, or all of `rest` when it holds no newline. */
  function LineLength(rest: seq<byte>): (n: nat)
    ensures n <= |rest|
    ensures n == 0 <==> |rest| == 0
  {
    if |rest| == 0 then 0
    else if rest[0] == NEWLINE then 1
    else 1 + LineLength(rest[1..])
  }

  /** LineLength stops right after the first newline, and takes everything
      when there is none. */
  lemma {:induction false} LineLengthFindsNewline(rest: seq<byte>)
    ensures forall i :: 0 <= i < LineLength(rest) - 1 ==> rest[i] != NEWLINE
    ensures var n := LineLength(rest);
            (0 < n && rest[n - 1] == NEWLINE) || (n == |rest| && NEWLINE !in rest)
    decreases |rest|
  {
    if |rest| > 0 && rest[0] != NEWLINE {
      LineLengthFindsNewline(rest[1..]);
      assert rest == [rest[0]] + rest[1..];
    }
  }

  /** A raw line that was closed by its delimiter. */
  predicate EndsLine(raw: seq<byte>)
  {
    0 < |raw| && raw[|raw| - 1] == NEWLINE
  }

  /** The raw line the next read returns: up to and including the next
      newline, or all that is left. */
  function NextRaw(data: seq<byte>, pos: nat): (raw: seq<byte>)
    requires pos <= |data|
    ensures pos + |raw| <= |data| && raw == data[pos..pos + |raw|]
    ensures raw == [] <==> pos == |data|
  {
    data[pos..pos + LineLength(data[pos..])]
  }

  class Reader {
    /** Every byte the stream will deliver, from its first byte on. */
    const data: seq<byte>
    /** What the stream reports once `data` is exhausted. */
    const end: SourceEnd
    /** How many bytes of `data` have been taken out of the stream. */
    var pos: nat

    ghost predicate Valid()
      reads this
    {
      pos <= |data|
    }

    constructor (data: seq<byte>, end: SourceEnd)
      ensures Valid()
      ensures this.data == data && this.end == end && pos == 0
    {
      this.data := data;
      this.end := end;
      pos := 0;
    }

    /** bufio.Reader.ReadBytes('\n'): the bytes up to and including the next
        newline; when the stream ends first, everything left together with
        the stream's end error. */
    method ReadBytes() returns (b: seq<byte>, err: Option<Error>)
      requires Valid()
      modifies this
      ensures Valid()
      ensures b == NextRaw(data, old(pos))
      ensures pos == old(pos) + |b|
      ensures err.None? <==> EndsLine(b)
      ensures err.Some? ==> err.value == EndError(end) && pos == |data|
    {
      b := NextRaw(data, pos);
      pos := pos + |b|;
      if EndsLine(b) {
        err := None;
      } else {
        LineLengthFindsNewline(old(data[pos..]));
        err := Some(EndError(end));
      }
    }

    /** bufio.Reader.Discard(n) (io.CopyN into io.Discard behaves alike for
        n > 0): skips exactly n bytes, or fails with the stream's end error
        after skipping all that is left. */
    method Discard(n: int) returns (discarded: nat, err: Option<Error>)
      requires Valid()
      modifies this
      ensures Valid()
      ensures n < 0 ==> discarded == 0 && err == Some(NegativeCount) && pos == old(pos)
      ensures 0 <= n <= |data| - old(pos) ==> discarded == n && err == None && pos == old(pos) + n
      ensures n > |data| - old(pos) ==>
                discarded == |data| - old(pos) && err == Some(EndError(end)) && pos == |data|
    {
      if n < 0 {
        return 0, Some(NegativeCount);
      }
      if n <= |data| - pos {
        pos := pos + n;
        return n, None;
      }
      discarded := |data| - pos;
      pos := |data|;
      err := Some(EndError(end));
    }
  }
}
