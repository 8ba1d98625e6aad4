/** The line scanner (ScannerHelper): reads newline-delimited records from a
    buffered reader, keeps the byte offset of what it has read, and feeds
    the batch tracker to tell its caller when to flush. */
module Streaming {
  import opened Bytes
  import opened Source
  import opened Encoding
  import opened Batching

  /** The raw lines of a stream, each with its newline; the last one may lack
      it when the stream does not end with a newline. */
  function Lines(rest: seq<byte>): seq<seq<byte>>
    decreases |rest|
  {
    if |rest| == 0 then []
    else
      var n := LineLength(rest);
      [rest[..n]] + Lines(rest[n..])
  }

  /** Splitting into lines loses and adds nothing: the lines put back together
      are the stream. */
  lemma {:induction false} LinesFlatten(rest: seq<byte>)
    ensures Flatten(Lines(rest)) == rest
    decreases |rest|
  {
    if |rest| > 0 {
      var n := LineLength(rest);
      LinesFlatten(rest[n..]);
      assert rest == rest[..n] + rest[n..];
    }
  }

  /** Each line is non-empty, holds a newline at most as its last byte, and
      every line but the last ends with a newline. */
  lemma {:induction false} LinesShape(rest: seq<byte>, i: nat)
    requires i < |Lines(rest)|
    ensures |Lines(rest)[i]| > 0
    ensures forall k :: 0 <= k < |Lines(rest)[i]| - 1 ==> Lines(rest)[i][k] != NEWLINE
    ensures i < |Lines(rest)| - 1 ==> EndsLine(Lines(rest)[i])
    decreases |rest|
  {
    var n := LineLength(rest);
    LineLengthFindsNewline(rest);
    if i > 0 {
      LinesShape(rest[n..], i - 1);
    } else if |Lines(rest)| > 1 {
      assert |rest[n..]| > 0;
      assert EndsLine(rest[..n]);
    }
  }

  /** Cutting the stream after its first newline does not change the length
      of its first line. */
  lemma {:induction false} LineLengthPrefix(data: seq<byte>, k: nat)
    requires k <= |data| && NEWLINE in data[..k]
    ensures LineLength(data[..k]) == LineLength(data)
    decreases k
  {
    if data[0] != NEWLINE {
      assert data[..k][1..] == data[1..][..k - 1];
      assert NEWLINE in data[1..][..k - 1] by {
        var j :| 0 <= j < k && data[..k][j] == NEWLINE;
        assert j > 0;
        assert data[1..][..k - 1][j - 1] == NEWLINE;
      }
      LineLengthPrefix(data[1..], k - 1);
    }
  }

  /** Lines of a concatenation whose first part ends at a line boundary: the
      lines of each part, one after the other. */
  lemma {:induction false} LinesAppend(a: seq<byte>, b: seq<byte>)
    requires a == [] || EndsLine(a)
    ensures Lines(a + b) == Lines(a) + Lines(b)
    decreases |a|
  {
    if a == [] {
      assert a + b == b;
    } else {
      var n := LineLength(a);
      LinesAppendStep(a, b);
      LinesAppend(a[n..], b);
      assert [a[..n]] + (Lines(a[n..]) + Lines(b)) == ([a[..n]] + Lines(a[n..])) + Lines(b);
    }
  }

  /** The first line of a concatenation whose first part ends with a newline
      is the first line of that part. */
  lemma LinesAppendStep(a: seq<byte>, b: seq<byte>)
    requires EndsLine(a)
    ensures var n := LineLength(a);
            && Lines(a) == [a[..n]] + Lines(a[n..])
            && Lines(a + b) == [a[..n]] + Lines(a[n..] + b)
            && (a[n..] == [] || EndsLine(a[n..]))
  {
    var n := LineLength(a);
    LineLengthFindsNewline(a);
    assert (a + b)[..|a|] == a;
    LineLengthPrefix(a + b, |a|);
    assert (a + b)[..n] == a[..n] && (a + b)[n..] == a[n..] + b;
    LinesUnfold(a);
    LinesUnfold(a + b);
  }

  /** Resumption law: cutting the stream right after a newline splits its
      lines there, so a reader that resumes at that offset sees exactly the
      lines that an uninterrupted reader would see next. */
  lemma ResumeAtLineBoundary(data: seq<byte>, k: nat)
    requires k <= |data|
    requires k == 0 || EndsLine(data[..k])
    ensures Lines(data) == Lines(data[..k]) + Lines(data[k..])
  {
    assert data == data[..k] + data[k..];
    LinesAppend(data[..k], data[k..]);
  }

  lemma LinesUnfold(rest: seq<byte>)
    requires |rest| > 0
    ensures Lines(rest) == [rest[..LineLength(rest)]] + Lines(rest[LineLength(rest)..])
  {
  }

  /** The bytes bytes.TrimSpace treats as white space (ASCII). */
  predicate IsSpace(b: byte)
  {
    b == 9 || b == 10 || b == 11 || b == 12 || b == 13 || b == 32
  }

  function LeadingSpaces(s: seq<byte>): (i: nat)
    ensures i <= |s|
    ensures forall k :: 0 <= k < i ==> IsSpace(s[k])
    ensures i < |s| ==> !IsSpace(s[i])
  {
    if |s| == 0 || !IsSpace(s[0]) then 0 else 1 + LeadingSpaces(s[1..])
  }

  function TrailingStart(s: seq<byte>): (j: nat)
    ensures j <= |s|
    ensures forall k :: j <= k < |s| ==> IsSpace(s[k])
    ensures 0 < j ==> !IsSpace(s[j - 1])
  {
    if |s| == 0 || !IsSpace(s[|s| - 1]) then |s| else TrailingStart(s[..|s| - 1])
  }

  /** bytes.TrimSpace: `s` without its leading and trailing white space. */
  function TrimSpace(s: seq<byte>): (r: seq<byte>)
    ensures |r| > 0 ==> !IsSpace(r[0]) && !IsSpace(r[|r| - 1])
    ensures |r| == 0 ==> forall k :: 0 <= k < |s| ==> IsSpace(s[k])
    ensures |r| > 0 ==> LeadingSpaces(s) + |r| <= |s| &&
                        r == s[LeadingSpaces(s)..LeadingSpaces(s) + |r|] &&
                        forall k :: LeadingSpaces(s) + |r| <= k < |s| ==> IsSpace(s[k])
  {
    var lo, hi := LeadingSpaces(s), TrailingStart(s);
    if hi <= lo then [] else s[lo..hi]
  }

  /** bytes.TrimSpace answers nil when nothing is left; the model writes nil
      as None. */
  function NilIfEmpty(s: seq<byte>): (r: Option<seq<byte>>)
    ensures r.None? <==> |s| == 0
    ensures r.Some? ==> r.value == s
  {
    if |s| == 0 then None else Some(s)
  }

  /** The scanner state scanInternal works on: read position of the buffered
      reader, running offset, and the two batch counters. */
  datatype ScanState = ScanState(pos: nat, offset: int, bytes: int, items: int)

  /** What one scan returns, and the state after it. */
  datatype Scanned = Scanned(line: Option<seq<byte>>, flush: bool, err: Option<Error>, next: ScanState)

  /** scanInternal on values: one read of a line from position `s.pos` of
      `data`, which ends as `end` says; `o` are the scanner's options. */
  function Scan(o: DecoderOptions, data: seq<byte>, end: SourceEnd, s: ScanState): (r: Scanned)
    requires s.pos <= |data|
    ensures s.pos <= r.next.pos <= |data|
    ensures r.next.offset == s.offset || r.next.offset - s.offset == r.next.pos - s.pos > 0
    ensures r.err.None? ==> s.pos < r.next.pos && r.next.offset - s.offset == r.next.pos - s.pos
    ensures r.flush && s.pos < r.next.pos ==> r.next.bytes == 0 && r.next.items == 0
    ensures r.err == Some(EOF) && r.next.pos == s.pos ==> r.line.None? && r.flush && r.next == s
    ensures r.err.Some? && r.err.value != EOF ==>
              r.line.None? && !r.flush && r.next == s.(pos := |data|)
  {
    var raw := NextRaw(data, s.pos);
    if !EndsLine(raw) && end.Broken? then
      // a read failure is passed through; the bytes it read are lost
      Scanned(None, false, Some(EndError(end)), s.(pos := |data|))
    else if raw == [] then
      Scanned(None, true, Some(EOF), s)
    else
      Counted(o, s, raw)
  }

  /** A raw line read by a scan: counted in the batch, trimmed, and followed
      by EOF when it lacks its newline. */
  function Counted(o: DecoderOptions, s: ScanState, raw: seq<byte>): (r: Scanned)
    ensures r.next.offset - s.offset == r.next.pos - s.pos == |raw|
    ensures r.flush ==> r.next.bytes == 0 && r.next.items == 0
    ensures !r.flush ==> r.next.bytes == s.bytes + |raw| && r.next.items == s.items + 1
    ensures r.err.None? <==> EndsLine(raw)
    ensures r.err.Some? ==> r.err == Some(EOF)
    ensures r.line.Some? ==> 0 < |r.line.value| <= |raw|
  {
    var bytes, items := s.bytes + |raw|, s.items + 1;
    var flush := FlushDue(o, bytes, items);
    Scanned(NilIfEmpty(TrimSpace(raw)), flush,
            if EndsLine(raw) then None else Some(EOF),
            ScanState(s.pos + |raw|, s.offset + |raw|,
                      if flush then 0 else bytes, if flush then 0 else items))
  }

  /** A scan that returns a line (or a last line without newline) consumes
      the next line of the stream: offset and byte count grow by its raw,
      newline-inclusive length, the item count by one, and the line returned
      is that raw line trimmed. */
  lemma ScanConsumesNextLine(o: DecoderOptions, data: seq<byte>, end: SourceEnd, s: ScanState)
    requires s.pos < |data|
    requires EndsLine(NextRaw(data, s.pos)) || end.CleanEnd?
    ensures var r := Scan(o, data, end, s);
            var raw := Lines(data[s.pos..])[0];
            && r.next.pos == s.pos + |raw|
            && r.next.offset == s.offset + |raw|
            && r.line == NilIfEmpty(TrimSpace(raw))
            && (r.flush <==> FlushDue(o, s.bytes + |raw|, s.items + 1))
            && (r.flush ==> r.next.bytes == 0 && r.next.items == 0)
            && (!r.flush ==> r.next.bytes == s.bytes + |raw| && r.next.items == s.items + 1)
            && (r.err.None? <==> EndsLine(raw))
            && (r.err.Some? ==> r.err.value == EOF && r.next.pos == |data|)
  {
    var rest := data[s.pos..];
    var n := LineLength(rest);
    LineLengthFindsNewline(rest);
    assert Lines(rest)[0] == rest[..n] == NextRaw(data, s.pos);
  }

  /** End of stream: with nothing left to read, a scan gives no line, forces
      a flush and reports EOF, changing nothing; on a failing stream it
      passes the failure on. */
  lemma ScanAtEnd(o: DecoderOptions, data: seq<byte>, end: SourceEnd, s: ScanState)
    requires s.pos == |data|
    ensures var r := Scan(o, data, end, s);
            && r.line.None?
            && r.next == s
            && (end.CleanEnd? ==> r.flush && r.err == Some(EOF))
            && (end.Broken? ==> !r.flush && r.err == Some(ReadFailure(end.code)))
  {
  }

  /** A final line without a newline comes back trimmed together with EOF. */
  lemma ScanLastLine(o: DecoderOptions, data: seq<byte>, s: ScanState)
    requires s.pos < |data| && NEWLINE !in data[s.pos..]
    ensures var r := Scan(o, data, CleanEnd, s);
            r.line == NilIfEmpty(TrimSpace(data[s.pos..])) && r.err == Some(EOF) &&
            r.next.pos == |data| && r.next.offset == s.offset + (|data| - s.pos)
  {
    LineLengthFindsNewline(data[s.pos..]);
    assert NextRaw(data, s.pos) == data[s.pos..];
  }

  /** A line without newline or outer white space, followed by a newline,
      makes up the whole first raw line of what follows. */
  lemma {:induction false} LineLengthOfLine(line: seq<byte>, rest: seq<byte>)
    requires NEWLINE !in line
    ensures LineLength(line + [NEWLINE] + rest) == |line| + 1
    decreases |line|
  {
    if line != [] {
      assert (line + [NEWLINE] + rest)[1..] == line[1..] + [NEWLINE] + rest;
      LineLengthOfLine(line[1..], rest);
    }
  }

  /** Trimming a line whose only white space is its closing newline leaves
      the line. */
  lemma TrimClosingNewline(line: seq<byte>)
    requires |line| > 0 && !IsSpace(line[0]) && !IsSpace(line[|line| - 1])
    ensures TrimSpace(line + [NEWLINE]) == line
  {
    var s := line + [NEWLINE];
    assert s[..|s| - 1] == line;
    assert TrailingStart(s) == |line|;
    assert s[0..|line|] == line;
  }

  /** A scan at a position holding a newline-terminated line with no outer
      white space returns that line, with no error. */
  lemma ScanPlainLine(o: DecoderOptions, data: seq<byte>, end: SourceEnd, s: ScanState, line: seq<byte>)
    requires s.pos + |line| < |data| && data[s.pos..s.pos + |line| + 1] == line + [NEWLINE]
    requires NEWLINE !in line && |line| > 0 && !IsSpace(line[0]) && !IsSpace(line[|line| - 1])
    ensures var r := Scan(o, data, end, s);
            && r.line == Some(line) && r.err.None?
            && r.flush == FlushDue(o, s.bytes + |line| + 1, s.items + 1)
            && r.next.pos == s.pos + |line| + 1 && r.next.offset == s.offset + |line| + 1
            && r.next.bytes == (if r.flush then 0 else s.bytes + |line| + 1)
            && r.next.items == (if r.flush then 0 else s.items + 1)
  {
    var rest := data[s.pos..];
    assert rest == line + [NEWLINE] + data[s.pos + |line| + 1..];
    LineLengthOfLine(line, data[s.pos + |line| + 1..]);
    assert NextRaw(data, s.pos) == line + [NEWLINE];
    TrimClosingNewline(line);
  }

  /** The scan scenario over "line1\nline2\nline3\n" with the default
      options: three lines with offsets 6, 12 and 18 and no flush, then EOF
      with a forced flush. */
  lemma ScanScenario()
    ensures var data := AsBytes("line1") + [NEWLINE] + AsBytes("line2") + [NEWLINE] + AsBytes("line3") + [NEWLINE];
            var o := ApplyAll(Defaults(), []);
            var r1 := Scan(o, data, CleanEnd, ScanState(0, 0, 0, 0));
            var r2 := Scan(o, data, CleanEnd, r1.next);
            var r3 := Scan(o, data, CleanEnd, r2.next);
            var r4 := Scan(o, data, CleanEnd, r3.next);
            && r1.line == Some(AsBytes("line1")) && !r1.flush && r1.err.None? && r1.next.offset == 6
            && r2.line == Some(AsBytes("line2")) && !r2.flush && r2.err.None? && r2.next.offset == 12
            && r3.line == Some(AsBytes("line3")) && !r3.flush && r3.err.None? && r3.next.offset == 18
            && r4.line.None? && r4.flush && r4.err == Some(EOF)
  {
    var l1, l2, l3 := AsBytes("line1"), AsBytes("line2"), AsBytes("line3");
    var data := l1 + [NEWLINE] + l2 + [NEWLINE] + l3 + [NEWLINE];
    var o := ApplyAll(Defaults(), []);
    assert data[0..6] == l1 + [NEWLINE];
    assert data[6..12] == l2 + [NEWLINE];
    assert data[12..18] == l3 + [NEWLINE];
    ScanPlainLine(o, data, CleanEnd, ScanState(0, 0, 0, 0), l1);
    ScanPlainLine(o, data, CleanEnd, ScanState(6, 6, 6, 1), l2);
    ScanPlainLine(o, data, CleanEnd, ScanState(12, 12, 12, 2), l3);
    ScanAtEnd(o, data, CleanEnd, ScanState(18, 18, 18, 3));
  }

  /** The next raw line at a position is the first of the lines ahead. */
  lemma NextRawIsFirstLine(data: seq<byte>, off: nat)
    requires off < |data|
    ensures var raw := NextRaw(data, off);
            Lines(data[off..]) == [raw] + Lines(data[off + |raw|..])
  {
    LinesUnfold(data[off..]);
    assert NextRaw(data, off) == data[off..][..LineLength(data[off..])];
    assert data[off..][LineLength(data[off..])..] == data[off + LineLength(data[off..])..];
  }

  /** The bytes consumed grow by the chunk read. */
  lemma ConsumeBytes(data: seq<byte>, init: nat, off: nat, consumed: seq<seq<byte>>, raw: seq<byte>)
    requires init <= off && off + |raw| <= |data| && raw == data[off..off + |raw|]
    requires data[init..off] == Flatten(consumed)
    ensures data[init..off + |raw|] == Flatten(consumed + [raw])
  {
    FlattenAppend(consumed, [raw]);
    assert Flatten([raw]) == raw;
    assert data[init..off + |raw|] == data[init..off] + raw;
  }

  /** The scanner invariant on values: the bytes from the initial offset to
      the offset are the raw lines consumed, in order. The read position is
      only ahead of the offset after a read failure, whose bytes were
      dropped. */
  ghost predicate Tracked(data: seq<byte>, end: SourceEnd, init: nat, off: int, pos: nat, consumed: seq<seq<byte>>)
  {
    && init <= off <= pos <= |data|
    && data[init..off] == Flatten(consumed)
    && (off < pos ==> pos == |data| && end.Broken?)
  }

  /** Reading the next raw line at the offset adds it to the lines consumed. */
  lemma TrackedAfterLine(data: seq<byte>, end: SourceEnd, init: nat, off: nat, consumed: seq<seq<byte>>)
    requires Tracked(data, end, init, off, off, consumed) && off < |data|
    ensures var raw := NextRaw(data, off);
            Tracked(data, end, init, off + |raw|, off + |raw|, consumed + [raw])
  {
    ConsumeBytes(data, init, off, consumed, NextRaw(data, off));
  }

  /** A read failure drops what is left: the reader ends up at the end of the
      stream and nothing is consumed. */
  lemma TrackedAfterFailure(data: seq<byte>, end: SourceEnd, init: nat, off: int, pos: nat, consumed: seq<seq<byte>>)
    requires Tracked(data, end, init, off, pos, consumed) && end.Broken?
    ensures Tracked(data, end, init, off, |data|, consumed)
  {
  }

  /** The state after `k` scans in a row from `s`. */
  function Rescan(o: DecoderOptions, data: seq<byte>, end: SourceEnd, s: ScanState, k: nat): (t: ScanState)
    requires s.pos <= |data|
    ensures s.pos <= t.pos <= |data|
    decreases k
  {
    if k == 0 then s else Rescan(o, data, end, Scan(o, data, end, s).next, k - 1)
  }

  /** Offset accounting: scans that each return a line move the read
      position and the offset past exactly the raw bytes of the next lines of
      the stream, newlines included, and leave the remaining lines ahead. On
      a failing stream the last line must have its newline. */
  lemma {:induction false} ScansFollowLines(o: DecoderOptions, data: seq<byte>, end: SourceEnd, s: ScanState, k: nat)
    requires s.pos <= |data|
    requires k <= |Lines(data[s.pos..])|
    requires end.CleanEnd? || k < |Lines(data[s.pos..])|
    ensures var t, ls := Rescan(o, data, end, s, k), Lines(data[s.pos..]);
            && t.pos == s.pos + |Flatten(ls[..k])|
            && t.offset == s.offset + |Flatten(ls[..k])|
            && Lines(data[t.pos..]) == ls[k..]
    decreases k
  {
    var ls := Lines(data[s.pos..]);
    if k == 0 {
      assert ls[..0] == [] && ls[0..] == ls;
    } else {
      var s1 := Scan(o, data, end, s).next;
      StepFollowsLine(o, data, end, s);
      ScansFollowLines(o, data, end, s1, k - 1);
      assert Rescan(o, data, end, s, k) == Rescan(o, data, end, s1, k - 1);
      FlattenPrefix(ls, k);
      assert |Flatten(ls[..k])| == |ls[0]| + |Flatten(ls[1..][..k - 1])|;
      assert ls[k..] == ls[1..][k - 1..];
    }
  }

  /** One scan that returns a line moves past it and leaves the lines after
      it ahead. */
  lemma StepFollowsLine(o: DecoderOptions, data: seq<byte>, end: SourceEnd, s: ScanState)
    requires s.pos < |data|
    requires end.CleanEnd? || 1 < |Lines(data[s.pos..])|
    ensures var t, ls := Scan(o, data, end, s).next, Lines(data[s.pos..]);
            t.pos == s.pos + |ls[0]| && t.offset == s.offset + |ls[0]| && Lines(data[t.pos..]) == ls[1..]
  {
    NextRawIsFirstLine(data, s.pos);
    if end.Broken? {
      LinesShape(data[s.pos..], 0);
    }
    ScanConsumesNextLine(o, data, end, s);
  }

  lemma FlattenPrefix(ls: seq<seq<byte>>, k: nat)
    requires 0 < k <= |ls|
    ensures Flatten(ls[..k]) == ls[0] + Flatten(ls[1..][..k - 1])
  {
    assert ls[..k][1..] == ls[1..][..k - 1];
  }

  /** The scan after k lines returns line k of the stream, trimmed. */
  lemma ScanReturnsLine(o: DecoderOptions, data: seq<byte>, end: SourceEnd, s: ScanState, k: nat)
    requires s.pos <= |data|
    requires k < |Lines(data[s.pos..])|
    requires end.CleanEnd? || k + 1 < |Lines(data[s.pos..])|
    ensures Scan(o, data, end, Rescan(o, data, end, s, k)).line == NilIfEmpty(TrimSpace(Lines(data[s.pos..])[k]))
  {
    var t := Rescan(o, data, end, s, k);
    ScansFollowLines(o, data, end, s, k);
    var ls := Lines(data[t.pos..]);
    if end.Broken? {
      LinesShape(data[t.pos..], 0);
      NextRawIsFirstLine(data, t.pos);
    }
    ScanConsumesNextLine(o, data, end, t);
  }

  /** Once every line of a cleanly ending stream has been scanned, the offset
      has grown by the length of the stream, and the next scan reports EOF
      with a forced flush. */
  lemma ScansReachEOF(o: DecoderOptions, data: seq<byte>, s: ScanState)
    requires s.pos <= |data|
    ensures var t := Rescan(o, data, CleanEnd, s, |Lines(data[s.pos..])|);
            var r := Scan(o, data, CleanEnd, t);
            && t.pos == |data| && t.offset == s.offset + (|data| - s.pos)
            && r.line.None? && r.flush && r.err == Some(EOF)
  {
    var ls := Lines(data[s.pos..]);
    ScansFollowLines(o, data, CleanEnd, s, |ls|);
    LinesFlatten(data[s.pos..]);
    assert ls[..|ls|] == ls;
  }

  class ScannerHelper {
    const batchHelper: BatchHelper
    const bufReader: Reader
    var offset: int
    /** The configured initial offset, skipped at construction. */
    ghost const initialOffset: nat
    /** The raw lines read so far, newline included. */
    ghost var consumed: seq<seq<byte>>

    /** The offset is the initial offset plus the raw bytes of the lines read,
        and the lines still ahead of the offset are the rest of the stream's
        lines. The reader is only ahead of the offset after a read failure,
        whose bytes were dropped. */
    ghost predicate Valid()
      reads this, bufReader, batchHelper
    {
      && bufReader.Valid()
      && initialOffset == batchHelper.options.offset
      && Tracked(bufReader.data, bufReader.end, initialOffset, offset, bufReader.pos, consumed)
    }

    function State(): ScanState
      reads this, bufReader, batchHelper
    {
      ScanState(bufReader.pos, offset, batchHelper.currentBytes, batchHelper.currentItems)
    }

    constructor (batchHelper: BatchHelper, bufReader: Reader)
      requires bufReader.Valid()
      requires 0 <= batchHelper.options.offset == bufReader.pos
      ensures Valid()
      ensures this.batchHelper == batchHelper && this.bufReader == bufReader
      ensures offset == batchHelper.options.offset && consumed == []
    {
      this.batchHelper := batchHelper;
      this.bufReader := bufReader;
      offset := batchHelper.options.offset;
      initialOffset := batchHelper.options.offset;
      consumed := [];
    }

    /** The current byte offset: the initial offset plus every raw byte of
        the lines read so far. */
    function Offset(): (r: int)
      reads this, bufReader, batchHelper
      requires Valid()
      ensures r == initialOffset + |Flatten(consumed)|
      ensures r >= batchHelper.options.offset
    {
      offset
    }

    /** scanInternal: reads one line, counts it in the batch and trims it;
        a read failure other than EOF is passed on and nothing is counted. */
    method ScanInternal() returns (line: Option<seq<byte>>, flush: bool, err: Option<Error>)
      requires Valid()
      modifies this, bufReader, batchHelper
      ensures Valid()
      ensures var r := Scan(batchHelper.options, bufReader.data, bufReader.end, old(State()));
              && line == r.line && flush == r.flush && err == r.err
              && bufReader.pos == r.next.pos && offset == r.next.offset
              && batchHelper.currentBytes == r.next.bytes && batchHelper.currentItems == r.next.items
      ensures offset == old(offset) ==> consumed == old(consumed)
      ensures offset != old(offset) ==> consumed == old(consumed) + [bufReader.data[old(offset)..offset]]
    {
      ghost var data, init, s0 := bufReader.data, initialOffset, State();
      var isEOF := false;
      var b, e := bufReader.ReadBytes();
      if e.Some? {
        if e.value != EOF {
          TrackedAfterFailure(data, bufReader.end, init, offset, s0.pos, consumed);
          return None, false, e;
        }
        isEOF := true;
      }
      if |b| == 0 && isEOF {
        return None, true, Some(EOF);
      }
      assert offset == s0.pos;
      TrackedAfterLine(data, bufReader.end, init, offset, consumed);
      offset := offset + |b|;
      consumed := consumed + [b];
      assert b == data[s0.offset..offset];
      assert Tracked(data, bufReader.end, init, offset, bufReader.pos, consumed);
      batchHelper.IncrementBytes(|b|);
      batchHelper.IncrementItems(1);
      flush := false;
      if batchHelper.ShouldFlush() {
        batchHelper.Reset();
        flush := true;
      }
      var t := TrimSpace(b);
      line := if |t| == 0 then None else Some(t);
      if isEOF {
        return line, flush, Some(EOF);
      }
      return line, flush, None;
    }

    /** ScanBytes: the record of scanInternal as bytes of its own (nil is
        None). */
    method ScanBytes() returns (bytes: Option<seq<byte>>, flush: bool, err: Option<Error>)
      requires Valid()
      modifies this, bufReader, batchHelper
      ensures Valid()
      ensures var r := Scan(batchHelper.options, bufReader.data, bufReader.end, old(State()));
              bytes == r.line && flush == r.flush && err == r.err && State() == r.next
    {
      bytes, flush, err := ScanInternal();
    }

    /** ScanString: the record of scanInternal as a string (nil is ""). */
    method ScanString() returns (line: seq<byte>, flush: bool, err: Option<Error>)
      requires Valid()
      modifies this, bufReader, batchHelper
      ensures Valid()
      ensures var r := Scan(batchHelper.options, bufReader.data, bufReader.end, old(State()));
              line == (if r.line.Some? then r.line.value else []) &&
              flush == r.flush && err == r.err && State() == r.next
    {
      var b;
      b, flush, err := ScanInternal();
      line := if b.Some? then b.value else [];
    }
  }

  /** NewScannerHelper: builds the batch tracker from `opts`, skips the
      configured offset (an offset of 0 skips nothing) and starts counting
      there; a skip that fails aborts construction with "failed to discard
      offset N". */
  method NewScannerHelper(reader: Reader, opts: seq<DecoderOption>) returns (h: ScannerHelper?, err: Option<Error>)
    requires reader.Valid() && reader.pos == 0
    modifies reader
    ensures var off := ApplyAll(Defaults(), opts).offset;
            && (err.None? <==> 0 <= off <= |reader.data|)
            && (off < 0 ==> err == Some(DiscardFailed(off, NegativeCount)))
            && (off > |reader.data| ==> err == Some(DiscardFailed(off, EndError(reader.end))))
            && (err.Some? ==> reader.pos == if off < 0 then old(reader.pos) else |reader.data|)
    ensures err.None? ==> h != null && fresh(h) && fresh(h.batchHelper) && h.Valid()
    ensures err.None? ==> h.bufReader == reader && h.Offset() == h.batchHelper.options.offset == reader.pos
    ensures err.None? ==> h.consumed == [] && h.batchHelper.options == ApplyAll(Defaults(), opts)
    ensures err.None? ==> h.batchHelper.currentBytes == 0 && h.batchHelper.currentItems == 0
    ensures err.Some? ==> h == null
  {
    var batchHelper := new BatchHelper(opts);
    if batchHelper.options.offset != 0 {
      var _, e := reader.Discard(batchHelper.options.offset);
      if e.Some? {
        return null, Some(DiscardFailed(batchHelper.options.offset, e.value));
      }
    }
    h := new ScannerHelper(batchHelper, reader);
    err := None;
  }

  /** The stream "line1\nline2\nline3\n" that the resumption example reads. */
  function Sample(): (data: seq<byte>)
    ensures |data| == 18
  {
    AsBytes("line1") + [NEWLINE] + AsBytes("line2") + [NEWLINE] + AsBytes("line3") + [NEWLINE]
  }

  /** In the sample stream, the line that starts at offset 6 is "line2". */
  lemma ScanSecondLine(o: DecoderOptions, s: ScanState)
    requires s.pos == 6 && !FlushDue(o, s.bytes + 6, s.items + 1)
    ensures var r := Scan(o, Sample(), CleanEnd, s);
            r.line == Some(AsBytes("line2")) && !r.flush && r.err.None? && r.next.offset == s.offset + 6
  {
    var l2 := AsBytes("line2");
    assert Sample()[6..12] == l2 + [NEWLINE];
    ScanPlainLine(o, Sample(), CleanEnd, s, l2);
  }

  /** Resuming over "line1\nline2\nline3\n" at offset 6 skips the first
      line: the scanner starts at offset 6, and its first scan returns
      "line2" at offset 12 without a flush. */
  method ResumeScenario() returns (start: int, line: seq<byte>, flush: bool, err: Option<Error>, offset: int)
    ensures start == 6 && line == AsBytes("line2") && !flush && err.None? && offset == 12
  {
    var reader := new Reader(Sample(), CleanEnd);
    var h, e := NewScannerHelper(reader, [WithOffset(6)]);
    if e.Some? {
      assert false;
    } else {
      assert h.batchHelper.options == DecoderOptions(1048576, 1000, 6);
      start := h.Offset();
      ScanSecondLine(h.batchHelper.options, h.State());
      line, flush, err := h.ScanString();
      offset := h.Offset();
    }
  }

  /** Constructing over "test" with offset 10 fails with "failed to discard
      offset 10" caused by EOF. */
  method DiscardScenario() returns (err: Option<Error>)
    ensures err == Some(DiscardFailed(10, EOF))
  {
    var reader := new Reader(AsBytes("test"), CleanEnd);
    var h;
    h, err := NewScannerHelper(reader, [WithOffset(10)]);
  }
}
