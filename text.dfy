/** The text log codec's decoding side: NewLogsDecoder builds a batch
    tracker, skips the initial offset, and scans tokens with the split
    function of its mode; each call of the decoder turns tokens into log
    records until the batch is full or the stream is exhausted.
    UnmarshalLogs decodes a whole in-memory buffer with one such call. */
module TextEncoding {
  import opened Bytes
  import opened Source
  import opened Encoding
  import opened Batching
  import opened TextSplit

  /** The outcome of the per-record charset decoding (textutils.DecodeAsString
      with the codec's decoder). */
  datatype Decoding = Decoded(body: Record) | Undecodable(code: int)

  type Charset = seq<byte> -> Decoding

  /** textLogCodec: the charset decoder, the separator written between
      records when marshaling, and the optional unmarshaling separator. */
  datatype TextCodec = TextCodec(decoder: Charset, marshalingSeparator: seq<byte>, unmarshalingSeparator: Option<Finder>)

  /** Pattern mode exactly when an unmarshaling separator is configured. */
  function ModeOf(codec: TextCodec): (mode: Mode)
    ensures mode.Whole? <==> codec.unmarshalingSeparator.None?
    ensures mode.Pattern? ==> mode.find == codec.unmarshalingSeparator.value
  {
    match codec.unmarshalingSeparator
    case Some(find) => Pattern(find)
    case None => Whole
  }

  /** The body a token's record ends up with. The record is appended before
      its token is decoded, so a token that fails to decode leaves a record
      with an empty body behind. */
  function Body(d: Decoding): (r: Record)
    ensures d.Decoded? ==> r == d.body
    ensures d.Undecodable? ==> r == []
  {
    if d.Decoded? then d.body else []
  }

  /** The records of a sequence of tokens, one per token, in order. */
  function Bodies(charset: Charset, tokens: seq<seq<byte>>): (rs: seq<Record>)
    ensures |rs| == |tokens|
  {
    if tokens == [] then [] else Bodies(charset, tokens[..|tokens| - 1]) + [Body(charset(tokens[|tokens| - 1]))]
  }

  lemma BodiesSnoc(charset: Charset, tokens: seq<seq<byte>>, token: seq<byte>)
    ensures Bodies(charset, tokens + [token]) == Bodies(charset, tokens) + [Body(charset(token))]
  {
    assert (tokens + [token])[..|tokens|] == tokens;
  }

  ghost predicate AllDecodable(charset: Charset, tokens: seq<seq<byte>>)
  {
    forall t :: t in tokens ==> charset(t).Decoded?
  }

  /** The decoder's state between calls: the scanner's position in the
      stream, the offset tracker, and the batch tracker's two counters. */
  datatype Cursor = Cursor(pos: nat, tracker: int, bytes: int, items: int)

  /** What a decoder works with: its split mode and charset, its options,
      and the stream (all its bytes and how it ends). */
  datatype Setup = Setup(mode: Mode, charset: Charset, options: DecoderOptions, data: seq<byte>, end: SourceEnd)

  /** What one decode call returns (its error; its records are the bodies of
      the tokens it took), the state it leaves behind, and the tokens it took
      from the stream. */
  datatype DecodeOut = DecodeOut(err: Option<Error>, next: Cursor, taken: seq<seq<byte>>)

  /** The next scan at `c`: the next token of the stream, if any. */
  function Next(su: Setup, c: Cursor): (st: Split)
    requires ModeOk(su.mode) && c.pos <= |su.data|
    ensures st.token.None? <==> c.pos == |su.data|
  {
    ScanStep(su.mode, su.data[c.pos..])
  }

  /** The state once the next token has been scanned and counted. */
  function Counted(su: Setup, c: Cursor): (t: Cursor)
    requires ModeOk(su.mode) && c.pos <= |su.data| && Next(su, c).token.Some?
    ensures c.pos < t.pos <= |su.data|
  {
    var st := Next(su, c);
    Cursor(c.pos + st.advance, c.tracker + st.grown, c.bytes + |st.token.value|, c.items + 1)
  }

  /** A decode call goes on past the next token: there is one, it decodes,
      and counting it reaches no threshold. */
  predicate Continues(su: Setup, c: Cursor)
    requires ModeOk(su.mode) && c.pos <= |su.data|
  {
    var st := Next(su, c);
    && st.token.Some?
    && su.charset(st.token.value).Decoded?
    && !FlushDue(su.options, Counted(su, c).bytes, Counted(su, c).items)
  }

  /** The tokens ahead of `c` are its next token, then the tokens ahead of the
      state after it. */
  lemma TokensUnfold(su: Setup, c: Cursor)
    requires ModeOk(su.mode) && c.pos <= |su.data| && Next(su, c).token.Some?
    ensures Tokens(su.mode, su.data[c.pos..]) == [Next(su, c).token.value] + Tokens(su.mode, su.data[Counted(su, c).pos..])
  {
    var st := Next(su, c);
    assert su.data[c.pos..][st.advance..] == su.data[c.pos + st.advance..];
  }

  /** decodeF on values, from state `c`; `empty` says that the call has not
      appended a record yet. The result holds the tokens taken from here on. */
  function DecodeFrom(su: Setup, c: Cursor, empty: bool): (out: DecodeOut)
    requires ModeOk(su.mode) && c.pos <= |su.data|
    ensures c.pos <= out.next.pos <= |su.data|
    ensures out.next.tracker - c.tracker == out.next.pos - c.pos
    ensures out.err == Some(EOF) ==> empty && out.taken == [] && su.end.CleanEnd? && out.next.pos == |su.data|
    decreases |su.data| - c.pos
  {
    var st := Next(su, c);
    if st.token.None? then
      // the scanner is done: a read failure of the source, or EOF when the
      // call produced no record
      var err := if su.end.Broken? then Some(EndError(su.end)) else if empty then Some(EOF) else None;
      DecodeOut(err, c, [])
    else
      var tok := st.token.value;
      var t := Counted(su, c);
      if su.charset(tok).Undecodable? then
        DecodeOut(Some(CharsetFailure(su.charset(tok).code)), t.(bytes := c.bytes, items := c.items), [tok])
      else if FlushDue(su.options, t.bytes, t.items) then
        DecodeOut(None, t.(bytes := 0, items := 0), [tok])
      else
        var out := DecodeFrom(su, t, false);
        DecodeOut(out.err, out.next, [tok] + out.taken)
  }

  /** One step of a decode call, stated on its own. */
  lemma DecodeStep(su: Setup, c: Cursor, empty: bool)
    requires ModeOk(su.mode) && c.pos <= |su.data| && Next(su, c).token.Some?
    ensures var tok, t, out := Next(su, c).token.value, Counted(su, c), DecodeFrom(su, c, empty);
            if Continues(su, c) then
              var rest := DecodeFrom(su, t, false);
              out.err == rest.err && out.next == rest.next && out.taken == [tok] + rest.taken
            else
              out.taken == [tok] && out.next.pos == t.pos &&
              if su.charset(tok).Undecodable? then
                out.err == Some(CharsetFailure(su.charset(tok).code)) && out.next.bytes == c.bytes && out.next.items == c.items
              else
                out.err.None? && out.next.bytes == 0 && out.next.items == 0
  {
  }

  /** The tokens a decode call takes are the next tokens of the stream: the
      tokens ahead before the call are those taken followed by the tokens
      ahead after it. */
  lemma {:induction false} DecodeTakesNextTokens(su: Setup, c: Cursor, empty: bool)
    requires ModeOk(su.mode) && c.pos <= |su.data|
    ensures var out := DecodeFrom(su, c, empty);
            Tokens(su.mode, su.data[c.pos..]) == out.taken + Tokens(su.mode, su.data[out.next.pos..])
    decreases |su.data| - c.pos
  {
    if Next(su, c).token.Some? {
      var tok, t, out := Next(su, c).token.value, Counted(su, c), DecodeFrom(su, c, empty);
      assert Tokens(su.mode, su.data[c.pos..]) == [tok] + Tokens(su.mode, su.data[t.pos..]) by {
        TokensUnfold(su, c);
      }
      if Continues(su, c) {
        var rest := DecodeFrom(su, t, false);
        var after := Tokens(su.mode, su.data[rest.next.pos..]);
        assert out.taken == [tok] + rest.taken && out.next == rest.next by {
          DecodeStep(su, c, empty);
        }
        assert Tokens(su.mode, su.data[t.pos..]) == rest.taken + after by {
          DecodeTakesNextTokens(su, t, false);
        }
        assert [tok] + (rest.taken + after) == ([tok] + rest.taken) + after;
      } else {
        assert out.taken == [tok] && out.next.pos == t.pos by {
          DecodeStep(su, c, empty);
        }
      }
    }
  }

  /** A decode call reports EOF exactly when the stream ends cleanly and
      nothing is left of it; it then returns an empty batch and changes
      nothing. */
  lemma DecodeEOFExactly(su: Setup, c: Cursor)
    requires ModeOk(su.mode) && c.pos <= |su.data|
    ensures var out := DecodeFrom(su, c, true);
            && (out.err == Some(EOF) <==> su.end.CleanEnd? && c.pos == |su.data|)
            && (out.err == Some(EOF) ==> out.taken == [] && out.next == c)
  {
  }

  /** A decoding error ends the call at the token that failed, and only
      there: every token before it decoded. */
  lemma {:induction false} DecodeFailsOnlyAtLastToken(su: Setup, c: Cursor, empty: bool)
    requires ModeOk(su.mode) && c.pos <= |su.data|
    ensures var out := DecodeFrom(su, c, empty);
            && (forall i :: 0 <= i < |out.taken| - 1 ==> su.charset(out.taken[i]).Decoded?)
            && (out.err.Some? && out.err.value.CharsetFailure? <==>
                  0 < |out.taken| && su.charset(out.taken[|out.taken| - 1]).Undecodable?)
            && (out.err.Some? && out.err.value.CharsetFailure? ==>
                  out.err.value.code == su.charset(out.taken[|out.taken| - 1]).code)
    decreases |su.data| - c.pos
  {
    if Next(su, c).token.Some? {
      var tok, t, out := Next(su, c).token.value, Counted(su, c), DecodeFrom(su, c, empty);
      if Continues(su, c) {
        var rest := DecodeFrom(su, t, false);
        assert out.taken == [tok] + rest.taken && out.next == rest.next && out.err == rest.err by {
          DecodeStep(su, c, empty);
        }
        DecodeFailsOnlyAtLastToken(su, t, false);
        if rest.taken != [] {
          assert out.taken[|out.taken| - 1] == rest.taken[|rest.taken| - 1];
        }
        forall i | 0 <= i < |out.taken| - 1
          ensures su.charset(out.taken[i]).Decoded?
        {
          if i > 0 {
            assert out.taken[i] == rest.taken[i - 1];
          }
        }
      } else {
        DecodeStep(su, c, empty);
      }
    }
  }

  /** A call returns as soon as the batch is full: when the item threshold is
      enabled and the call starts below it, the call takes at most as many
      tokens as the threshold leaves room for. */
  lemma {:induction false} DecodeBoundedByFlushItems(su: Setup, c: Cursor, empty: bool)
    requires ModeOk(su.mode) && c.pos <= |su.data|
    requires 0 < su.options.flushItems && 0 <= c.items < su.options.flushItems
    ensures |DecodeFrom(su, c, empty).taken| <= su.options.flushItems - c.items
    decreases |su.data| - c.pos
  {
    if Next(su, c).token.Some? {
      DecodeStep(su, c, empty);
      if Continues(su, c) {
        DecodeBoundedByFlushItems(su, Counted(su, c), false);
      }
    }
  }

  /** The counters a call leaves behind, given where it started: every token
      that decoded added its length (before decoding) to the byte count and 1
      to the item count; the call returned early, with the counters reset,
      exactly when that reached a threshold; a token that failed to decode
      was not counted. */
  ghost predicate Tallied(o: DecoderOptions, c: Cursor, out: DecodeOut)
  {
    var got := out.taken;
    var bytes, items := c.bytes + |Flatten(got)|, c.items + |got|;
    if out.err.Some? && out.err.value.CharsetFailure? then
      0 < |got| && out.next.bytes == bytes - |got[|got| - 1]| && out.next.items == items - 1
    else if 0 < |got| && FlushDue(o, bytes, items) then
      out.err.None? && out.next.bytes == 0 && out.next.items == 0
    else
      out.next.bytes == bytes && out.next.items == items
  }

  /** Counting one decoded token that fills no batch, in front of a tally. */
  lemma TalliedCons(o: DecoderOptions, c: Cursor, t: Cursor, tok: seq<byte>, rest: DecodeOut)
    requires t.bytes == c.bytes + |tok| && t.items == c.items + 1 && !FlushDue(o, t.bytes, t.items)
    requires Tallied(o, t, rest)
    ensures Tallied(o, c, DecodeOut(rest.err, rest.next, [tok] + rest.taken))
  {
    var got := [tok] + rest.taken;
    assert Flatten(got) == tok + Flatten(rest.taken) by {
      assert got[1..] == rest.taken;
    }
    if rest.taken != [] {
      assert got[|got| - 1] == rest.taken[|rest.taken| - 1];
    }
  }

  /** The counters after a call are tallied from the tokens it took. */
  lemma {:induction false} DecodeCounts(su: Setup, c: Cursor, empty: bool)
    requires ModeOk(su.mode) && c.pos <= |su.data|
    ensures Tallied(su.options, c, DecodeFrom(su, c, empty))
    decreases |su.data| - c.pos
  {
    if Next(su, c).token.Some? {
      var tok, t, out := Next(su, c).token.value, Counted(su, c), DecodeFrom(su, c, empty);
      if !Continues(su, c) {
        assert Flatten([tok]) == tok;
        DecodeStep(su, c, empty);
      } else {
        var rest := DecodeFrom(su, t, false);
        assert out == DecodeOut(rest.err, rest.next, [tok] + rest.taken) by {
          DecodeStep(su, c, empty);
        }
        DecodeCounts(su, t, false);
        TalliedCons(su.options, c, t, tok, rest);
      }
    }
  }

  /** With both thresholds disabled and every token decodable, one call takes
      every token left and runs to the end of the stream. */
  lemma {:induction false} DecodeAllWhenUnbounded(su: Setup, c: Cursor, empty: bool)
    requires ModeOk(su.mode) && c.pos <= |su.data|
    requires su.options.flushBytes <= 0 && su.options.flushItems <= 0
    requires AllDecodable(su.charset, Tokens(su.mode, su.data[c.pos..]))
    ensures var out := DecodeFrom(su, c, empty);
            && out.taken == Tokens(su.mode, su.data[c.pos..]) && out.next.pos == |su.data|
            && out.err == if su.end.Broken? then Some(EndError(su.end)) else if empty && out.taken == [] then Some(EOF) else None
    decreases |su.data| - c.pos
  {
    if Next(su, c).token.None? {
      assert su.data[c.pos..] == [];
    } else {
      var tok := Next(su, c).token.value;
      var t := Counted(su, c);
      TokensUnfold(su, c);
      assert AllDecodable(su.charset, Tokens(su.mode, su.data[t.pos..])) by {
        forall u | u in Tokens(su.mode, su.data[t.pos..]) ensures su.charset(u).Decoded? {
          assert u in Tokens(su.mode, su.data[c.pos..]);
        }
      }
      assert su.charset(tok).Decoded? by {
        assert tok in Tokens(su.mode, su.data[c.pos..]);
      }
      DisabledNeverFlushes(su.options, t.bytes, t.items);
      DecodeStep(su, c, empty);
      DecodeAllWhenUnbounded(su, t, false);
    }
  }

  /** With only the item threshold enabled and every token decodable, a call
      that starts below the threshold with more tokens ahead than the batch
      has room for returns, without error, once the batch is full, and leaves
      the rest in the stream. */
  lemma {:induction false} DecodeStopsAtFlushItems(su: Setup, c: Cursor, empty: bool)
    requires ModeOk(su.mode) && c.pos <= |su.data|
    requires su.options.flushBytes <= 0 && 0 <= c.items < su.options.flushItems
    requires AllDecodable(su.charset, Tokens(su.mode, su.data[c.pos..]))
    requires su.options.flushItems - c.items < |Tokens(su.mode, su.data[c.pos..])|
    ensures var out := DecodeFrom(su, c, empty);
            && out.err.None?
            && out.taken == Tokens(su.mode, su.data[c.pos..])[..su.options.flushItems - c.items]
            && out.next.pos < |su.data|
    decreases |su.data| - c.pos
  {
    var toks := Tokens(su.mode, su.data[c.pos..]);
    var tok := Next(su, c).token.value;
    var t := Counted(su, c);
    var ahead := Tokens(su.mode, su.data[t.pos..]);
    TokensUnfold(su, c);
    assert su.charset(tok).Decoded? by {
      assert tok in toks;
    }
    var k := su.options.flushItems - c.items;
    DecodeStep(su, c, empty);
    if !Continues(su, c) {
      assert toks[..k] == [tok];
      assert |ahead| > 0;
    } else {
      assert AllDecodable(su.charset, ahead) by {
        forall u | u in ahead ensures su.charset(u).Decoded? {
          assert u in toks;
        }
      }
      DecodeStopsAtFlushItems(su, t, false);
      assert toks[..k] == [tok] + ahead[..k - 1];
    }
  }

  /** How far a decode call has got: `whole` is the result of the call,
      which has taken `taken` so far and is now at `c`. */
  ghost predicate Resumes(su: Setup, whole: DecodeOut, c: Cursor, taken: seq<seq<byte>>)
  {
    && ModeOk(su.mode) && c.pos <= |su.data|
    && var rest := DecodeFrom(su, c, taken == []);
       whole.err == rest.err && whole.next == rest.next && whole.taken == taken + rest.taken
  }

  /** Taking a token and going on keeps track of the call. */
  lemma ResumeContinue(su: Setup, whole: DecodeOut, c: Cursor, taken: seq<seq<byte>>)
    requires Resumes(su, whole, c, taken) && Continues(su, c)
    ensures Resumes(su, whole, Counted(su, c), taken + [Next(su, c).token.value])
  {
    DecodeStep(su, c, taken == []);
  }

  /** Taking a token that fails to decode or fills the batch ends the call. */
  lemma ResumeStop(su: Setup, whole: DecodeOut, c: Cursor, taken: seq<seq<byte>>)
    requires Resumes(su, whole, c, taken) && Next(su, c).token.Some? && !Continues(su, c)
    ensures var tok, t := Next(su, c).token.value, Counted(su, c);
            && whole.taken == taken + [tok] && whole.next.pos == t.pos && whole.next.tracker == t.tracker
            && if su.charset(tok).Undecodable? then
                 whole.err == Some(CharsetFailure(su.charset(tok).code)) && whole.next.bytes == c.bytes && whole.next.items == c.items
               else
                 whole.err.None? && whole.next.bytes == 0 && whole.next.items == 0
  {
    DecodeStep(su, c, taken == []);
  }

  /** A call that finds no token left ends with what it has taken. */
  lemma ResumeEnd(su: Setup, whole: DecodeOut, c: Cursor, taken: seq<seq<byte>>)
    requires Resumes(su, whole, c, taken) && Next(su, c).token.None?
    ensures whole.taken == taken && whole.next == c
    ensures whole.err == if su.end.Broken? then Some(EndError(su.end)) else if taken == [] then Some(EOF) else None
  {
  }

  /** The decoder NewLogsDecoder returns: the scanner over the stream with the
      split function of the codec's mode, the offset tracker the split
      function grows, and the batch tracker. */
  class TextLogsDecoder {
    const codec: TextCodec
    const batchHelper: BatchHelper
    /** Every byte of the stream, and how it ends. */
    const data: seq<byte>
    const end: SourceEnd
    /** Where scanning began, after the initial offset was skipped. */
    ghost const start: nat
    /** The scanner's position: the end of the last token it handed out. */
    var pos: nat
    var offsetTracker: int

    /** The offset tracker is the configured offset plus every byte the
        scanner has consumed. */
    ghost predicate Valid()
      reads this
    {
      && ModeOk(ModeOf(codec))
      && start <= pos <= |data|
      && offsetTracker == batchHelper.options.offset + (pos - start)
    }

    function Env(): Setup
    {
      Setup(ModeOf(codec), codec.decoder, batchHelper.options, data, end)
    }

    function Cur(): Cursor
      reads this, batchHelper
    {
      Cursor(pos, offsetTracker, batchHelper.currentBytes, batchHelper.currentItems)
    }

    constructor (codec: TextCodec, batchHelper: BatchHelper, data: seq<byte>, end: SourceEnd, start: nat, offsetTracker: int)
      requires ModeOk(ModeOf(codec)) && start <= |data| && offsetTracker == batchHelper.options.offset
      ensures Valid()
      ensures this.codec == codec && this.batchHelper == batchHelper && this.data == data && this.end == end
      ensures this.start == start && pos == start && this.offsetTracker == offsetTracker
    {
      this.codec := codec;
      this.batchHelper := batchHelper;
      this.data := data;
      this.end := end;
      this.start := start;
      pos := start;
      this.offsetTracker := offsetTracker;
    }

    /** offsetF: the configured offset plus the bytes consumed so far. */
    function Offset(): (r: int)
      reads this
      requires Valid()
      ensures r == batchHelper.options.offset + (pos - start)
    {
      offsetTracker
    }

    /** bufio.Scanner.Scan with the mode's split function, which also grows
        the offset tracker. */
    method Scan() returns (token: Option<seq<byte>>)
      requires Valid()
      modifies this
      ensures Valid()
      ensures var st := ScanStep(ModeOf(codec), old(data[pos..]));
              token == st.token && pos == old(pos) + st.advance && offsetTracker == old(offsetTracker) + st.grown
    {
      var rest := data[pos..];
      var mode := ModeOf(codec);
      var r := Split(0, None, 0);
      if |rest| > 0 {
        r := SplitBy(mode, rest, false);
      }
      if r.token.None? {
        r := SplitBy(mode, rest, true);
      }
      pos := pos + r.advance;
      offsetTracker := offsetTracker + r.grown;
      token := r.token;
    }

    /** decodeF: appends one record per token until the batch tracker calls
        for a flush or the scanner is done. */
    method DecodeLogs() returns (records: seq<Record>, err: Option<Error>)
      requires Valid()
      modifies this, batchHelper
      ensures Valid()
      ensures var out := DecodeFrom(Env(), old(Cur()), true);
              records == Bodies(codec.decoder, out.taken) && err == out.err && Cur() == out.next
    {
      ghost var su, whole := Env(), DecodeFrom(Env(), Cur(), true);
      assert whole == DecodeFrom(Env(), old(Cur()), true);
      records := [];
      ghost var taken: seq<seq<byte>> := [];
      while true
        invariant Valid()
        invariant records == Bodies(codec.decoder, taken)
        invariant Resumes(su, whole, Cur(), taken)
        decreases |data| - pos
      {
        ghost var c := Cur();
        var token := Scan();
        if token.None? {
          assert Cur() == c;
          break;
        }
        var b := token.value;
        var decoded := codec.decoder(b);
        if decoded.Undecodable? {
          // the record is appended before its token is decoded, and keeps
          // an empty body
          records := records + [[]];
          ResumeStop(su, whole, c, taken);
          BodiesSnoc(codec.decoder, taken, b);
          taken := taken + [b];
          assert records == Bodies(codec.decoder, whole.taken);
          assert pos == Counted(su, c).pos && offsetTracker == Counted(su, c).tracker;
          assert Cur() == whole.next;
          return records, Some(CharsetFailure(decoded.code));
        }
        records := records + [decoded.body];
        batchHelper.IncrementItems(1);
        batchHelper.IncrementBytes(|b|);
        assert Cur() == Counted(su, c);
        if batchHelper.ShouldFlush() {
          batchHelper.Reset();
          ResumeStop(su, whole, c, taken);
          BodiesSnoc(codec.decoder, taken, b);
          taken := taken + [b];
          assert records == Bodies(codec.decoder, whole.taken);
          assert Cur() == whole.next;
          return records, None;
        }
        ResumeContinue(su, whole, c, taken);
        BodiesSnoc(codec.decoder, taken, b);
        taken := taken + [b];
      }
      ResumeEnd(su, whole, Cur(), taken);
      assert records == Bodies(codec.decoder, whole.taken);
      assert Cur() == whole.next;
      if end.Broken? {
        return records, Some(EndError(end));
      }
      if |records| == 0 {
        return records, Some(EOF);
      }
      return records, None;
    }
  }

  /** NewLogsDecoder: the batch tracker from `opts`; a positive offset is
      skipped first (io.CopyN into io.Discard), and a stream too short for
      it aborts construction with the copy's error. The offset tracker starts
      at the configured offset, even a negative one, which is not skipped. */
  method NewLogsDecoder(codec: TextCodec, reader: Reader, opts: seq<DecoderOption>) returns (dec: TextLogsDecoder?, err: Option<Error>)
    requires reader.Valid() && ModeOk(ModeOf(codec))
    modifies reader
    ensures var off := ApplyAll(Defaults(), opts).offset;
            && (err.None? <==> off <= |reader.data| - old(reader.pos))
            && (err.Some? ==> dec == null && err == Some(EndError(reader.end)) && reader.pos == |reader.data|)
            && (err.None? ==> reader.pos == old(reader.pos) + (if off > 0 then off else 0))
    ensures err.None? ==> dec != null && fresh(dec) && fresh(dec.batchHelper) && dec.Valid()
    ensures err.None? ==> dec.codec == codec && dec.data == reader.data && dec.end == reader.end
    ensures err.None? ==> dec.batchHelper.options == ApplyAll(Defaults(), opts)
    ensures err.None? ==> dec.Cur() == Cursor(reader.pos, dec.batchHelper.options.offset, 0, 0)
  {
    var batchHelper := new BatchHelper(opts);
    var offsetTracker := batchHelper.options.offset;
    if offsetTracker > 0 {
      var _, e := reader.Discard(offsetTracker);
      if e.Some? {
        return null, e;
      }
    }
    dec := new TextLogsDecoder(codec, batchHelper, reader.data, reader.end, reader.pos, offsetTracker);
    err := None;
  }

  /** The decode call UnmarshalLogs makes: the whole buffer as a cleanly
      ending stream, with the options it passes. */
  function UnmarshalSetup(codec: TextCodec, buf: seq<byte>, opts: seq<DecoderOption>): Setup
  {
    Setup(ModeOf(codec), codec.decoder, ApplyAll(Defaults(), opts), buf, CleanEnd)
  }

  /** UnmarshalLogs as written: offset 0 and the byte threshold disabled, but
      the item threshold left at its default of 1000. On any error, EOF
      included, the records are dropped. */
  method UnmarshalLogs(codec: TextCodec, buf: seq<byte>) returns (records: seq<Record>, err: Option<Error>)
    requires ModeOk(ModeOf(codec))
    ensures var out := DecodeFrom(UnmarshalSetup(codec, buf, [WithOffset(0), WithFlushBytes(0)]), Cursor(0, 0, 0, 0), true);
            err == out.err && records == (if err.None? then Bodies(codec.decoder, out.taken) else [])
  {
    records, err := Unmarshal(codec, buf, [WithOffset(0), WithFlushBytes(0)]);
  }

  /** UnmarshalLogs with the item threshold disabled too, so that, as its
      comment says, everything is flushed at once: every token of the buffer
      becomes a record. */
  method UnmarshalLogsAll(codec: TextCodec, buf: seq<byte>) returns (records: seq<Record>, err: Option<Error>)
    requires ModeOk(ModeOf(codec))
    ensures AllDecodable(codec.decoder, Tokens(ModeOf(codec), buf)) ==>
              && records == Bodies(codec.decoder, Tokens(ModeOf(codec), buf))
              && err == (if |buf| == 0 then Some(EOF) else None)
  {
    var opts := [WithOffset(0), WithFlushBytes(0), WithFlushItems(0)];
    records, err := Unmarshal(codec, buf, opts);
    var su, c := UnmarshalSetup(codec, buf, opts), Cursor(0, 0, 0, 0);
    assert su.options == DecoderOptions(0, 0, 0);
    assert buf[0..] == buf;
    if AllDecodable(codec.decoder, Tokens(ModeOf(codec), buf)) {
      DecodeAllWhenUnbounded(su, c, true);
      DecodeEOFExactly(su, c);
      if |buf| > 0 {
        assert |Tokens(ModeOf(codec), buf)| > 0;
      }
    }
  }

  /** The body UnmarshalLogs shares with its corrected form: one decoder over
      the buffer, one decode call. */
  method Unmarshal(codec: TextCodec, buf: seq<byte>, opts: seq<DecoderOption>) returns (records: seq<Record>, err: Option<Error>)
    requires ModeOk(ModeOf(codec)) && ApplyAll(Defaults(), opts).offset == 0
    ensures var out := DecodeFrom(UnmarshalSetup(codec, buf, opts), Cursor(0, 0, 0, 0), true);
            err == out.err && records == (if err.None? then Bodies(codec.decoder, out.taken) else [])
  {
    var reader := new Reader(buf, CleanEnd);
    var dec, e := NewLogsDecoder(codec, reader, opts);
    if e.Some? {
      records, err := [], e;
    } else {
      var logs, de := dec.DecodeLogs();
      if de.Some? {
        records, err := [], de;
      } else {
        records, err := logs, None;
      }
    }
  }

  /** What UnmarshalLogs as written does with a buffer of more than 1000
      decodable tokens: it succeeds with the first 1000 records only, and the
      others are lost. */
  lemma UnmarshalDropsRecords(codec: TextCodec, buf: seq<byte>)
    requires ModeOk(ModeOf(codec))
    requires AllDecodable(codec.decoder, Tokens(ModeOf(codec), buf))
    requires 1000 < |Tokens(ModeOf(codec), buf)|
    ensures var out := DecodeFrom(UnmarshalSetup(codec, buf, [WithOffset(0), WithFlushBytes(0)]), Cursor(0, 0, 0, 0), true);
            && out.err.None?
            && out.taken == Tokens(ModeOf(codec), buf)[..1000]
            && |out.taken| < |Tokens(ModeOf(codec), buf)|
  {
    var su := UnmarshalSetup(codec, buf, [WithOffset(0), WithFlushBytes(0)]);
    assert su.options == DecoderOptions(0, 1000, 0);
    assert buf[0..] == buf;
    DecodeStopsAtFlushItems(su, Cursor(0, 0, 0, 0), true);
  }

  /** Whole-remainder mode over "abc": the first call yields the one record
      "abc" and no error, the next one an empty batch and EOF. */
  lemma WholeScenario()
    ensures var su := Setup(Whole, d => Decoded(d), Defaults(), AsBytes("abc"), CleanEnd);
            var first := DecodeFrom(su, Cursor(0, 0, 0, 0), true);
            var second := DecodeFrom(su, first.next, true);
            && first.taken == [AsBytes("abc")] && first.err.None? && first.next.tracker == 3
            && second.taken == [] && second.err == Some(EOF)
  {
    var data := AsBytes("abc");
    var su := Setup(Whole, d => Decoded(d), Defaults(), data, CleanEnd);
    assert data[0..] == data;
    assert data[3..] == [];
    var first := DecodeFrom(su, Cursor(0, 0, 0, 0), true);
    assert first.next.pos == 3;
  }
}
