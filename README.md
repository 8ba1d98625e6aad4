# Batched stream decoding of the OpenTelemetry collector's text encoding

This project is a Dafny model of the stream-decoding engine that the
collector's encoding extensions share, together with proofs about it. The
engine turns a byte stream into records and decides when a batch is full. It
also keeps exact byte-offset accounting, so that a reader can resume a
stream where it stopped. It has four parts:

- **Decoder options** (`extension/encoding/encoding.go`). There are three
  settings: the flush-bytes threshold, the flush-items threshold and the
  initial offset. Their defaults are 1 MiB, 1000 items and offset 0. An
  ordered list of functional options overrides them, and the last option
  that sets a field wins. File `options.dfy`, module `Encoding`.
- **BatchHelper** (`pkg/xstreamencoding/streaming.go`). A class with two
  counters and an exact flush rule: a threshold of 0 or less is disabled.
  File `batch.dfy`, module `Batching`.
- **ScannerHelper** (`pkg/xstreamencoding/streaming.go`). A newline tokenizer
  over a buffered reader. It skips the initial offset when it is built. Each
  scan moves the offset forward by the raw, newline-inclusive length of a
  line, counts that line in the batch, and returns it with its white space
  trimmed. The reader is a class over the stream's bytes with a read
  position: `reader.dfy`, module `Source`. The scanner is a class in
  `scanner.dfy`, module `Streaming`, and every scan is specified by the
  function `Scan` on values.
- **Text log codec** (`extension/encoding/textencodingextension/text.go`).
  This part has four pieces:
  - Two split functions: pattern mode and whole-remainder mode. Both grow a
    shared offset tracker (`split.dfy`, module `TextSplit`).
  - The decoder that `NewLogsDecoder` returns, whose decode call appends one
    record per token until the batch is full or the stream is exhausted. It
    is specified by the function `DecodeFrom` (`text.dfy`, module
    `TextEncoding`).
  - `UnmarshalLogs`, in the same file and module.
  - `MarshalLogs`, which joins record bodies with the marshaling separator
    (`marshal.dfy`, module `TextMarshal`).

Shared values are in `bytes.dfy` (module `Bytes`): bytes, `Option`,
`Result`, how a stream ends, and the errors of the core.

Some inputs are not computed by the model itself, and it takes them as
parameters:

- the regular expression's `FindIndex` is a function value `Finder`;
- the charset decoding of a token is a function value `Charset`;
- how a stream ends is a `SourceEnd`: cleanly (`io.EOF`) or with a read
  failure.

The model follows the code where the code and the documentation around it
differ:

- Every token becomes a record, including empty ones.
- A token that fails to decode still leaves a record behind. The record is
  appended before the decoding is tried, so the returned batch ends with a
  record whose body is empty.
- `UnmarshalLogs` on an empty buffer returns EOF, because the decode call
  reports EOF for an empty batch.

## Model

| member | source | states |
|---|---|---|
| Source.LineLength | pkg/xstreamencoding/streaming.go:77 | the length of the raw line ReadBytes('\n') returns is at most what is left, and zero only when nothing is left |
| Source.LineLengthFindsNewline | pkg/xstreamencoding/streaming.go:77 | the raw line stops right after the first newline, or takes everything left when there is no newline |
| Source.NextRaw | pkg/xstreamencoding/streaming.go:77 | the next raw line is the bytes that follow the read position, and it is empty exactly at the end of the stream |
| Source.Reader.constructor | pkg/xstreamencoding/streaming.go:37 | a new reader holds the stream and has read nothing |
| Source.Reader.ReadBytes | pkg/xstreamencoding/streaming.go:77-83 | returns the next raw line and moves past it; there is no error exactly when the line ends with a newline, otherwise the error is the stream's end error (EOF or the read failure) |
| Source.Reader.Discard | pkg/xstreamencoding/streaming.go:40-45 | a negative count fails with ErrNegativeCount and skips nothing; a count within the stream skips exactly that many bytes; a longer count skips the rest and fails with the stream's end error |
| Encoding.Defaults | extension/encoding/encoding.go:113-118 | the defaults are 1048576 flush bytes, 1000 flush items and offset 0 |
| Encoding.Apply | extension/encoding/encoding.go:127-151 | an option sets its own field to its value and leaves every other field as it was |
| Encoding.LastValueIsLastSetter | extension/encoding/encoding.go:120-122 | the reference value of a field is the value of the last option that sets it, whatever came before |
| Encoding.LastValueUnset | extension/encoding/encoding.go:114-122 | a field no option sets keeps its default |
| Encoding.LastValueSnoc | extension/encoding/encoding.go:120-122 | one more option either sets the field or leaves the earlier reference value |
| Encoding.ApplyAll | extension/encoding/encoding.go:120-122 | no options leave the options as they were; the last option's field ends up holding its value; a field no option targets keeps its starting value |
| Encoding.ApplyAllSnoc | extension/encoding/encoding.go:120-122 | running one more option is applying it to the result of the earlier ones |
| Encoding.ApplyAllLastWins | extension/encoding/encoding.go:120-123 | after running a list of options, every field holds the value of the last option that sets it, or its starting value |
| Encoding.NewDecoderOptions | extension/encoding/encoding.go:113-124 | the loop yields the defaults with each option applied in list order, so every field has the last setter's value or its default |
| Encoding.NoOptionsGiveDefaults | extension/encoding/encoding.go:113-118 | with no options the configuration is (1048576, 1000, 0) |
| Encoding.SettersChangeOneField | extension/encoding/encoding.go:129-151 | WithFlushBytes, WithFlushItems and WithOffset each change only their own field |
| Batching.DisabledNeverFlushes | pkg/xstreamencoding/streaming.go:146-154 | with both thresholds disabled, no counts call for a flush |
| Batching.FlushDueMonotone | pkg/xstreamencoding/streaming.go:146-154 | once a flush is due, larger counts keep it due |
| Batching.ResetNotDue | pkg/xstreamencoding/streaming.go:146-161 | zeroed counts never call for a flush, whatever the thresholds |
| Batching.BatchHelper.constructor | pkg/xstreamencoding/streaming.go:128-132 | the options are the defaults with `opts` applied, and both counters are zero |
| Batching.BatchHelper.IncrementBytes | pkg/xstreamencoding/streaming.go:135-137 | adds n to the byte count and leaves the item count unchanged |
| Batching.BatchHelper.IncrementItems | pkg/xstreamencoding/streaming.go:140-142 | adds n to the item count and leaves the byte count unchanged |
| Batching.BatchHelper.ShouldFlush | pkg/xstreamencoding/streaming.go:146-154 | true exactly when (FlushBytes > 0 and bytes >= FlushBytes) or (FlushItems > 0 and items >= FlushItems) |
| Batching.BatchHelper.Reset | pkg/xstreamencoding/streaming.go:158-161 | both counters become zero, and ShouldFlush is false afterwards |
| Batching.FlushScenario | pkg/xstreamencoding/streaming_test.go:129-142 | with both thresholds at 5: no flush at first, a flush after 5 bytes, none after Reset, a flush after 5 items |
| Streaming.LinesFlatten | pkg/xstreamencoding/streaming.go:75-106 | the raw lines of a stream, put back together, are the stream |
| Streaming.LinesShape | pkg/xstreamencoding/streaming.go:77 | each raw line is non-empty and has a newline at most as its last byte; every line but the last ends with a newline |
| Streaming.LineLengthPrefix | pkg/xstreamencoding/streaming.go:77 | cutting the stream anywhere after its first newline leaves the first line's length unchanged |
| Streaming.LinesAppend | pkg/xstreamencoding/streaming.go:77 | the lines of two streams put one after the other, the first ending with a newline, are the lines of the first followed by the lines of the second |
| Streaming.LinesAppendStep | pkg/xstreamencoding/streaming.go:77 | the first line of such a concatenation is the first line of its first part, and what follows it again ends with a newline or is empty |
| Streaming.ResumeAtLineBoundary | pkg/xstreamencoding/streaming.go:40-50 | cutting the stream right after a newline splits its lines into the lines before and the lines after, so resuming at such an offset sees the remaining lines |
| Streaming.TrimSpace | pkg/xstreamencoding/streaming.go:99 | the result is the input without leading and trailing white space: it neither starts nor ends with white space, and it is empty only when the input is all white space |
| Streaming.NilIfEmpty | pkg/xstreamencoding/streaming.go:99 | an empty trimmed line is nil (None), any other is itself |
| Streaming.Scan | pkg/xstreamencoding/streaming.go:75-106 | a scan moves the position forward within the stream and the offset either stays or moves with it; a scan without error consumes at least one byte; a scan that consumes bytes and flushes leaves zero counters; EOF without progress returns no line, forces a flush and changes nothing; a read failure returns no line, does not flush and changes only the position |
| Streaming.Counted | pkg/xstreamencoding/streaming.go:89-105 | a raw line moves position and offset by its length; on a flush the counters are zero, otherwise they grew by the length and by one; the error is absent exactly when the line ends in a newline, and is EOF otherwise; a returned line is non-empty and no longer than the raw line |
| Streaming.ScanConsumesNextLine | pkg/xstreamencoding/streaming.go:85-105 | a scan that reads a line moves the position and the offset by its raw, newline-inclusive length; it returns the line trimmed; it flushes exactly when the grown counts are due, and then the counters are zero, otherwise they grew by the length and by one; it reports EOF exactly when the line lacks its newline |
| Streaming.ScanAtEnd | pkg/xstreamencoding/streaming.go:77-87 | at the end of the stream a scan returns no line and changes nothing; on a clean stream it forces a flush and reports EOF, and on a failing stream it passes the failure on without flushing |
| Streaming.ScanLastLine | pkg/xstreamencoding/streaming.go:99-105 | a final line without a newline comes back trimmed together with EOF, and the offset reaches the end of the stream |
| Streaming.LineLengthOfLine | pkg/xstreamencoding/streaming.go:77 | a line without a newline, followed by one, is the whole first raw line |
| Streaming.TrimClosingNewline | pkg/xstreamencoding/streaming.go:99 | trimming a line whose only white space is its closing newline gives back the line |
| Streaming.ScanPlainLine | pkg/xstreamencoding/streaming.go:75-106 | a scan over a newline-terminated line without outer white space returns that line with no error and moves by its length plus one |
| Streaming.ScanScenario | pkg/xstreamencoding/streaming_test.go:47-73 | over "line1\nline2\nline3\n", three scans give the three lines at offsets 6, 12 and 18 without a flush, then a fourth gives EOF with a flush |
| Streaming.NextRawIsFirstLine | pkg/xstreamencoding/streaming.go:77 | the next raw line is the first of the lines ahead |
| Streaming.ConsumeBytes | pkg/xstreamencoding/streaming.go:89 | the bytes consumed grow by the chunk just read |
| Streaming.TrackedAfterLine | pkg/xstreamencoding/streaming.go:77-89 | reading the next raw line at the offset keeps the offset equal to the initial offset plus the lines consumed |
| Streaming.TrackedAfterFailure | pkg/xstreamencoding/streaming.go:78-81 | a read failure leaves the lines consumed and the offset unchanged |
| Streaming.ScansFollowLines | pkg/xstreamencoding/streaming.go:89 | after k scans the position and the offset have moved by exactly the raw bytes of the first k lines, and the rest of the lines lie ahead |
| Streaming.StepFollowsLine | pkg/xstreamencoding/streaming.go:77-91 | one scan moves past exactly the first line ahead |
| Streaming.FlattenPrefix | pkg/xstreamencoding/streaming.go:89 | the bytes of the first k lines are the first line followed by the next k - 1 |
| Streaming.ScanReturnsLine | pkg/xstreamencoding/streaming.go:75-106 | the scan after k lines returns line k of the stream, trimmed |
| Streaming.ScansReachEOF | pkg/xstreamencoding/streaming.go:85-87 | once every line of a clean stream is scanned, the offset has grown by the stream's length, and the next scan reports EOF with a flush |
| Streaming.ScannerHelper.constructor | pkg/xstreamencoding/streaming.go:47-51 | the scanner starts at the configured offset, with nothing consumed |
| Streaming.ScannerHelper.Offset | pkg/xstreamencoding/streaming.go:108-111 | the offset is the initial offset plus every raw byte of the lines read, and never less than the configured offset |
| Streaming.ScannerHelper.ScanInternal | pkg/xstreamencoding/streaming.go:75-106 | the line, flush flag, error, read position, offset and counters are those of `Scan` on the old state; the lines consumed grow by the raw bytes between the old and the new offset |
| Streaming.ScannerHelper.ScanBytes | pkg/xstreamencoding/streaming.go:65-73 | returns the record of one scan, nil when the trimmed line is empty, with the scan's flush flag, error and new state |
| Streaming.ScannerHelper.ScanString | pkg/xstreamencoding/streaming.go:57-60 | returns the record of one scan as a string, "" for nil, with the scan's flush flag, error and new state |
| Streaming.NewScannerHelper | pkg/xstreamencoding/streaming.go:30-52 | construction succeeds exactly when 0 <= offset <= stream length; otherwise it fails with "failed to discard offset N" wrapping ErrNegativeCount or the stream's end error; on success exactly `offset` bytes are skipped, Offset() equals the configured offset, and the counters are zero; on failure the reader is left where it was for a negative offset and at the end of the stream for an offset past it |
| Streaming.ScanSecondLine | pkg/xstreamencoding/streaming_test.go:112-116 | in "line1\nline2\nline3\n", a scan at offset 6 that fills no batch returns "line2" with no error and moves the offset by 6 |
| Streaming.ResumeScenario | pkg/xstreamencoding/streaming_test.go:103-116 | with offset 6 over "line1\nline2\nline3\n" the scanner starts at 6, and its first scan gives "line2" at offset 12 without a flush |
| Streaming.DiscardScenario | pkg/xstreamencoding/streaming_test.go:38-44 | offset 10 over "test" fails with "failed to discard offset 10" caused by EOF |
| TextSplit.SplitPattern | extension/encoding/textencodingextension/text.go:57-70 | at EOF with no data: no token, advance 0; with a match at [s, e): token data[0..s), advance e; no match at EOF: the whole data, advance len(data); no match before EOF: no token, advance 0; the tracker grows by the advance |
| TextSplit.SplitWhole | extension/encoding/textencodingextension/text.go:72-81 | a token exactly at EOF with data left, and then it is all the data; the tracker grows by the advance; otherwise no token and advance 0 |
| TextSplit.ScanStep | extension/encoding/textencodingextension/text.go:55-82 | one Scan gives a token exactly when data is left; the token is a prefix of what is left, the advance is positive, and the tracker grows by the advance |
| TextSplit.ScanStepAtMatch | extension/encoding/textencodingextension/text.go:61-64 | with a match at [s, e) the token is the data before s, and the scanner and tracker move by e |
| TextSplit.ScanStepNoMatch | extension/encoding/textencodingextension/text.go:65-68 | with no match all that is left is one token, and the tracker grows by its length |
| TextSplit.WholeTokens | extension/encoding/textencodingextension/text.go:72-81 | whole-remainder mode yields the whole rest as its one token, or no token when nothing is left |
| TextEncoding.ModeOf | extension/encoding/textencodingextension/text.go:56-82 | pattern mode with the configured separator exactly when one is set, otherwise whole-remainder mode |
| TextEncoding.Body | extension/encoding/textencodingextension/text.go:93-101 | a decoded token's record holds its decoded text; a token that fails to decode leaves its record with an empty body |
| TextEncoding.Bodies | extension/encoding/textencodingextension/text.go:92-101 | one record per token |
| TextEncoding.BodiesSnoc | extension/encoding/textencodingextension/text.go:93-101 | one more token appends one more record, its decoded body |
| TextEncoding.Next | extension/encoding/textencodingextension/text.go:92 | the scanner has a next token exactly when the stream is not exhausted |
| TextEncoding.TokensUnfold | extension/encoding/textencodingextension/text.go:92 | the tokens ahead are the next token followed by the tokens after it |
| TextEncoding.DecodeFrom | extension/encoding/textencodingextension/text.go:88-122 | a decode call moves the position forward within the stream; the offset tracker grows by exactly the bytes the scanner consumed; EOF only for a call with no record on a clean stream that is exhausted |
| TextEncoding.DecodeStep | extension/encoding/textencodingextension/text.go:92-110 | a token that decodes and fills no batch is followed by the rest of the call; a token that fails to decode ends the call with its error and uncounted; a token that fills the batch ends the call with no error and zeroed counters |
| TextEncoding.DecodeTakesNextTokens | extension/encoding/textencodingextension/text.go:92-110 | the tokens a call takes are exactly the next tokens of the stream, and the tokens ahead after the call are the rest |
| TextEncoding.DecodeEOFExactly | extension/encoding/textencodingextension/text.go:112-119 | a call returns EOF exactly when the stream ends cleanly and nothing is left; it then returns no record and changes nothing |
| TextEncoding.DecodeFailsOnlyAtLastToken | extension/encoding/textencodingextension/text.go:96-100 | a decoding error ends the call at the token that failed, and carries its code; every earlier token of the call decoded |
| TextEncoding.DecodeBoundedByFlushItems | extension/encoding/textencodingextension/text.go:103-109 | with the item threshold enabled, a call takes at most as many tokens as the threshold leaves room for |
| TextEncoding.TalliedCons | extension/encoding/textencodingextension/text.go:103-109 | counting a decoded token that fills no batch, in front of a call's tally, keeps the tally |
| TextEncoding.DecodeCounts | extension/encoding/textencodingextension/text.go:103-109 | each token taken adds 1 item and its length in bytes; a failing token is not counted; if the call filled the batch the counters are zero and there is no error, otherwise they hold the grown counts |
| TextEncoding.DecodeAllWhenUnbounded | extension/encoding/textencodingextension/text.go:92-121 | with both thresholds disabled and every token decodable, a call takes every token and exhausts the stream; it then fails with a read failure, reports EOF for an empty batch, or succeeds |
| TextEncoding.DecodeStopsAtFlushItems | extension/encoding/textencodingextension/text.go:103-109 | with only the item threshold enabled and more decodable tokens than it leaves room for, a call takes exactly the next `room` tokens and returns without error |
| TextEncoding.ResumeContinue | extension/encoding/textencodingextension/text.go:92-110 | taking a token that decodes and fills no batch keeps track of the call |
| TextEncoding.ResumeStop | extension/encoding/textencodingextension/text.go:96-109 | a token that fails to decode or fills the batch ends the call with that token as its last |
| TextEncoding.ResumeEnd | extension/encoding/textencodingextension/text.go:110-121 | with no token left, the call ends with what it took: a read failure, EOF for an empty batch, or success |
| TextEncoding.TextLogsDecoder.constructor | extension/encoding/textencodingextension/text.go:45-55 | the decoder starts where the skip left the stream, with the tracker at the configured offset |
| TextEncoding.TextLogsDecoder.Offset | extension/encoding/textencodingextension/text.go:84-86 | the offset is the configured offset plus every byte the scanner has consumed |
| TextEncoding.TextLogsDecoder.Scan | extension/encoding/textencodingextension/text.go:55-82 | one Scan gives the split function's token, and the position and tracker grow as that function says |
| TextEncoding.TextLogsDecoder.DecodeLogs | extension/encoding/textencodingextension/text.go:88-122 | the records are one body per token of `DecodeFrom`, and the error and the new scanner and counter state are those of `DecodeFrom`, whose properties are the lemmas above |
| TextEncoding.NewLogsDecoder | extension/encoding/textencodingextension/text.go:44-125 | a positive offset is skipped first; when the stream is too short, construction fails with its end error; otherwise the tracker starts at the configured offset (even a negative one, which skips nothing) and the counters are zero |
| TextEncoding.UnmarshalLogs | extension/encoding/textencodingextension/text.go:28-41 | as written: one decode call with offset 0 and byte flushing disabled; on any error, EOF included, the records are dropped |
| TextEncoding.UnmarshalDropsRecords | extension/encoding/textencodingextension/text.go:28-41 | as written, a buffer of more than 1000 decodable tokens unmarshals without error to its first 1000 records only |
| TextEncoding.UnmarshalLogsAll | extension/encoding/textencodingextension/text.go:28-41 | with both thresholds disabled, every token of the buffer becomes a record, in order; the result is EOF exactly for an empty buffer |
| TextEncoding.Unmarshal | extension/encoding/textencodingextension/text.go:28-41 | one decoder over the buffer, one decode call; the records are returned only when there is no error |
| TextEncoding.WholeScenario | extension/encoding/textencodingextension/text.go:72-81 | whole-remainder mode over "abc" yields the one record "abc" with the tracker at 3, and the next call yields EOF |
| TextMarshal.JoinSnoc | extension/encoding/textencodingextension/text.go:137-141 | one more record follows a separator, unless it is the first |
| TextMarshal.JoinLength | extension/encoding/textencodingextension/text.go:127-146 | K records give K - 1 separators, and 0 records give an empty result |
| TextMarshal.JoinWithoutSeparator | extension/encoding/textencodingextension/text.go:127-146 | with an empty separator the bodies are simply concatenated |
| TextMarshal.JoinAppend | extension/encoding/textencodingextension/text.go:127-146 | marshaling two non-empty runs of records is their outputs joined by one separator |
| TextMarshal.JoinEnds | extension/encoding/textencodingextension/text.go:127-146 | the first body opens the output and the last one closes it |
| TextMarshal.ScopesSnoc | extension/encoding/textencodingextension/text.go:133-135 | the records of one more scope follow those of the scopes before |
| TextMarshal.MarshalLogs | extension/encoding/textencodingextension/text.go:127-146 | the output is every record body, resource by resource and scope by scope, with the separator between each two records and nowhere else |
| TextMarshal.RecordStep | extension/encoding/textencodingextension/text.go:135-141 | appending a record's body, after a separator unless it is the first, extends the join by that record |
| TextMarshal.ScopeStep | extension/encoding/textencodingextension/text.go:133-143 | finishing a scope's records adds exactly that scope to the records seen |
| TextMarshal.ResourceStep | extension/encoding/textencodingextension/text.go:131-144 | finishing a resource's scopes adds exactly that resource to the records seen |
| TextMarshal.MarshalScenario | extension/encoding/textencodingextension/text.go:127-146 | "a", then an empty scope, then "b" and "c" in a second resource, marshal to "a\nb\nc" |

## Left out

- Integers are unbounded. The source's `int64` counters, offsets and thresholds never wrap in the model.
- Streaming.TrimSpace: only ASCII white space is trimmed. Go's `bytes.TrimSpace` also trims Unicode white space.
- Buffering inside `bufio.Reader` and `bufio.Scanner` is not modelled: buffer sizes and growth, `ErrTooLong` for tokens over `MaxScanTokenSize`, and split calls that see only part of the remaining data. A split function always sees everything left in the stream. A regular expression that would match differently on a partial buffer is therefore not captured.
- The regular expression engine is not modelled. `FindIndex` is an abstract `Finder`, assumed to return matches inside the data that end after offset 0. An empty match at offset 0 is excluded. Before the stream's end is seen, such a match gives a non-nil token with advance 0, which resets `bufio.Scanner`'s count of empty tokens. `Scan` then returns the same empty token again and again without progressing. `decodeF` (extension/encoding/textencodingextension/text.go:92-109) would then return `FlushItems` empty records on every call for ever, or never return when the item threshold is disabled. The "too many empty tokens without progressing" panic is raised only after EOF has been seen.
- The charset decoding (`textutils.DecodeAsString` with golang.org/x/text) is an abstract function that either decodes a token or fails with a code.
- The plog containers are not modelled. A batch from a decode call is the list of record bodies. Each record in the source goes into its own resource and scope, and that nesting is dropped. For marshaling, a batch is resources of scopes of record bodies. Observed timestamps (`time.Now()`) are left out.
- A read failure of the source is modelled as sticky. Once the data is exhausted, the stream keeps reporting the same failure. Failures in the middle of the data, and failures that go away, are not modelled.
- Streaming.NewScannerHelper: requires a reader that has not been read from yet. A `bufio.Reader` that a caller passes in after reading from it is not modelled.
- The reuse of a caller's `*bufio.Reader` (`pkg/xstreamencoding/streaming.go:33-38`) is not modelled: the model always scans the given `Reader` directly.
- The `Options()` accessors of ScannerHelper and BatchHelper are left out, because they only return the options field.
- The Logs and Metrics decoder adapters (`pkg/xstreamencoding/streaming.go:168-210`) are left out. They only forward to the two functions they hold. The model's decoder class offers `DecodeLogs` and `Offset` directly.
- The encoding extension interfaces (`extension/encoding/encoding.go:21-101`) are left out, because they only declare interfaces.
- TextEncoding.UnmarshalLogsAll: its record guarantee covers buffers whose tokens all decode. For a buffer with an undecodable token, the records and error come from `Unmarshal`'s contract, and their properties come from the lemmas on `DecodeFrom`.

## Findings

| source | as written | input that shows it | evidently intended | confidence | as-written member | corrected member |
|---|---|---|---|---|---|---|
| extension/encoding/textencodingextension/text.go:28-41 | UnmarshalLogs passes only `WithOffset(0)` and `WithFlushBytes(0)`, so the item threshold keeps its default of 1000 and its one decode call returns after 1000 records | any buffer holding more than 1000 decodable tokens, such as 1001 lines in pattern mode with separator `\n` | "flush all at once": the whole buffer becomes records, which needs `WithFlushItems(0)` as well | not executed | TextEncoding.UnmarshalDropsRecords | TextEncoding.UnmarshalLogsAll |
