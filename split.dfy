/** The two split functions of the text codec's token scanner (bufio.Scanner
    with a custom split): pattern mode cuts the data at the first match of
    the unmarshaling separator, whole-remainder mode waits for the end of the
    stream and hands back everything left. Both also grow the codec's offset
    tracker, which the model returns as the `grown` part of their answer. */
module TextSplit {
  import opened Bytes

  /** A match of the unmarshaling separator: bytes [start, end) of the data
      searched. */
  datatype Match = Match(start: nat, end: nat)

  /** regexp.Regexp.FindIndex, abstracted: the leftmost match, if any. */
  type Finder = seq<byte> -> Option<Match>

  /** What is assumed of the regular expression: its matches lie within the
      searched data and never end at offset 0. */
  ghost predicate WellFormed(find: Finder)
  {
    forall d: seq<byte> {:trigger find(d)} ::
      find(d).Some? ==> find(d).value.start <= find(d).value.end <= |d| && 0 < find(d).value.end
  }

  /** Pattern mode when an unmarshaling separator is configured, otherwise
      whole-remainder mode. */
  datatype Mode = Pattern(find: Finder) | Whole

  ghost predicate ModeOk(mode: Mode)
  {
    mode.Pattern? ==> WellFormed(mode.find)
  }

  /** A split function's answer: bytes to advance, the token (nil is None),
      and how much the offset tracker grew. */
  datatype Split = Split(advance: nat, token: Option<seq<byte>>, grown: int)

  /** The split function of pattern mode. */
  function SplitPattern(find: Finder, data: seq<byte>, atEOF: bool): (r: Split)
    requires WellFormed(find)
    ensures r.grown == r.advance <= |data|
    ensures r.token.Some? ==> 0 < r.advance && |r.token.value| <= r.advance &&
                              r.token.value == data[..|r.token.value|]
    ensures r.token.None? <==> (atEOF && |data| == 0) || (!atEOF && find(data).None?)
    ensures r.token.None? ==> r.advance == 0
    ensures r.token.Some? && find(data).Some? ==>
              r.token.value == data[..find(data).value.start] && r.advance == find(data).value.end
    ensures r.token.Some? && find(data).None? ==> r.token.value == data && r.advance == |data|
  {
    if atEOF && |data| == 0 then Split(0, None, 0)
    else if find(data).Some? then
      var m := find(data).value;
      Split(m.end, Some(data[..m.start]), m.end)
    else if atEOF then Split(|data|, Some(data), |data|)
    else Split(0, None, 0)
  }

  /** The split function of whole-remainder mode. */
  function SplitWhole(data: seq<byte>, atEOF: bool): (r: Split)
    ensures r.grown == r.advance <= |data|
    ensures r.token.Some? <==> atEOF && |data| > 0
    ensures r.token.Some? ==> r.token.value == data && r.advance == |data|
    ensures r.token.None? ==> r.advance == 0
  {
    if atEOF && |data| == 0 then Split(0, None, 0)
    else if atEOF then Split(|data|, Some(data), |data|)
    else Split(0, None, 0)
  }

  function SplitBy(mode: Mode, data: seq<byte>, atEOF: bool): Split
    requires ModeOk(mode)
  {
    match mode
    case Pattern(find) => SplitPattern(find, data, atEOF)
    case Whole => SplitWhole(data, atEOF)
  }

  /** One Scan of the token scanner over the `rest` of the stream: with data
      buffered the split function is first asked before the end of the
      stream is known, and once the source reports its end (cleanly or with a
      failure) it is asked again with atEOF set. Every remaining byte of the
      stream is taken to be buffered. */
  function ScanStep(mode: Mode, rest: seq<byte>): (r: Split)
    requires ModeOk(mode)
    ensures r.token.None? <==> |rest| == 0
    ensures r.grown == r.advance <= |rest|
    ensures r.token.Some? ==> 0 < r.advance && |r.token.value| <= r.advance &&
                              r.token.value == rest[..|r.token.value|]
    ensures r.token.None? ==> r.advance == 0
  {
    var first := if |rest| > 0 then SplitBy(mode, rest, false) else Split(0, None, 0);
    if first.token.Some? then first else SplitBy(mode, rest, true)
  }

  /** Pattern mode with a match at [s, e): the token is the data before the
      match and the scanner and the offset tracker move past the match end. */
  lemma ScanStepAtMatch(find: Finder, rest: seq<byte>)
    requires WellFormed(find) && find(rest).Some?
    ensures var r, m := ScanStep(Pattern(find), rest), find(rest).value;
            r.token == Some(rest[..m.start]) && r.advance == m.end && r.grown == m.end
  {
  }

  /** Pattern mode with no match: all that is left is one final token. */
  lemma ScanStepNoMatch(find: Finder, rest: seq<byte>)
    requires WellFormed(find) && find(rest).None? && |rest| > 0
    ensures var r := ScanStep(Pattern(find), rest);
            r.token == Some(rest) && r.advance == |rest| && r.grown == |rest|
  {
  }

  /** The tokens the scanner hands out, in order, until the stream is
      exhausted. */
  function Tokens(mode: Mode, rest: seq<byte>): seq<seq<byte>>
    requires ModeOk(mode)
    decreases |rest|
  {
    var st := ScanStep(mode, rest);
    if st.token.None? then [] else [st.token.value] + Tokens(mode, rest[st.advance..])
  }

  /** Whole-remainder mode yields one token, everything, or none at all. */
  lemma WholeTokens(rest: seq<byte>)
    ensures Tokens(Whole, rest) == if |rest| == 0 then [] else [rest]
  {
    if |rest| > 0 {
      assert rest[|rest|..] == [];
    }
  }
}
