/** Decoder configuration: three fields, defaults, and functional options that
    each override one field, applied in list order (extension/encoding). */
module Encoding {

  const DefaultFlushBytes: int := 1024 * 1024
  const DefaultFlushItems: int := 1000

  /** FlushBytes and FlushItems are flush thresholds (0 or less disables
      one); Offset is the initial stream offset. */
  datatype DecoderOptions = DecoderOptions(flushBytes: int, flushItems: int, offset: int)

  /** The three functional options. */
  datatype DecoderOption =
    | WithFlushBytes(b: int)
    | WithFlushItems(i: int)
    | WithOffset(o: int)

  /** Names the fields of DecoderOptions, so that "only this field changes"
      can be said once for all of them. */
  datatype Field = FlushBytes | FlushItems | Offset

  function Get(o: DecoderOptions, f: Field): int
  {
    match f
    case FlushBytes => o.flushBytes
    case FlushItems => o.flushItems
    case Offset => o.offset
  }

  /** The field an option sets. */
  function Target(opt: DecoderOption): Field
  {
    match opt
    case WithFlushBytes(_) => FlushBytes
    case WithFlushItems(_) => FlushItems
    case WithOffset(_) => Offset
  }

  /** The value an option stores in its field. */
  function Value(opt: DecoderOption): int
  {
    match opt
    case WithFlushBytes(b) => b
    case WithFlushItems(i) => i
    case WithOffset(o) => o
  }

  function Defaults(): (o: DecoderOptions)
    ensures o.flushBytes == 1048576 && o.flushItems == 1000 && o.offset == 0
  {
    DecoderOptions(DefaultFlushBytes, DefaultFlushItems, 0)
  }

  /** Runs one option on a configuration: its own field takes its value and
      every other field keeps the value it had. */
  function Apply(o: DecoderOptions, opt: DecoderOption): (r: DecoderOptions)
    ensures Get(r, Target(opt)) == Value(opt)
    ensures forall f :: f != Target(opt) ==> Get(r, f) == Get(o, f)
  {
    match opt
    case WithFlushBytes(b) => o.(flushBytes := b)
    case WithFlushItems(i) => o.(flushItems := i)
    case WithOffset(off) => o.(offset := off)
  }

  /** The options run on `o` one after another, first to last. */
  function ApplyAll(o: DecoderOptions, opts: seq<DecoderOption>): (r: DecoderOptions)
    ensures opts == [] ==> r == o
    ensures |opts| > 0 ==> Get(r, Target(opts[|opts| - 1])) == Value(opts[|opts| - 1])
    ensures forall f :: (forall j :: 0 <= j < |opts| ==> Target(opts[j]) != f) ==> Get(r, f) == Get(o, f)
    decreases |opts|
  {
    if opts == [] then o else ApplyAll(Apply(o, opts[0]), opts[1..])
  }

  /** Reference definition of "the last option wins": the value of the last
      option in `opts` that targets `f`, or `dflt` when none does. */
  function LastValue(opts: seq<DecoderOption>, f: Field, dflt: int): int
  {
    if opts == [] then dflt
    else if Target(opts[|opts| - 1]) == f then Value(opts[|opts| - 1])
    else LastValue(opts[..|opts| - 1], f, dflt)
  }

  /** LastValue is the value of the last setter of `f`, whatever precedes it. */
  lemma {:induction false} LastValueIsLastSetter(opts: seq<DecoderOption>, f: Field, dflt: int, i: nat)
    requires i < |opts| && Target(opts[i]) == f
    requires forall j :: i < j < |opts| ==> Target(opts[j]) != f
    ensures LastValue(opts, f, dflt) == Value(opts[i])
  {
    if i < |opts| - 1 {
      var init := opts[..|opts| - 1];
      assert forall j :: i < j < |init| ==> init[j] == opts[j];
      LastValueIsLastSetter(init, f, dflt, i);
    }
  }

  /** With no option targeting `f`, the default stays. */
  lemma {:induction false} LastValueUnset(opts: seq<DecoderOption>, f: Field, dflt: int)
    requires forall j :: 0 <= j < |opts| ==> Target(opts[j]) != f
    ensures LastValue(opts, f, dflt) == dflt
  {
    if opts != [] {
      LastValueUnset(opts[..|opts| - 1], f, dflt);
    }
  }

  lemma {:induction false} LastValueSnoc(opts: seq<DecoderOption>, opt: DecoderOption, f: Field, dflt: int)
    ensures LastValue(opts + [opt], f, dflt) ==
            if Target(opt) == f then Value(opt) else LastValue(opts, f, dflt)
  {
    assert (opts + [opt])[..|opts|] == opts;
  }

  lemma {:induction false} ApplyAllSnoc(o: DecoderOptions, opts: seq<DecoderOption>, opt: DecoderOption)
    ensures ApplyAll(o, opts + [opt]) == Apply(ApplyAll(o, opts), opt)
    decreases |opts|
  {
    if opts != [] {
      assert (opts + [opt])[1..] == opts[1..] + [opt];
      ApplyAllSnoc(Apply(o, opts[0]), opts[1..], opt);
    } else {
      assert [opt][1..] == [];
    }
  }

  /** Options are applied in list order: every field ends up with the value
      of the last option that sets it, and otherwise keeps its starting value. */
  lemma {:induction false} ApplyAllLastWins(o: DecoderOptions, opts: seq<DecoderOption>, f: Field)
    ensures Get(ApplyAll(o, opts), f) == LastValue(opts, f, Get(o, f))
    decreases |opts|
  {
    if opts != [] {
      var init, last := opts[..|opts| - 1], opts[|opts| - 1];
      assert opts == init + [last];
      ApplyAllSnoc(o, init, last);
      ApplyAllLastWins(o, init, f);
      LastValueSnoc(init, last, f, Get(o, f));
    }
  }

  /** NewDecoderOptions: the defaults, then each option in turn. */
  method NewDecoderOptions(opts: seq<DecoderOption>) returns (options: DecoderOptions)
    ensures options == ApplyAll(Defaults(), opts)
    ensures forall f :: Get(options, f) == LastValue(opts, f, Get(Defaults(), f))
  {
    options := DecoderOptions(DefaultFlushBytes, DefaultFlushItems, 0);
    for i := 0 to |opts|
      invariant options == ApplyAll(Defaults(), opts[..i])
    {
      assert opts[..i + 1] == opts[..i] + [opts[i]];
      ApplyAllSnoc(Defaults(), opts[..i], opts[i]);
      options := Apply(options, opts[i]);
    }
    assert opts[..|opts|] == opts;
    forall f ensures Get(options, f) == LastValue(opts, f, Get(Defaults(), f)) {
      ApplyAllLastWins(Defaults(), opts, f);
    }
  }

  /** With no options the configuration is the defaults: 1 MiB, 1000 items,
      offset 0. */
  lemma NoOptionsGiveDefaults()
    ensures ApplyAll(Defaults(), []) == DecoderOptions(1048576, 1000, 0)
  {
  }

  /** The setter constructors each change their own field and nothing else. */
  lemma SettersChangeOneField(o: DecoderOptions, v: int)
    ensures Apply(o, WithFlushBytes(v)) == DecoderOptions(v, o.flushItems, o.offset)
    ensures Apply(o, WithFlushItems(v)) == DecoderOptions(o.flushBytes, v, o.offset)
    ensures Apply(o, WithOffset(v)) == DecoderOptions(o.flushBytes, o.flushItems, v)
  {
  }
}
