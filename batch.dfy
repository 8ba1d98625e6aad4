/** The batch tracker (BatchHelper): counts the bytes and items of the batch
    being built and decides when it is full. */
module Batching {
  import opened Encoding

  /** The flush rule: the byte threshold, when enabled (positive), is reached,
      or else the item threshold, when enabled, is reached. */
  predicate FlushDue(o: DecoderOptions, bytes: int, items: int)
  {
    if o.flushBytes > 0 && bytes >= o.flushBytes then true
    else if o.flushItems > 0 && items >= o.flushItems then true
    else false
  }

  /** With both thresholds disabled the counters never call for a flush. */
  lemma DisabledNeverFlushes(o: DecoderOptions, bytes: int, items: int)
    requires o.flushBytes <= 0 && o.flushItems <= 0
    ensures !FlushDue(o, bytes, items)
  {
  }

  /** Once due, a flush stays due however much more is counted. */
  lemma FlushDueMonotone(o: DecoderOptions, bytes: int, items: int, bytes': int, items': int)
    requires FlushDue(o, bytes, items) && bytes <= bytes' && items <= items'
    ensures FlushDue(o, bytes', items')
  {
  }

  /** Zeroed counters never call for a flush: an enabled threshold is
      positive, and a count of 0 does not reach it. */
  lemma ResetNotDue(o: DecoderOptions)
    ensures !FlushDue(o, 0, 0)
  {
  }

  class BatchHelper {
    const options: DecoderOptions
    var currentBytes: int
    var currentItems: int

    /** NewBatchHelper: options built from `opts`, both counters zero. */
    constructor (opts: seq<DecoderOption>)
      ensures options == ApplyAll(Defaults(), opts)
      ensures currentBytes == 0 && currentItems == 0
    {
      var o := NewDecoderOptions(opts);
      options := o;
      currentBytes := 0;
      currentItems := 0;
    }

    /** Adds n to the byte count only. */
    method IncrementBytes(n: int)
      modifies this
      ensures currentBytes == old(currentBytes) + n
      ensures currentItems == old(currentItems)
    {
      currentBytes := currentBytes + n;
    }

    /** Adds n to the item count only. */
    method IncrementItems(n: int)
      modifies this
      ensures currentItems == old(currentItems) + n
      ensures currentBytes == old(currentBytes)
    {
      currentItems := currentItems + n;
    }

    /** True exactly when an enabled threshold has been reached. */
    function ShouldFlush(): (r: bool)
      reads this
      ensures r <==>
                (options.flushBytes > 0 && currentBytes >= options.flushBytes) ||
                (options.flushItems > 0 && currentItems >= options.flushItems)
    {
      FlushDue(options, currentBytes, currentItems)
    }

    /** Zeroes both counters; the options are a constant and stay as they are. */
    method Reset()
      modifies this
      ensures currentBytes == 0 && currentItems == 0
      ensures !ShouldFlush()
    {
      currentBytes := 0;
      currentItems := 0;
    }
  }

  /** The flush scenario with both thresholds at 5: not due at first, due
      after 5 bytes, not due after a reset, due after 5 items. */
  method FlushScenario() returns (initially: bool, afterBytes: bool, afterReset: bool, afterItems: bool)
    ensures !initially && afterBytes && !afterReset && afterItems
  {
    var h := new BatchHelper([WithFlushBytes(5), WithFlushItems(5)]);
    assert h.options == DecoderOptions(5, 5, 0);
    initially := h.ShouldFlush();
    h.IncrementBytes(5);
    afterBytes := h.ShouldFlush();
    h.Reset();
    afterReset := h.ShouldFlush();
    h.IncrementItems(5);
    afterItems := h.ShouldFlush();
  }
}
