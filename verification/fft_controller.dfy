/** `FFTAnalyzeNodeController`: sends the analyzer's settings, raw and unclamped, whenever one
    differs from the value last sent. Enabling only primes the last-sent values, so that the
    first `Update` sends. */
module FFTAnalyzeNodeControllers {
  import opened Common
  import opened Audio
  import opened Messages
  import opened BaseNodeControllers
  import FFTAnalyzeNode

  /** The inspector fields and the values last sent; `None` stands for NaN. */
  datatype AnalyzerFields = AnalyzerFields(
    isActive: bool, binCount: int, minHz: real, maxHz: real, windowSize: int, hopDiv: int, maxSendHz: int,
    lastActive: bool, lastBinCount: int, lastMinHz: Option<real>, lastMaxHz: Option<real>,
    lastWindowSize: int, lastHopDiv: int, lastSendHz: int)

  /** The message: every field as it is. */
  function Raw(f: AnalyzerFields): (m: FFTAnalyzeMessage)
    ensures m.isActive == f.isActive && m.binCount == f.binCount && m.minHz == f.minHz && m.maxHz == f.maxHz
    ensures m.windowSize == f.windowSize && m.hopDiv == f.hopDiv && m.maxSendHz == f.maxSendHz as real
  {
    FFTAnalyzeMessage(f.isActive, f.binCount, f.minHz, f.maxHz, f.windowSize, f.hopDiv, f.maxSendHz as real)
  }

  /** Every field equals the value last sent (the reals up to `Mathf.Approximately`). */
  predicate Unchanged(f: AnalyzerFields) {
    f.lastActive == f.isActive && f.lastBinCount == f.binCount && ApproxLast(f.lastMinHz, f.minHz)
    && ApproxLast(f.lastMaxHz, f.maxHz) && f.lastWindowSize == f.windowSize && f.lastHopDiv == f.hopDiv
    && f.lastSendHz == f.maxSendHz
  }

  /** `Update` on values: the fields afterwards and the message sent, if any. */
  function UpdateStep(f: AnalyzerFields): (r: (AnalyzerFields, Option<FFTAnalyzeMessage>))
    ensures r.1.None? <==> Unchanged(f)
    ensures r.1.None? ==> r.0 == f
    ensures r.1.Some? ==>
              r.1.value == Raw(f)
              && r.0 == f.(lastActive := f.isActive, lastBinCount := f.binCount, lastMinHz := Some(f.minHz),
                           lastMaxHz := Some(f.maxHz), lastWindowSize := f.windowSize, lastHopDiv := f.hopDiv,
                           lastSendHz := f.maxSendHz)
  {
    if Unchanged(f) then (f, None)
    else
      (f.(lastActive := f.isActive, lastBinCount := f.binCount, lastMinHz := Some(f.minHz),
          lastMaxHz := Some(f.maxHz), lastWindowSize := f.windowSize, lastHopDiv := f.hopDiv,
          lastSendHz := f.maxSendHz), Some(Raw(f)))
  }

  /** The priming of `OnEnable`: the opposite active flag, -1 and NaN, and a send rate of 1. */
  function Primed(f: AnalyzerFields): (g: AnalyzerFields)
    ensures g.lastActive != f.isActive
  {
    f.(lastActive := !f.isActive, lastBinCount := -1, lastMinHz := None, lastMaxHz := None,
       lastWindowSize := -1, lastHopDiv := -1, lastSendHz := 1)
  }

  /** After `OnEnable`, the first `Update` sends all the fields. */
  lemma PrimedSends(f: AnalyzerFields)
    ensures UpdateStep(Primed(f)).1 == Some(Raw(f))
  {
    assert Raw(Primed(f)) == Raw(f);
  }

  /** Right after an `Update`, the next one sends nothing unless a field changes. */
  lemma UpdateSettles(f: AnalyzerFields)
    ensures UpdateStep(UpdateStep(f).0).1.None?
  {
    if UpdateStep(f).1.Some? {
      ApproxLastSame(f.minHz);
      ApproxLastSame(f.maxHz);
    }
  }

  /** The send rate goes out raw; the analyzer lifts any rate from the inspector's range [1, 60]
      below 10 to 10 and keeps the others. */
  lemma SentRateIsLifted(f: AnalyzerFields)
    requires 1 <= f.maxSendHz <= 60
    ensures FFTAnalyzeNode.Normalized(Raw(f)).maxSendHz == if f.maxSendHz < 10 then 10.0 else f.maxSendHz as real
  {
  }

  function Boxed(m: Option<FFTAnalyzeMessage>): (r: Option<Message>)
    ensures r.Some? <==> m.Some?
    ensures m.Some? ==> r.value.AnalyzeMsg? && r.value.analyze == m.value
  {
    if m.Some? then Some(AnalyzeMsg(m.value)) else None
  }

  class FFTAnalyzeNodeController {
    const controller: BaseNodeController
    var isActive: bool
    var binCount: int
    var minHz: real
    var maxHz: real
    var windowSize: int
    var hopDiv: int
    var maxSendHz: int
    var lastActive: bool
    var lastBinCount: int
    var lastMinHz: Option<real>
    var lastMaxHz: Option<real>
    var lastWindowSize: int
    var lastHopDiv: int
    var lastSendHz: int

    /** The inspector defaults; the `_last*` fields start at their type's default. */
    constructor (c: BaseNodeController)
      ensures controller == c
      ensures Fields() == AnalyzerFields(true, 64, 40.0, 16000.0, 2048, 2, 30, false, 0, Some(0.0), Some(0.0), 0, 0, 0)
    {
      controller := c;
      isActive, binCount, minHz, maxHz, windowSize, hopDiv, maxSendHz := true, 64, 40.0, 16000.0, 2048, 2, 30;
      lastActive, lastBinCount, lastMinHz, lastMaxHz := false, 0, Some(0.0), Some(0.0);
      lastWindowSize, lastHopDiv, lastSendHz := 0, 0, 0;
    }

    function Fields(): AnalyzerFields
      reads this
    {
      AnalyzerFields(isActive, binCount, minHz, maxHz, windowSize, hopDiv, maxSendHz,
                     lastActive, lastBinCount, lastMinHz, lastMaxHz, lastWindowSize, lastHopDiv, lastSendHz)
    }

    /** `OnEnable`: prime the last-sent values; nothing is sent. */
    method OnEnable()
      modifies this
      ensures Fields() == Primed(old(Fields()))
    {
      lastActive := !isActive;
      lastBinCount := -1;
      lastMinHz := None;
      lastMaxHz := None;
      lastWindowSize := -1;
      lastHopDiv := -1;
      lastSendHz := 1;
    }

    /** `Update`: see `UpdateStep`. */
    method Update(ctx: Context)
      modifies this, ctx`sent
      ensures Fields() == UpdateStep(old(Fields())).0
      ensures ctx.sent == old(ctx.sent) + Delivered(old(controller.TargetInstance(ctx)), Boxed(UpdateStep(old(Fields())).1))
    {
      ghost var r := UpdateStep(Fields());
      if lastActive == isActive && lastBinCount == binCount && ApproxLast(lastMinHz, minHz)
         && ApproxLast(lastMaxHz, maxHz) && lastWindowSize == windowSize && lastHopDiv == hopDiv
         && lastSendHz == maxSendHz {
        assert r.1.None?;
        return;
      }
      RecordSent();
      var msg := FFTAnalyzeMessage(isActive, binCount, minHz, maxHz, windowSize, hopDiv, maxSendHz as real);
      assert r.1 == Some(msg) && Fields() == r.0;
      var _ := controller.TrySend(ctx, AnalyzeMsg(msg));
    }

    /** The seven `_last*` assignments of `Update`. */
    method RecordSent()
      modifies this
      ensures Fields() == old(Fields()).(lastActive := isActive, lastBinCount := binCount, lastMinHz := Some(minHz),
                                         lastMaxHz := Some(maxHz), lastWindowSize := windowSize,
                                         lastHopDiv := hopDiv, lastSendHz := maxSendHz)
    {
      lastActive := isActive;
      lastBinCount := binCount;
      lastMinHz := Some(minHz);
      lastMaxHz := Some(maxHz);
      lastWindowSize := windowSize;
      lastHopDiv := hopDiv;
      lastSendHz := maxSendHz;
    }
  }
}
