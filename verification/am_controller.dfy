/** `AmNodeController`: normalises its parameters and sends an `AmMessage` whenever a normalised
    value differs from the one last sent. Enabling primes the last-sent values so that they
    match nothing (NaN, here `None`), which makes the next check send. */
module AmNodeControllers {
  import opened Common
  import opened Audio
  import opened Messages
  import opened BaseNodeControllers

  /** The inspector fields and the values last sent; `None` stands for NaN. */
  datatype AmFields = AmFields(
    isActive: bool, depth: real, bpm: real, releaseMs: real, phaseOffset01: real, sendOnEnable: bool,
    lastActive: bool, lastDepth: Option<real>, lastBpm: Option<real>, lastRelease: Option<real>,
    lastPhase: Option<real>)

  /** The normalised message: depth in [0, 1], bpm in [1, 480], release at least 0, phase offset
      in [0, 1), each equal to its field when the field is already in range. */
  function Normalized(f: AmFields): (m: AmMessage)
    ensures m.isActive == f.isActive
    ensures 0.0 <= m.depth <= 1.0 && 1.0 <= m.bpm <= 480.0 && m.releaseMs >= 0.0
    ensures 0.0 <= m.phaseOffset01 < 1.0
    ensures 0.0 <= f.depth <= 1.0 ==> m.depth == f.depth
    ensures 1.0 <= f.bpm <= 480.0 ==> m.bpm == f.bpm
    ensures f.releaseMs >= 0.0 ==> m.releaseMs == f.releaseMs
    ensures 0.0 <= f.phaseOffset01 < 1.0 ==> m.phaseOffset01 == f.phaseOffset01
  {
    var p := Frac(f.phaseOffset01);
    assert 0.0 <= f.phaseOffset01 < 1.0 ==> f.phaseOffset01.Floor == 0;
    AmMessage(f.isActive, Clamp01(f.depth), ClampR(f.bpm, 1.0, 480.0), MaxR(0.0, f.releaseMs), p)
  }

  /** Every normalised value equals the one last sent. */
  predicate Unchanged(f: AmFields) {
    var m := Normalized(f);
    f.lastActive == f.isActive && ApproxLast(f.lastDepth, m.depth) && ApproxLast(f.lastBpm, m.bpm)
    && ApproxLast(f.lastRelease, m.releaseMs) && ApproxLast(f.lastPhase, m.phaseOffset01)
  }

  /** `SendIfDirty(force)` on values: the fields afterwards and the message sent, if any. */
  function SendStep(f: AmFields, force: bool): (r: (AmFields, Option<AmMessage>))
    ensures r.1.None? <==> !force && Unchanged(f)
    ensures r.1.None? ==> r.0 == f
    ensures r.1.Some? ==>
              r.1.value == Normalized(f)
              && r.0 == f.(lastActive := f.isActive, lastDepth := Some(r.1.value.depth), lastBpm := Some(r.1.value.bpm),
                           lastRelease := Some(r.1.value.releaseMs), lastPhase := Some(r.1.value.phaseOffset01))
  {
    if !force && Unchanged(f) then (f, None)
    else
      var m := Normalized(f);
      (f.(lastActive := f.isActive, lastDepth := Some(m.depth), lastBpm := Some(m.bpm),
          lastRelease := Some(m.releaseMs), lastPhase := Some(m.phaseOffset01)), Some(m))
  }

  /** The priming of `OnEnable`: the opposite active flag and NaN for every real. */
  function Primed(f: AmFields): (g: AmFields)
    ensures g.lastActive != f.isActive
  {
    f.(lastActive := !f.isActive, lastDepth := None, lastBpm := None, lastRelease := None, lastPhase := None)
  }

  /** After priming, the next check sends, forced or not: with `sendOnEnable` off, the first
      `Update` sends instead of `OnEnable`. */
  lemma PrimedSends(f: AmFields, force: bool)
    ensures SendStep(Primed(f), force).1 == Some(Normalized(f))
  {
    assert Normalized(Primed(f)) == Normalized(f);
  }

  /** Right after a send, an unforced check sends nothing. */
  lemma SendSettles(f: AmFields, force: bool)
    ensures SendStep(SendStep(f, force).0, false).1.None?
  {
    var g := SendStep(f, force).0;
    if SendStep(f, force).1.Some? {
      var m := Normalized(f);
      assert Normalized(g) == m;
      ApproxLastSame(m.depth);
      ApproxLastSame(m.bpm);
      ApproxLastSame(m.releaseMs);
      ApproxLastSame(m.phaseOffset01);
    }
  }

  function Boxed(m: Option<AmMessage>): (r: Option<Message>)
    ensures r.Some? <==> m.Some?
    ensures m.Some? ==> r.value.AmMsg? && r.value.am == m.value
  {
    if m.Some? then Some(AmMsg(m.value)) else None
  }

  class AmNodeController {
    const controller: BaseNodeController
    var isActive: bool
    var depth: real
    var bpm: real
    var releaseMs: real
    var phaseOffset01: real
    var sendOnEnable: bool
    var lastActive: bool
    var lastDepth: Option<real>
    var lastBpm: Option<real>
    var lastRelease: Option<real>
    var lastPhase: Option<real>

    /** The inspector defaults; the `_last*` fields start at their type's default. */
    constructor (c: BaseNodeController)
      ensures controller == c
      ensures Fields() == AmFields(true, 0.6, 120.0, 250.0, 0.0, true, false, Some(0.0), Some(0.0), Some(0.0), Some(0.0))
    {
      controller := c;
      isActive, depth, bpm, releaseMs, phaseOffset01, sendOnEnable := true, 0.6, 120.0, 250.0, 0.0, true;
      lastActive, lastDepth, lastBpm, lastRelease, lastPhase := false, Some(0.0), Some(0.0), Some(0.0), Some(0.0);
    }

    function Fields(): AmFields
      reads this
    {
      AmFields(isActive, depth, bpm, releaseMs, phaseOffset01, sendOnEnable,
               lastActive, lastDepth, lastBpm, lastRelease, lastPhase)
    }

    /** `OnEnable`: prime the last-sent values, then send (forced) if `sendOnEnable` is set. */
    method OnEnable(ctx: Context)
      modifies this, ctx`sent
      ensures old(Fields()).sendOnEnable ==>
                Fields() == SendStep(Primed(old(Fields())), true).0
                && ctx.sent == old(ctx.sent) + Delivered(old(controller.TargetInstance(ctx)), Some(AmMsg(Normalized(old(Fields())))))
      ensures !old(Fields()).sendOnEnable ==> Fields() == Primed(old(Fields())) && ctx.sent == old(ctx.sent)
    {
      lastActive := !isActive;
      lastDepth := None;
      lastBpm := None;
      lastRelease := None;
      lastPhase := None;
      if sendOnEnable {
        PrimedSends(old(Fields()), true);
        SendIfDirty(true, ctx);
      }
    }

    /** `Update`: an unforced check. */
    method Update(ctx: Context)
      modifies this, ctx`sent
      ensures Fields() == SendStep(old(Fields()), false).0
      ensures ctx.sent == old(ctx.sent) + Delivered(old(controller.TargetInstance(ctx)), Boxed(SendStep(old(Fields()), false).1))
    {
      SendIfDirty(false, ctx);
    }

    /** `SendIfDirty`: see `SendStep`. */
    method SendIfDirty(force: bool, ctx: Context)
      modifies this, ctx`sent
      ensures Fields() == SendStep(old(Fields()), force).0
      ensures ctx.sent == old(ctx.sent) + Delivered(old(controller.TargetInstance(ctx)), Boxed(SendStep(old(Fields()), force).1))
    {
      ghost var r := SendStep(Fields(), force);
      var msg := Normalized(Fields());
      if !force && lastActive == isActive && ApproxLast(lastDepth, msg.depth) && ApproxLast(lastBpm, msg.bpm)
         && ApproxLast(lastRelease, msg.releaseMs) && ApproxLast(lastPhase, msg.phaseOffset01) {
        assert r.1.None?;
        return;
      }
      RecordSent(msg);
      assert r.1 == Some(msg) && Fields() == r.0;
      var _ := controller.TrySend(ctx, AmMsg(msg));
    }

    /** The values just sent become the last-sent values. */
    method RecordSent(msg: AmMessage)
      modifies this`lastActive, this`lastDepth, this`lastBpm, this`lastRelease, this`lastPhase
      ensures Fields() == old(Fields()).(lastActive := isActive, lastDepth := Some(msg.depth), lastBpm := Some(msg.bpm),
                                         lastRelease := Some(msg.releaseMs), lastPhase := Some(msg.phaseOffset01))
    {
      lastActive := isActive;
      lastDepth := Some(msg.depth);
      lastBpm := Some(msg.bpm);
      lastRelease := Some(msg.releaseMs);
      lastPhase := Some(msg.phaseOffset01);
    }

    /** The setters store a normalised value and send nothing. */
    method SetActive(v: bool)
      modifies this`isActive
      ensures Fields() == old(Fields()).(isActive := v)
    {
      isActive := v;
    }

    method SetDepth(v: real)
      modifies this`depth
      ensures 0.0 <= depth <= 1.0
      ensures Fields() == old(Fields()).(depth := Clamp01(v))
    {
      depth := Clamp01(v);
    }

    method SetBpm(v: real)
      modifies this`bpm
      ensures 1.0 <= bpm <= 480.0
      ensures Fields() == old(Fields()).(bpm := ClampR(v, 1.0, 480.0))
    {
      bpm := ClampR(v, 1.0, 480.0);
    }

    method SetReleaseMs(v: real)
      modifies this`releaseMs
      ensures releaseMs >= 0.0
      ensures Fields() == old(Fields()).(releaseMs := MaxR(0.0, v))
    {
      releaseMs := MaxR(0.0, v);
    }

    method SetPhaseOffset01(v: real)
      modifies this`phaseOffset01
      ensures 0.0 <= phaseOffset01 < 1.0
      ensures Fields() == old(Fields()).(phaseOffset01 := Frac(v))
    {
      phaseOffset01 := v - v.Floor as real;
    }
  }
}
