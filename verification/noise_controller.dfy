/** `NoiseWaveformNodeController`: sends a `NoiseMessage` when a field changed, when forced, or
    when the one-shot reseed toggle is raised; a reseed, once sent, lowers the toggle again. */
module NoiseWaveformNodeControllers {
  import opened Common
  import opened Audio
  import opened Messages
  import opened BaseNodeControllers

  /** The inspector fields and the values last sent. */
  datatype NoiseFields = NoiseFields(
    isActive: bool, noiseType: NoiseType, gain: real, seed: bv32, reseed: bool,
    lastActive: bool, lastType: NoiseType, lastGain: real, lastSeed: bv32, lastReseed: bool)

  /** `shouldSendReseed`: the toggle is up, and was not up at the last send or the send is forced. */
  predicate ShouldSendReseed(f: NoiseFields, force: bool) {
    f.reseed && (!f.lastReseed || force)
  }

  /** Every field equals the value last sent (the gain up to `Mathf.Approximately`). */
  predicate Unchanged(f: NoiseFields) {
    f.lastActive == f.isActive && f.lastType == f.noiseType && Approximately(f.lastGain, f.gain)
    && f.lastSeed == f.seed
  }

  /** `Apply(force)` on values: the fields afterwards and the message sent, if any. */
  function ApplyStep(f: NoiseFields, force: bool): (r: (NoiseFields, Option<NoiseMessage>))
    ensures r.1.None? <==> !force && Unchanged(f) && !ShouldSendReseed(f, force)
    ensures r.1.None? ==> r.0 == f
    ensures r.1.Some? ==>
              var m := r.1.value;
              m.gain == Clamp01(f.gain) && 0.0 <= m.gain <= 1.0 && m.reseed == ShouldSendReseed(f, force)
              && m.noiseType == f.noiseType && m.isActive == f.isActive && m.seed == f.seed
              && r.0.lastActive == f.isActive && r.0.lastType == f.noiseType && r.0.lastGain == f.gain
              && r.0.lastSeed == f.seed
              && r.0.isActive == f.isActive && r.0.noiseType == f.noiseType && r.0.gain == f.gain
              && r.0.seed == f.seed
    ensures r.1.Some? && r.1.value.reseed ==> !r.0.reseed && !r.0.lastReseed
    ensures !f.lastReseed ==> !r.0.lastReseed
  {
    var should := ShouldSendReseed(f, force);
    if !force && Unchanged(f) && !should then (f, None)
    else
      var sent := f.(lastActive := f.isActive, lastType := f.noiseType, lastGain := f.gain,
                     lastSeed := f.seed, lastReseed := f.reseed);
      (if should then sent.(reseed := false, lastReseed := false) else sent,
       Some(NoiseMessage(f.noiseType, Clamp01(f.gain), f.isActive, f.seed, should)))
  }

  /** Applying twice in a row sends at most once: right after `Apply`, an unforced `Apply` finds
      nothing changed and no reseed due. */
  lemma ApplySettles(f: NoiseFields, force: bool)
    ensures ApplyStep(ApplyStep(f, force).0, false).1.None?
  {
    var g := ApplyStep(f, force).0;
    if ApplyStep(f, force).1.Some? {
      ApproximatelyReflexive(f.gain);
      assert Unchanged(g);
    }
  }

  /** Since `lastReseed` is never left raised, a raised toggle is always sent by the next `Apply`,
      forced or not, and `Reseed(n)` sends a reseed carrying `n`. */
  lemma ReseedIsSent(f: NoiseFields, force: bool, n: bv32)
    requires !f.lastReseed
    ensures f.reseed ==> ApplyStep(f, force).1.Some? && ApplyStep(f, force).1.value.reseed
    ensures var r := ApplyStep(f.(seed := n, reseed := true), false);
            r.1.Some? && r.1.value.reseed && r.1.value.seed == n && !r.0.reseed
  {
  }

  /** The message as sent through the base controller. */
  function Boxed(m: Option<NoiseMessage>): (r: Option<Message>)
    ensures r.Some? <==> m.Some?
    ensures m.Some? ==> r.value.NoiseMsg? && r.value.noise == m.value
  {
    if m.Some? then Some(NoiseMsg(m.value)) else None
  }

  class NoiseWaveformNodeController {
    const controller: BaseNodeController
    var isActive: bool
    var noiseType: NoiseType
    var gain: real
    var seed: bv32
    var reseed: bool
    var lastActive: bool
    var lastType: NoiseType
    var lastGain: real
    var lastSeed: bv32
    var lastReseed: bool

    /** The inspector defaults; the `_last*` fields start at their type's default. */
    constructor (c: BaseNodeController)
      ensures controller == c
      ensures Fields() == NoiseFields(true, White, 0.2, 22222, false, false, White, 0.0, 0, false)
    {
      controller := c;
      isActive, noiseType, gain, seed, reseed := true, White, 0.2, 22222, false;
      lastActive, lastType, lastGain, lastSeed, lastReseed := false, White, 0.0, 0, false;
    }

    function Fields(): NoiseFields
      reads this
    {
      NoiseFields(isActive, noiseType, gain, seed, reseed, lastActive, lastType, lastGain, lastSeed, lastReseed)
    }

    /** `Apply`: see `ApplyStep`. */
    method Apply(force: bool, ctx: Context)
      modifies this, ctx`sent
      ensures Fields() == ApplyStep(old(Fields()), force).0
      ensures ctx.sent == old(ctx.sent) + Delivered(old(controller.TargetInstance(ctx)), Boxed(ApplyStep(old(Fields()), force).1))
    {
      ghost var f, target := Fields(), controller.TargetInstance(ctx);
      ghost var r := ApplyStep(f, force);
      var shouldSendReseed := reseed && (!lastReseed || force);
      if !force && lastActive == isActive && lastType == noiseType && Approximately(lastGain, gain)
         && lastSeed == seed && !shouldSendReseed {
        assert r.1.None?;
        return;
      }
      RecordSent();
      var msg := NoiseMessage(noiseType, Clamp01(gain), isActive, seed, shouldSendReseed);
      assert r.1 == Some(msg);
      var _ := controller.TrySend(ctx, NoiseMsg(msg));
      if shouldSendReseed {
        ClearReseed();
      }
      assert Fields() == r.0;
    }

    /** The `_last*` assignments of `Apply`. */
    method RecordSent()
      modifies this
      ensures Fields() == old(Fields()).(lastActive := isActive, lastType := noiseType, lastGain := gain,
                                         lastSeed := seed, lastReseed := reseed)
    {
      lastActive := isActive;
      lastType := noiseType;
      lastGain := gain;
      lastSeed := seed;
      lastReseed := reseed;
    }

    /** The one-shot reseed request is consumed once sent. */
    method ClearReseed()
      modifies this
      ensures Fields() == old(Fields()).(reseed := false, lastReseed := false)
    {
      reseed := false;
      lastReseed := false;
    }

    /** `OnEnable`: a forced `Apply`, so something is always sent to a target. */
    method OnEnable(ctx: Context)
      modifies this, ctx`sent
      ensures Fields() == ApplyStep(old(Fields()), true).0
      ensures ctx.sent == old(ctx.sent) + Delivered(old(controller.TargetInstance(ctx)), Boxed(ApplyStep(old(Fields()), true).1))
    {
      Apply(true, ctx);
    }

    method SetActive(value: bool, ctx: Context)
      modifies this, ctx`sent
      ensures Fields() == ApplyStep(old(Fields()).(isActive := value), false).0
      ensures ctx.sent == old(ctx.sent)
                + Delivered(old(controller.TargetInstance(ctx)), Boxed(ApplyStep(old(Fields()).(isActive := value), false).1))
    {
      isActive := value;
      Apply(false, ctx);
    }

    method SetNoiseType(value: NoiseType, ctx: Context)
      modifies this, ctx`sent
      ensures Fields() == ApplyStep(old(Fields()).(noiseType := value), false).0
      ensures ctx.sent == old(ctx.sent)
                + Delivered(old(controller.TargetInstance(ctx)), Boxed(ApplyStep(old(Fields()).(noiseType := value), false).1))
    {
      noiseType := value;
      Apply(false, ctx);
    }

    /** `SetGain`: the stored gain is clamped to [0, 1]. */
    method SetGain(value01: real, ctx: Context)
      modifies this, ctx`sent
      ensures 0.0 <= gain <= 1.0
      ensures Fields() == ApplyStep(old(Fields()).(gain := Clamp01(value01)), false).0
      ensures ctx.sent == old(ctx.sent)
                + Delivered(old(controller.TargetInstance(ctx)), Boxed(ApplyStep(old(Fields()).(gain := Clamp01(value01)), false).1))
    {
      gain := Clamp01(value01);
      Apply(false, ctx);
    }

    /** `Reseed`: store the seed, raise the toggle and apply; see `ReseedIsSent`. */
    method Reseed(newSeed: bv32, ctx: Context)
      modifies this, ctx`sent
      ensures Fields() == ApplyStep(old(Fields()).(seed := newSeed, reseed := true), false).0
      ensures ctx.sent == old(ctx.sent)
                + Delivered(old(controller.TargetInstance(ctx)),
                            Boxed(ApplyStep(old(Fields()).(seed := newSeed, reseed := true), false).1))
    {
      seed := newSeed;
      reseed := true;
      Apply(false, ctx);
    }
  }
}
