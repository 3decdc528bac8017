/** `BiquadFilterNodeController`: sends a `FilterMessage` with the frequency lifted to at least
    1 Hz and Q to at least 0.001, whenever a sanitised value differs from the one last sent. */
module BiquadFilterNodeControllers {
  import opened Common
  import opened Audio
  import opened Messages
  import opened BaseNodeControllers

  /** The inspector fields and the values last sent. */
  datatype FilterFields = FilterFields(
    isActive: bool, mode: FilterMode, frequency: real, q: real, gainDb: real,
    lastActive: bool, lastMode: FilterMode, lastFrequency: real, lastQ: real, lastGainDb: real)

  /** The frequency as sent: at least 1 Hz. */
  function SentFrequency(f: FilterFields): (r: real)
    ensures r >= 1.0 && (f.frequency >= 1.0 ==> r == f.frequency)
  {
    MaxR(1.0, f.frequency)
  }

  /** Q as sent: at least 0.001. */
  function SentQ(f: FilterFields): (r: real)
    ensures r >= 0.001 && (f.q >= 0.001 ==> r == f.q)
  {
    MaxR(0.001, f.q)
  }

  /** Every sanitised value equals the one last sent (the reals up to `Mathf.Approximately`). */
  predicate Unchanged(f: FilterFields) {
    f.lastActive == f.isActive && f.lastMode == f.mode && Approximately(f.lastFrequency, SentFrequency(f))
    && Approximately(f.lastQ, SentQ(f)) && Approximately(f.lastGainDb, f.gainDb)
  }

  /** `Apply(force)` on values: the fields afterwards and the message sent, if any. */
  function ApplyStep(f: FilterFields, force: bool): (r: (FilterFields, Option<FilterMessage>))
    ensures r.1.None? <==> !force && Unchanged(f)
    ensures r.1.None? ==> r.0 == f
    ensures r.1.Some? ==>
              var m := r.1.value;
              m.frequency == SentFrequency(f) && m.q == SentQ(f)
              && m.frequency >= 1.0 && m.q >= 0.001 && m.gainDb == f.gainDb && m.mode == f.mode
              && m.isActive == f.isActive
              && r.0 == f.(lastActive := m.isActive, lastMode := m.mode, lastFrequency := m.frequency,
                           lastQ := m.q, lastGainDb := m.gainDb)
  {
    if !force && Unchanged(f) then (f, None)
    else
      var fs, qq := SentFrequency(f), SentQ(f);
      (f.(lastActive := f.isActive, lastMode := f.mode, lastFrequency := fs, lastQ := qq, lastGainDb := f.gainDb),
       Some(FilterMessage(f.mode, fs, qq, f.gainDb, f.isActive)))
  }

  /** Right after `Apply`, an unforced `Apply` sends nothing. */
  lemma ApplySettles(f: FilterFields, force: bool)
    ensures ApplyStep(ApplyStep(f, force).0, false).1.None?
  {
    var g := ApplyStep(f, force).0;
    if ApplyStep(f, force).1.Some? {
      ApproximatelyReflexive(SentFrequency(f));
      ApproximatelyReflexive(SentQ(f));
      ApproximatelyReflexive(f.gainDb);
      assert SentFrequency(g) == SentFrequency(f) && SentQ(g) == SentQ(f);
    }
  }

  function Boxed(m: Option<FilterMessage>): (r: Option<Message>)
    ensures r.Some? <==> m.Some?
    ensures m.Some? ==> r.value.FilterMsg? && r.value.filter == m.value
  {
    if m.Some? then Some(FilterMsg(m.value)) else None
  }

  class BiquadFilterNodeController {
    const controller: BaseNodeController
    var isActive: bool
    var mode: FilterMode
    var frequency: real
    var q: real
    var gainDb: real
    var lastActive: bool
    var lastMode: FilterMode
    var lastFrequency: real
    var lastQ: real
    var lastGainDb: real

    /** The inspector defaults; the `_last*` fields start at their type's default. */
    constructor (c: BaseNodeController)
      ensures controller == c
      ensures Fields() == FilterFields(true, BandPass, 800.0, 0.8, 0.0, false, LowPass, 0.0, 0.0, 0.0)
    {
      controller := c;
      isActive, mode, frequency, q, gainDb := true, BandPass, 800.0, 0.8, 0.0;
      lastActive, lastMode, lastFrequency, lastQ, lastGainDb := false, LowPass, 0.0, 0.0, 0.0;
    }

    function Fields(): FilterFields
      reads this
    {
      FilterFields(isActive, mode, frequency, q, gainDb, lastActive, lastMode, lastFrequency, lastQ, lastGainDb)
    }

    /** `Apply`: see `ApplyStep`. */
    method Apply(force: bool, ctx: Context)
      modifies this, ctx`sent
      ensures Fields() == ApplyStep(old(Fields()), force).0
      ensures ctx.sent == old(ctx.sent) + Delivered(old(controller.TargetInstance(ctx)), Boxed(ApplyStep(old(Fields()), force).1))
    {
      ghost var r := ApplyStep(Fields(), force);
      var f := MaxR(1.0, frequency);
      var qq := MaxR(0.001, q);
      if !force && lastActive == isActive && lastMode == mode && Approximately(lastFrequency, f)
         && Approximately(lastQ, qq) && Approximately(lastGainDb, gainDb) {
        assert r.1.None?;
        return;
      }
      lastActive := isActive;
      lastMode := mode;
      lastFrequency := f;
      lastQ := qq;
      lastGainDb := gainDb;
      var msg := FilterMessage(mode, f, qq, gainDb, isActive);
      assert r.1 == Some(msg) && Fields() == r.0;
      var _ := controller.TrySend(ctx, FilterMsg(msg));
    }

    /** `OnEnable`: a forced `Apply`. */
    method OnEnable(ctx: Context)
      modifies this, ctx`sent
      ensures Fields() == ApplyStep(old(Fields()), true).0
      ensures ctx.sent == old(ctx.sent) + Delivered(old(controller.TargetInstance(ctx)), Boxed(ApplyStep(old(Fields()), true).1))
    {
      Apply(true, ctx);
    }

    method SetActive(active: bool, ctx: Context)
      modifies this, ctx`sent
      ensures Fields() == ApplyStep(old(Fields()).(isActive := active), false).0
      ensures ctx.sent == old(ctx.sent)
                + Delivered(old(controller.TargetInstance(ctx)), Boxed(ApplyStep(old(Fields()).(isActive := active), false).1))
    {
      isActive := active;
      Apply(false, ctx);
    }

    method SetMode(value: FilterMode, ctx: Context)
      modifies this, ctx`sent
      ensures Fields() == ApplyStep(old(Fields()).(mode := value), false).0
      ensures ctx.sent == old(ctx.sent)
                + Delivered(old(controller.TargetInstance(ctx)), Boxed(ApplyStep(old(Fields()).(mode := value), false).1))
    {
      mode := value;
      Apply(false, ctx);
    }

    /** `SetFrequency`: the raw value is stored; the lift to 1 Hz happens when sending. */
    method SetFrequency(hz: real, ctx: Context)
      modifies this, ctx`sent
      ensures Fields() == ApplyStep(old(Fields()).(frequency := hz), false).0
      ensures ctx.sent == old(ctx.sent)
                + Delivered(old(controller.TargetInstance(ctx)), Boxed(ApplyStep(old(Fields()).(frequency := hz), false).1))
    {
      frequency := hz;
      Apply(false, ctx);
    }

    method SetQ(value: real, ctx: Context)
      modifies this, ctx`sent
      ensures Fields() == ApplyStep(old(Fields()).(q := value), false).0
      ensures ctx.sent == old(ctx.sent)
                + Delivered(old(controller.TargetInstance(ctx)), Boxed(ApplyStep(old(Fields()).(q := value), false).1))
    {
      q := value;
      Apply(false, ctx);
    }

    method SetGainDb(db: real, ctx: Context)
      modifies this, ctx`sent
      ensures Fields() == ApplyStep(old(Fields()).(gainDb := db), false).0
      ensures ctx.sent == old(ctx.sent)
                + Delivered(old(controller.TargetInstance(ctx)), Boxed(ApplyStep(old(Fields()).(gainDb := db), false).1))
    {
      gainDb := db;
      Apply(false, ctx);
    }
  }
}
