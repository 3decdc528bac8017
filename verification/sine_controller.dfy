/** `SineNodeController`: sends the frequency and the active flag, raw, whenever one differs from
    the value last sent. */
module SineNodeControllers {
  import opened Common
  import opened Audio
  import opened Messages
  import opened BaseNodeControllers

  /** The inspector fields and the values last sent; `None` stands for NaN. */
  datatype SineFields = SineFields(frequency: real, isActive: bool, lastFreq: Option<real>, lastActive: bool)

  predicate Unchanged(f: SineFields) {
    ApproxLast(f.lastFreq, f.frequency) && f.lastActive == f.isActive
  }

  /** `Update` on values: the fields afterwards and the message sent, if any. */
  function UpdateStep(f: SineFields): (r: (SineFields, Option<SineMessage>))
    ensures r.1.None? <==> Unchanged(f)
    ensures r.1.None? ==> r.0 == f
    ensures r.1.Some? ==>
              r.1.value == SineMessage(f.frequency, f.isActive)
              && r.0 == f.(lastFreq := Some(f.frequency), lastActive := f.isActive)
  {
    if Unchanged(f) then (f, None)
    else (f.(lastFreq := Some(f.frequency), lastActive := f.isActive), Some(SineMessage(f.frequency, f.isActive)))
  }

  function Primed(f: SineFields): (g: SineFields)
    ensures g.lastActive != f.isActive
  {
    f.(lastFreq := None, lastActive := !f.isActive)
  }

  /** After `OnEnable`, the first `Update` sends. */
  lemma PrimedSends(f: SineFields)
    ensures UpdateStep(Primed(f)).1 == Some(SineMessage(f.frequency, f.isActive))
  {
  }

  /** Right after an `Update`, the next one sends nothing unless a field changes. */
  lemma UpdateSettles(f: SineFields)
    ensures UpdateStep(UpdateStep(f).0).1.None?
  {
    if UpdateStep(f).1.Some? {
      ApproxLastSame(f.frequency);
    }
  }

  function Boxed(m: Option<SineMessage>): (r: Option<Message>)
    ensures r.Some? <==> m.Some?
    ensures m.Some? ==> r.value.SineMsg? && r.value.sine == m.value
  {
    if m.Some? then Some(SineMsg(m.value)) else None
  }

  class SineNodeController {
    const controller: BaseNodeController
    var frequency: real
    var isActive: bool
    var lastFreq: Option<real>
    var lastActive: bool

    constructor (c: BaseNodeController)
      ensures controller == c
      ensures Fields() == SineFields(440.0, true, Some(0.0), false)
    {
      controller := c;
      frequency, isActive := 440.0, true;
      lastFreq, lastActive := Some(0.0), false;
    }

    function Fields(): SineFields
      reads this
    {
      SineFields(frequency, isActive, lastFreq, lastActive)
    }

    /** `OnEnable`: prime the last-sent values; nothing is sent. */
    method OnEnable()
      modifies this
      ensures Fields() == Primed(old(Fields()))
    {
      lastFreq := None;
      lastActive := !isActive;
    }

    /** `Update`: see `UpdateStep`. */
    method Update(ctx: Context)
      modifies this, ctx`sent
      ensures Fields() == UpdateStep(old(Fields())).0
      ensures ctx.sent == old(ctx.sent) + Delivered(old(controller.TargetInstance(ctx)), Boxed(UpdateStep(old(Fields())).1))
    {
      if ApproxLast(lastFreq, frequency) && lastActive == isActive {
        return;
      }
      lastFreq := Some(frequency);
      lastActive := isActive;
      var _ := controller.TrySend(ctx, SineMsg(SineMessage(frequency, isActive)));
    }
  }
}
