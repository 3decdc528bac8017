/** `SquareNodeController`: sends frequency, duty and the active flag, raw, whenever one differs
    from the value last sent; the node clamps the duty. */
module SquareNodeControllers {
  import opened Common
  import opened Audio
  import opened Messages
  import opened BaseNodeControllers

  /** The inspector fields and the values last sent; `None` stands for NaN. */
  datatype SquareFields = SquareFields(
    frequency: real, duty: real, isActive: bool,
    lastFrequency: Option<real>, lastDuty: Option<real>, lastActive: bool)

  predicate Unchanged(f: SquareFields) {
    ApproxLast(f.lastFrequency, f.frequency) && ApproxLast(f.lastDuty, f.duty) && f.lastActive == f.isActive
  }

  /** `Update` on values: the fields afterwards and the message sent, if any. */
  function UpdateStep(f: SquareFields): (r: (SquareFields, Option<SquareWaveMessage>))
    ensures r.1.None? <==> Unchanged(f)
    ensures r.1.None? ==> r.0 == f
    ensures r.1.Some? ==>
              r.1.value == SquareWaveMessage(f.frequency, f.duty, f.isActive)
              && r.0 == f.(lastFrequency := Some(f.frequency), lastDuty := Some(f.duty), lastActive := f.isActive)
  {
    if Unchanged(f) then (f, None)
    else
      (f.(lastFrequency := Some(f.frequency), lastDuty := Some(f.duty), lastActive := f.isActive),
       Some(SquareWaveMessage(f.frequency, f.duty, f.isActive)))
  }

  function Primed(f: SquareFields): (g: SquareFields)
    ensures g.lastActive != f.isActive
  {
    f.(lastFrequency := None, lastDuty := None, lastActive := !f.isActive)
  }

  /** After `OnEnable`, the first `Update` sends. */
  lemma PrimedSends(f: SquareFields)
    ensures UpdateStep(Primed(f)).1 == Some(SquareWaveMessage(f.frequency, f.duty, f.isActive))
  {
  }

  /** Right after an `Update`, the next one sends nothing unless a field changes. */
  lemma UpdateSettles(f: SquareFields)
    ensures UpdateStep(UpdateStep(f).0).1.None?
  {
    if UpdateStep(f).1.Some? {
      ApproxLastSame(f.frequency);
      ApproxLastSame(f.duty);
    }
  }

  function Boxed(m: Option<SquareWaveMessage>): (r: Option<Message>)
    ensures r.Some? <==> m.Some?
    ensures m.Some? ==> r.value.SquareMsg? && r.value.square == m.value
  {
    if m.Some? then Some(SquareMsg(m.value)) else None
  }

  class SquareNodeController {
    const controller: BaseNodeController
    var frequency: real
    var duty: real
    var isActive: bool
    var lastFrequency: Option<real>
    var lastDuty: Option<real>
    var lastActive: bool

    constructor (c: BaseNodeController)
      ensures controller == c
      ensures Fields() == SquareFields(440.0, 0.5, true, Some(0.0), Some(0.0), false)
    {
      controller := c;
      frequency, duty, isActive := 440.0, 0.5, true;
      lastFrequency, lastDuty, lastActive := Some(0.0), Some(0.0), false;
    }

    function Fields(): SquareFields
      reads this
    {
      SquareFields(frequency, duty, isActive, lastFrequency, lastDuty, lastActive)
    }

    /** `OnEnable`: prime the last-sent values; nothing is sent. */
    method OnEnable()
      modifies this
      ensures Fields() == Primed(old(Fields()))
    {
      lastFrequency := None;
      lastDuty := None;
      lastActive := !isActive;
    }

    /** `Update`: see `UpdateStep`. */
    method Update(ctx: Context)
      modifies this, ctx`sent
      ensures Fields() == UpdateStep(old(Fields())).0
      ensures ctx.sent == old(ctx.sent) + Delivered(old(controller.TargetInstance(ctx)), Boxed(UpdateStep(old(Fields())).1))
    {
      if ApproxLast(lastFrequency, frequency) && ApproxLast(lastDuty, duty) && lastActive == isActive {
        return;
      }
      lastFrequency := Some(frequency);
      lastDuty := Some(duty);
      lastActive := isActive;
      var _ := controller.TrySend(ctx, SquareMsg(SquareWaveMessage(frequency, duty, isActive)));
    }
  }
}
