/** `TriangleNodeController`: sends the frequency and the active flag, raw, whenever one differs
    from the value last sent. */
module TriangleNodeControllers {
  import opened Common
  import opened Audio
  import opened Messages
  import opened BaseNodeControllers

  /** The inspector fields and the values last sent; `None` stands for NaN. */
  datatype TriangleFields = TriangleFields(frequency: real, isActive: bool, lastFrequency: Option<real>, lastActive: bool)

  predicate Unchanged(f: TriangleFields) {
    ApproxLast(f.lastFrequency, f.frequency) && f.lastActive == f.isActive
  }

  /** `Update` on values: the fields afterwards and the message sent, if any. */
  function UpdateStep(f: TriangleFields): (r: (TriangleFields, Option<TriangleWaveMessage>))
    ensures r.1.None? <==> Unchanged(f)
    ensures r.1.None? ==> r.0 == f
    ensures r.1.Some? ==>
              r.1.value == TriangleWaveMessage(f.frequency, f.isActive)
              && r.0 == f.(lastFrequency := Some(f.frequency), lastActive := f.isActive)
  {
    if Unchanged(f) then (f, None)
    else
      (f.(lastFrequency := Some(f.frequency), lastActive := f.isActive),
       Some(TriangleWaveMessage(f.frequency, f.isActive)))
  }

  function Primed(f: TriangleFields): (g: TriangleFields)
    ensures g.lastActive != f.isActive
  {
    f.(lastFrequency := None, lastActive := !f.isActive)
  }

  /** After `OnEnable`, the first `Update` sends. */
  lemma PrimedSends(f: TriangleFields)
    ensures UpdateStep(Primed(f)).1 == Some(TriangleWaveMessage(f.frequency, f.isActive))
  {
  }

  /** Right after an `Update`, the next one sends nothing unless a field changes. */
  lemma UpdateSettles(f: TriangleFields)
    ensures UpdateStep(UpdateStep(f).0).1.None?
  {
    if UpdateStep(f).1.Some? {
      ApproxLastSame(f.frequency);
    }
  }

  function Boxed(m: Option<TriangleWaveMessage>): (r: Option<Message>)
    ensures r.Some? <==> m.Some?
    ensures m.Some? ==> r.value.TriangleMsg? && r.value.triangle == m.value
  {
    if m.Some? then Some(TriangleMsg(m.value)) else None
  }

  class TriangleNodeController {
    const controller: BaseNodeController
    var frequency: real
    var isActive: bool
    var lastFrequency: Option<real>
    var lastActive: bool

    constructor (c: BaseNodeController)
      ensures controller == c
      ensures Fields() == TriangleFields(440.0, true, Some(0.0), false)
    {
      controller := c;
      frequency, isActive := 440.0, true;
      lastFrequency, lastActive := Some(0.0), false;
    }

    function Fields(): TriangleFields
      reads this
    {
      TriangleFields(frequency, isActive, lastFrequency, lastActive)
    }

    /** `OnEnable`: prime the last-sent values; nothing is sent. */
    method OnEnable()
      modifies this
      ensures Fields() == Primed(old(Fields()))
    {
      lastFrequency := None;
      lastActive := !isActive;
    }

    /** `Update`: see `UpdateStep`. */
    method Update(ctx: Context)
      modifies this, ctx`sent
      ensures Fields() == UpdateStep(old(Fields())).0
      ensures ctx.sent == old(ctx.sent) + Delivered(old(controller.TargetInstance(ctx)), Boxed(UpdateStep(old(Fields())).1))
    {
      if ApproxLast(lastFrequency, frequency) && lastActive == isActive {
        return;
      }
      lastFrequency := Some(frequency);
      lastActive := isActive;
      var _ := controller.TrySend(ctx, TriangleMsg(TriangleWaveMessage(frequency, isActive)));
    }
  }
}
