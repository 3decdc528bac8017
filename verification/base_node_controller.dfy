/** `BaseNodeController`: what every controller shares. A controller sends its messages to one
    processor instance: the one an `AudioGraphHost` built for a chosen slot when there is one,
    otherwise the root generator instance of the `AudioSource` it sits next to. */
module BaseNodeControllers {
  import opened Common
  import opened Audio
  import opened Messages
  import opened GraphHost

  class BaseNodeController {
    /** The `AudioSource`: `None` when it is null, else `Some` of its `generatorInstance`. */
    var audioSource: Option<Instance>
    const audioGraphHost: AudioGraphHost?
    var slotGuid: string

    constructor (source: Option<Instance>, host: AudioGraphHost?, guid: string)
      ensures audioSource == source && audioGraphHost == host && slotGuid == guid
    {
      audioSource := source;
      audioGraphHost := host;
      slotGuid := guid;
    }

    /** The slot half of `TryGetTargetInstance`: the host's instance for the slot guid, when there
        is a host, a guid, a cached instance, and that instance still exists. */
    function SlotInstance(ctx: Context): (r: Option<Instance>)
      reads this, audioGraphHost, ctx
      ensures r.Some? <==> audioGraphHost != null && slotGuid != ""
                           && audioGraphHost.TryGetInstance(slotGuid).Some?
                           && ctx.Exists(audioGraphHost.TryGetInstance(slotGuid).value)
      ensures r.Some? ==> r == audioGraphHost.TryGetInstance(slotGuid)
    {
      if audioGraphHost != null && slotGuid != "" then
        var found := audioGraphHost.TryGetInstance(slotGuid);
        if found.Some? && ctx.Exists(found.value) then found else None
      else None
    }

    /** `TryGetTargetInstance`: the slot's instance first; failing that, the `AudioSource`'s
        generator instance if there is an `AudioSource` and the instance exists; otherwise none.
        Only an instance that exists is ever returned. */
    function TargetInstance(ctx: Context): (r: Option<Instance>)
      reads this, audioGraphHost, ctx
      ensures r.Some? ==> ctx.Exists(r.value)
      ensures SlotInstance(ctx).Some? ==> r == SlotInstance(ctx)
      ensures SlotInstance(ctx).None? && audioSource.None? ==> r.None?
      ensures SlotInstance(ctx).None? && audioSource.Some? ==>
                r == (if ctx.Exists(audioSource.value) then audioSource else None)
    {
      var slot := SlotInstance(ctx);
      if slot.Some? then slot
      else if audioSource.None? then None
      else if ctx.Exists(audioSource.value) then audioSource
      else None
    }

    /** `TrySend`: with no target nothing is sent and the result is false; otherwise exactly the
        one message goes to the target and the result is true. */
    method TrySend(ctx: Context, m: Message) returns (ok: bool)
      modifies ctx`sent
      ensures ok <==> old(TargetInstance(ctx)).Some?
      ensures ctx.sent == old(ctx.sent) + Delivered(old(TargetInstance(ctx)), Some(m))
    {
      var target := TargetInstance(ctx);
      if target.None? {
        return false;
      }
      ctx.Send(target.value, m);
      ok := true;
    }

    /** `SetSlotGuid`: only the slot guid changes. */
    method SetSlotGuid(guid: string)
      modifies this`slotGuid
      ensures slotGuid == guid
    {
      slotGuid := guid;
    }
  }

  /** What a send leaves in the context's log: the message, addressed to the target, when there
      is both a target and a message to send. */
  function Delivered(target: Option<Instance>, m: Option<Message>): (r: seq<(Instance, Message)>)
    ensures |r| <= 1
    ensures |r| == 1 <==> target.Some? && m.Some?
    ensures |r| == 1 ==> r[0] == (target.value, m.value)
  {
    if target.Some? && m.Some? then [(target.value, m.value)] else []
  }
}
