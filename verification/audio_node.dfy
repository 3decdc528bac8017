/** `BaseAudioNode`: the common shape of every pipeline node definition. A node holds an optional
    upstream object; creating its instance first creates the upstream's instance (as a nested
    generator, with a format that is never null) and then allocates its own processor over it. */
module AudioNodes {
  import opened Common
  import opened Audio

  /** What a node's serialized `upstream` field holds. */
  datatype Upstream =
    /** `null`. */
    | NoObject
    /** A Unity object that is not an `IAudioGenerator`. */
    | NonGenerator
    /** Another pipeline node. */
    | PipelineNode(node: BaseAudioNode)
    /** Any other `IAudioGenerator` (a composite, a host, a plain generator), seen only through
        its `isFinite` and `length`; its instance is one opaque allocation. */
    | ForeignGenerator(isFinite: bool, length: Option<int>)
  {
    /** `upstream is IAudioGenerator`. */
    predicate IsGenerator() {
      PipelineNode? || ForeignGenerator?
    }
  }

  /** Every node but the amplitude modulator overrides `isFinite` and `length` with `false` and
      `null`; only the modulator passes its upstream's through. */
  predicate OverridesFinite(s: NodeSettings) {
    !s.AmNode?
  }

  class BaseAudioNode {
    var upstream: Upstream
    /** The concrete node and its inspector settings. */
    const settings: NodeSettings

    constructor (s: NodeSettings, up: Upstream)
      ensures settings == s && upstream == up
    {
      settings := s;
      upstream := up;
    }

    /** `HasUpstream`: the upstream object is a generator. */
    predicate HasUpstream()
      reads this
    {
      upstream.IsGenerator()
    }

    /** The `UpstreamObject` setter. */
    method SetUpstreamObject(value: Upstream)
      modifies this`upstream
      ensures upstream == value
    {
      upstream := value;
    }

    /** `isFinite`, followed along the upstream chain: a node is finite iff it does not override
        the property and its upstream is finite; with no upstream it is not. */
    function IsFinite(chain: seq<BaseAudioNode>): (r: bool)
      reads chain
      requires IsChain(chain) && chain[0] == this
      ensures r <==> (forall i :: 0 <= i < |chain| ==> !OverridesFinite(chain[i].settings))
                     && Last(chain).upstream.ForeignGenerator? && Last(chain).upstream.isFinite
      decreases |chain|
    {
      ChainStep(chain);
      if OverridesFinite(settings) then false
      else match upstream
        case PipelineNode(u) => u.IsFinite(chain[1..])
        case ForeignGenerator(f, _) => f
        case _ => false
    }

    /** `length`, followed along the chain the same way; `null` is `None`. */
    function Length(chain: seq<BaseAudioNode>): (r: Option<int>)
      reads chain
      requires IsChain(chain) && chain[0] == this
      ensures r == if (forall i :: 0 <= i < |chain| ==> !OverridesFinite(chain[i].settings))
                      && Last(chain).upstream.ForeignGenerator?
                   then Last(chain).upstream.length else None
      decreases |chain|
    {
      ChainStep(chain);
      if OverridesFinite(settings) then None
      else match upstream
        case PipelineNode(u) => u.Length(chain[1..])
        case ForeignGenerator(_, n) => n
        case _ => None
    }

    /** `CreateInstance`: the upstream's instance first (nested, with `nested ?? defaultNested`),
        then this node's own instance with the caller's format unchanged. */
    method CreateInstance(ctx: Context, nested: Option<AudioFormat>, defaultNested: AudioFormat,
                          ghost chain: seq<BaseAudioNode>) returns (h: Instance)
      requires IsChain(chain) && chain[0] == this
      modifies ctx`generators
      ensures ctx.generators == old(ctx.generators + Allocations(chain, nested, defaultNested, |ctx.generators|))
      ensures h == Handle(|ctx.generators| - 1)
      decreases |chain|
    {
      var upstreamInstance := Null;
      var hasUpstreamInstance := false;
      match upstream {
        case PipelineNode(u) =>
          upstreamInstance := u.CreateInstance(ctx, Some(nested.GetOr(defaultNested)), defaultNested, chain[1..]);
          hasUpstreamInstance := true;
        case ForeignGenerator(_, _) =>
          upstreamInstance := ctx.Allocate(OtherGenerator(Some(nested.GetOr(defaultNested))));
          hasUpstreamInstance := true;
        case _ =>
      }
      h := CreateInstanceWithUpstream(ctx, nested, hasUpstreamInstance, upstreamInstance);
    }

    /** `CreateInstanceWithUpstream`: no upstream is built; the arguments are passed straight to
        the node's own allocation. */
    method CreateInstanceWithUpstream(ctx: Context, nested: Option<AudioFormat>, hasUpstreamInstance: bool,
                                      upstreamInstance: Instance) returns (h: Instance)
      modifies ctx`generators
      ensures ctx.generators == old(ctx.generators) + [NodeGenerator(settings, nested, hasUpstreamInstance, upstreamInstance)]
      ensures h == Handle(|old(ctx.generators)|)
    {
      h := ctx.Allocate(NodeGenerator(settings, nested, hasUpstreamInstance, upstreamInstance));
    }
  }

  function Last<T>(s: seq<T>): T
    requires |s| > 0
  {
    s[|s| - 1]
  }

  /** `chain` is the upstream chain of `chain[0]`, followed until it leaves the pipeline nodes.
      A node whose upstream links form a cycle has no such chain. */
  ghost predicate IsChain(chain: seq<BaseAudioNode>)
    reads chain
  {
    |chain| >= 1
    && (forall i :: 0 <= i < |chain| - 1 ==> chain[i].upstream == PipelineNode(chain[i + 1]))
    && !Last(chain).upstream.PipelineNode?
  }

  /** A chain of one node ends in that node; a longer one continues with its upstream. */
  lemma ChainStep(chain: seq<BaseAudioNode>)
    requires IsChain(chain)
    ensures |chain| == 1 <==> !chain[0].upstream.PipelineNode?
    ensures |chain| > 1 ==> chain[0].upstream == PipelineNode(chain[1]) && IsChain(chain[1..])
                            && Last(chain[1..]) == Last(chain)
  {
    if |chain| > 1 {
      assert chain[0].upstream == PipelineNode(chain[1]);
    }
  }

  /** The generators `chain[0].CreateInstance` allocates, in order, when the next handle is
      `start`: the upstream's allocations first, the node's own processor last. */
  ghost function Allocations(chain: seq<BaseAudioNode>, nested: Option<AudioFormat>, defaultNested: AudioFormat,
                             start: nat): (r: seq<Generator>)
    reads chain
    requires IsChain(chain)
    ensures |r| >= 1 && (chain[0].HasUpstream() ==> |r| >= 2)
    ensures Last(r) == NodeGenerator(chain[0].settings, nested, chain[0].HasUpstream(),
                                     if chain[0].HasUpstream() then Handle(start + |r| - 2) else Null)
    decreases |chain|
  {
    var n := chain[0];
    match n.upstream
    case PipelineNode(_) =>
      var ups := Allocations(chain[1..], Some(nested.GetOr(defaultNested)), defaultNested, start);
      ups + [NodeGenerator(n.settings, nested, true, Handle(start + |ups| - 1))]
    case ForeignGenerator(_, _) =>
      [OtherGenerator(Some(nested.GetOr(defaultNested))), NodeGenerator(n.settings, nested, true, Handle(start))]
    case _ =>
      [NodeGenerator(n.settings, nested, false, Null)]
  }

  /** One instance per node of the chain, plus one for a foreign generator at its end; every
      upstream instance is created as a nested generator, with a format that is never null. */
  lemma {:induction false} AllocationsShape(chain: seq<BaseAudioNode>, nested: Option<AudioFormat>,
                                            defaultNested: AudioFormat, start: nat)
    requires IsChain(chain)
    ensures var r := Allocations(chain, nested, defaultNested, start);
            |r| == |chain| + (if Last(chain).upstream.ForeignGenerator? then 1 else 0)
            && (forall i :: 0 <= i < |r| - 1 ==> r[i].format.Some?)
    decreases |chain|
  {
    if chain[0].upstream.PipelineNode? {
      AllocationsShape(chain[1..], Some(nested.GetOr(defaultNested)), defaultNested, start);
      assert Last(chain[1..]) == Last(chain);
    }
  }
}
