/** The host-side vocabulary the pipeline is written against: audio formats, opaque generator
    instance handles, the serialized settings a node allocates its processor from, and a
    registry that stands in for Unity's `ControlContext` (allocate, destroy, exists, send). */
module Audio {
  import opened Common
  import opened Messages

  /** `AudioFormat(speakerMode, sampleRate, bufferSize)`. */
  datatype AudioFormat = AudioFormat(speakerMode: int, sampleRate: int, bufferSize: int)

  /** A `GeneratorInstance`: `Null` is `default(GeneratorInstance)`. */
  datatype Instance = Null | Handle(id: nat)

  /** The serialized inspector settings each concrete node passes to `Processor.Allocate`. */
  datatype NodeSettings =
    | SineNode(initialFrequency: real, initialIsActive: bool)
    | SquareNode(initialFrequency: real, initialDuty: real, initialIsActive: bool)
    | TriangleNode(initialFrequency: real, initialIsActive: bool)
    | NoiseNode(initialNoiseType: NoiseType, initialGain: real, initialIsActive: bool, initialSeed: bv32)
    | BiquadNode(initialMode: FilterMode, initialFrequency: real, initialQ: real, initialGainDb: real, initialIsActive: bool)
    | AmNode(isActive: bool, depth: real, bpm: real, releaseMs: real, phaseOffset01: real)
    | AnalyzerNode(analyzerId: int, initialIsActive: bool, initialBinCount: int, initialMinHz: real,
                   initialMaxHz: real, initialWindowSize: int, initialHopDiv: int, initialMaxSendHz: real)

  /** What one allocation created: a node's processor, given the format and upstream it was
      built with, or the instance of a generator that is not a pipeline node. */
  datatype Generator =
    | NodeGenerator(settings: NodeSettings, format: Option<AudioFormat>, hasUpstream: bool, upstream: Instance)
    | OtherGenerator(format: Option<AudioFormat>)

  /** The control context: every allocation in order (handle `i` is `generators[i]`), the
      handles destroyed so far, and every message sent to an instance. */
  class Context {
    var generators: seq<Generator>
    var destroyed: set<nat>
    var sent: seq<(Instance, Message)>

    constructor ()
      ensures generators == [] && destroyed == {} && sent == []
    {
      generators := [];
      destroyed := {};
      sent := [];
    }

    /** `context.Exists(instance)`: allocated and not destroyed; never the default instance. */
    predicate Exists(h: Instance)
      reads this
    {
      h.Handle? && h.id < |generators| && h.id !in destroyed
    }

    /** `context.AllocateGenerator(...)`: a fresh handle for a new generator. */
    method Allocate(g: Generator) returns (h: Instance)
      modifies this`generators
      ensures generators == old(generators) + [g]
      ensures h == Handle(|old(generators)|) && Exists(h) == (h.id !in destroyed)
    {
      h := Handle(|generators|);
      generators := generators + [g];
    }

    /** `context.Destroy(instance)`; destroying the default instance has no effect. */
    method Destroy(h: Instance)
      modifies this`destroyed
      ensures destroyed == if h.Handle? then old(destroyed) + {h.id} else old(destroyed)
      ensures !Exists(h)
    {
      if h.Handle? {
        destroyed := destroyed + {h.id};
      }
    }

    /** `context.SendMessage(instance, message)`. */
    method Send(h: Instance, m: Message)
      modifies this`sent
      ensures sent == old(sent) + [(h, m)]
    {
      sent := sent + [(h, m)];
    }
  }
}
