# Scriptable audio pipeline, modelled in Dafny

The system is a Unity audio synthesiser built from scriptable pipeline nodes. Each node is a
`ScriptableObject` that, when the audio engine asks for an instance, allocates a realtime
processor through the engine's control context:

- generators: a sine, a square (with duty cycle and an optional hold-on-crossing mode), a
  triangle and a noise source (white, pink or red), each with a de-click envelope;
- effectors: a biquad filter (low-pass, high-pass, band-pass, notch, peak, Audio EQ Cookbook
  coefficients) and an amplitude modulator driven by a tempo;
- a tool: an FFT analyzer that mixes its input to mono into a ring buffer, runs a Goertzel bank
  over a window and publishes spectrum frames to a bus that a histogram UI reads.

Nodes are chained in two ways. A `CompositeAudioPipeline` wires an ordered node array into a
serial chain (each non-null node takes the previous non-null one as its upstream) and creates
the last node's instance, which creates its upstream's first. An `AudioGraphHost` resolves an
`AudioGraphDefinition`, a list of slots that reference each other by guid, by indexing the slots
and building the output slot recursively, caching one instance per slot.

Controllers (`MonoBehaviour`s) hold inspector fields and send one message struct to their
target instance, the host's instance for a slot guid or else the `AudioSource`'s generator,
whenever a (normalised) field differs from the value last sent. The editor side has a slot
dropdown for controllers, which lists the compatible slots of the host's graph, and a property
drawer that edits a frequency in Hz and as the nearest MIDI note. A stand-alone generator of
the naive triangle completes the core; its PolyBLEP helper is defined but never called.

How the model is laid out:

- The engine is a `Context` class (`audio.dfy`). It logs every allocation and every message
  sent, so "which processors exist and what they were told" is state the contracts can name.
- Each node's realtime processor is a class whose fields are the C# struct's fields. `Update`
  drains a pipe (a `seq<Message>`). `Process` fills an `array2<real>` buffer, channel by frame,
  in a loop whose invariant ties the state to a specification function on values (`OscRun`,
  `VoiceRun`, `FRun`, ...).
- Every controller is a class whose `Update`/`Apply` is proved equal to a step function on
  values. Lemmas state that priming sends, that a second step sends nothing, and what is sent.
- Integer and float arithmetic is modelled on unbounded integers and reals. Where the source
  depends on a width (the noise generator's `uint` state, the seed's `int`), `bv32` is used.
- Transcendental functions (`sin`, `cos`, `pow`, `exp`, `log10`, `log2`) and clocks are parameters.

## Model

| member | source | states |
|---|---|---|
| GraphDefinition.EnsuredGuid | MidiSynth/Assets/Scripts/ScriptableAudioPipelineNode/AudioGraphDefinition.cs:25-33 | after `EnsureGuid` a slot's guid is never empty |
| GraphDefinition.EnsuredGuidIdempotent | MidiSynth/Assets/Scripts/ScriptableAudioPipelineNode/AudioGraphDefinition.cs:25-33 | a non-empty guid is kept as it is, so a second `EnsureGuid` changes nothing whatever it would generate |
| GraphDefinition.Slot.constructor | MidiSynth/Assets/Scripts/ScriptableAudioPipelineNode/AudioGraphDefinition.cs:10-22 | a slot holds its guid, label, node and input guids |
| GraphDefinition.Slot.EnsureGuid | MidiSynth/Assets/Scripts/ScriptableAudioPipelineNode/AudioGraphDefinition.cs:25-33 | the new guid is the old one when non-empty, else the generated one |
| GraphDefinition.LastCandidateGuidIsLast | MidiSynth/Assets/Scripts/ScriptableAudioPipelineNode/AudioGraphDefinition.cs:58-71 | the output guid is empty exactly when no slot is present with a node and a guid; otherwise it is the guid of such a slot after which no slot qualifies |
| GraphDefinition.AudioGraphDefinition.constructor | MidiSynth/Assets/Scripts/ScriptableAudioPipelineNode/AudioGraphDefinition.cs:37-41 | the asset holds its slots and output guid |
| GraphDefinition.AudioGraphDefinition.OnValidate | MidiSynth/Assets/Scripts/ScriptableAudioPipelineNode/AudioGraphDefinition.cs:44-72 | every present slot ends with a non-empty guid, existing guids are kept, empty ones get the generated guid, and the output guid is that of the last slot with a node and a guid (empty if none) |
| GraphDefinition.AudioGraphDefinition.EnsureGuids | MidiSynth/Assets/Scripts/ScriptableAudioPipelineNode/AudioGraphDefinition.cs:52-56 | the first loop gives every present slot a guid and keeps existing ones |
| GraphDefinition.AudioGraphDefinition.EnsureOne | MidiSynth/Assets/Scripts/ScriptableAudioPipelineNode/AudioGraphDefinition.cs:54-55 | one iteration of that loop changes only slot `i`'s guid, as `EnsureGuid` does |
| GraphDefinition.AudioGraphDefinition.FindLastCandidate | MidiSynth/Assets/Scripts/ScriptableAudioPipelineNode/AudioGraphDefinition.cs:59-69 | the backward loop returns the last candidate's guid or the empty string |
| GraphHost.IndexOf | MidiSynth/Assets/Scripts/ScriptableAudioPipelineNode/AudioGraphHost.cs:75-83 | the slot index never holds the empty guid |
| GraphHost.IndexOfLastWins | MidiSynth/Assets/Scripts/ScriptableAudioPipelineNode/AudioGraphHost.cs:75-83 | a slot is indexed under its guid unless a later slot has the same guid, and every indexed entry is a slot stored under its own guid |
| GraphHost.BuildExtends | MidiSynth/Assets/Scripts/ScriptableAudioPipelineNode/AudioGraphHost.cs:104-163 | a build only appends allocations and cache entries, adds one allocation per new cache entry, adds only slots ranked no higher than the requested one, and returns the cached instance, the newly allocated processor, or the default instance (with nothing changed) for a slot that cannot be built |
| GraphHost.BuildGrows | MidiSynth/Assets/Scripts/ScriptableAudioPipelineNode/AudioGraphHost.cs:104-163 | the allocation log and the cache grow by the same count and keep their old contents |
| GraphHost.BuildResult | MidiSynth/Assets/Scripts/ScriptableAudioPipelineNode/AudioGraphHost.cs:112-120 | the instance returned by a build, and the unchanged state for a missing slot, a null node or several inputs |
| GraphHost.BuildConsistent | MidiSynth/Assets/Scripts/ScriptableAudioPipelineNode/AudioGraphHost.cs:104-163 | after a build every cached slot is buildable and its handle names a processor of that slot's node built over its input's instance, or over the default instance when the input cannot be built |
| GraphHost.AddEntry | MidiSynth/Assets/Scripts/ScriptableAudioPipelineNode/AudioGraphHost.cs:161 | caching a newly allocated processor keeps the cache consistent |
| GraphHost.BuildFormats | MidiSynth/Assets/Scripts/ScriptableAudioPipelineNode/AudioGraphHost.cs:123-124 | every processor a build allocates gets `nested ?? defaultNested`, except the root slot's own, which gets `nested` as it is |
| GraphHost.UnreachedCycleNeedsNoRank | MidiSynth/Assets/Scripts/ScriptableAudioPipelineNode/AudioGraphHost.cs:94-101 | a slot that loops onto itself but is not reached from the output does not stop the output from being built: the rank only has to cover the output |
| GraphHost.NodelessCycleNeedsNoRank | MidiSynth/Assets/Scripts/ScriptableAudioPipelineNode/AudioGraphHost.cs:117-121 | a cycle from the output back to itself through a slot without a node is admitted, because the build returns the default instance at that slot instead of recursing |
| GraphHost.AudioGraphHost.constructor | MidiSynth/Assets/Scripts/ScriptableAudioPipelineNode/AudioGraphHost.cs:11-15 | both dictionaries start empty |
| GraphHost.AudioGraphHost.CreateInstance | MidiSynth/Assets/Scripts/ScriptableAudioPipelineNode/AudioGraphHost.cs:61-102 | both dictionaries are cleared; with no definition or no slots nothing is built; otherwise the index is `IndexOf(slots)`, an output guid that is not indexed yields the default instance, an indexed one is built as `Build` says; the cache stays consistent and holds one entry per allocation |
| GraphHost.AudioGraphHost.ResolveOutput | MidiSynth/Assets/Scripts/ScriptableAudioPipelineNode/AudioGraphHost.cs:75-101 | indexing then building the output gives the same result as `CreateInstance` once slots exist |
| GraphHost.AudioGraphHost.FoundInstanceIsSlotProcessor | MidiSynth/Assets/Scripts/ScriptableAudioPipelineNode/AudioGraphHost.cs:58-59 | while the cache is consistent, as `CreateInstance` leaves it, an instance `TryGetInstance` finds for a guid is the processor allocated for that indexed slot's node, with its settings, and has an upstream exactly when the slot has one input |
| GraphHost.AudioGraphHost.BuildOutput | MidiSynth/Assets/Scripts/ScriptableAudioPipelineNode/AudioGraphHost.cs:85-101 | an output guid that is not indexed allocates nothing and yields the default instance; an indexed one is built as the root |
| GraphHost.AudioGraphHost.BuildRoot | MidiSynth/Assets/Scripts/ScriptableAudioPipelineNode/AudioGraphHost.cs:94-101 | the root build into the empty cache equals `Build` and leaves a consistent cache |
| GraphHost.AudioGraphHost.IndexSlots | MidiSynth/Assets/Scripts/ScriptableAudioPipelineNode/AudioGraphHost.cs:75-83 | the loop leaves the index equal to `IndexOf(slots)` |
| GraphHost.AudioGraphHost.BuildInstance | MidiSynth/Assets/Scripts/ScriptableAudioPipelineNode/AudioGraphHost.cs:104-163 | the method's result, cache and allocations equal `Build` on the old state |
| AudioNodes.BaseAudioNode.constructor | MidiSynth/Assets/Scripts/ScriptableAudioPipelineNode/Node/BaseAudioNode.cs:7-10 | a node holds its settings and upstream object |
| AudioNodes.BaseAudioNode.SetUpstreamObject | MidiSynth/Assets/Scripts/ScriptableAudioPipelineNode/Node/BaseAudioNode.cs:13-17 | the setter replaces the upstream object and nothing else |
| AudioNodes.BaseAudioNode.IsFinite | MidiSynth/Assets/Scripts/ScriptableAudioPipelineNode/Node/BaseAudioNode.cs:25 | a node is finite exactly when every node along its upstream chain is one that passes `isFinite` through (only the amplitude modulator does; the others override it with false) and the chain ends in a finite foreign generator |
| AudioNodes.BaseAudioNode.Length | MidiSynth/Assets/Scripts/ScriptableAudioPipelineNode/Node/BaseAudioNode.cs:27 | the length is null when a node that overrides it is on the chain or the chain ends without a foreign generator, otherwise that generator's length |
| AudioNodes.BaseAudioNode.CreateInstance | MidiSynth/Assets/Scripts/ScriptableAudioPipelineNode/Node/BaseAudioNode.cs:29-47 | the allocations made are exactly `Allocations(chain, ...)`, upstream first, and the handle returned is the last one |
| AudioNodes.BaseAudioNode.CreateInstanceWithUpstream | MidiSynth/Assets/Scripts/ScriptableAudioPipelineNode/Node/BaseAudioNode.cs:52-60 | exactly one processor is allocated, with the given format and upstream, and its handle is returned |
| AudioNodes.ChainStep | MidiSynth/Assets/Scripts/ScriptableAudioPipelineNode/Node/BaseAudioNode.cs:37-44 | a chain of one node has no pipeline node upstream; a longer one continues with the upstream node's chain |
| AudioNodes.Allocations | MidiSynth/Assets/Scripts/ScriptableAudioPipelineNode/Node/BaseAudioNode.cs:29-47 | the last allocation is the node's own processor, over the previous allocation when it has an upstream and over the default instance otherwise |
| AudioNodes.AllocationsShape | MidiSynth/Assets/Scripts/ScriptableAudioPipelineNode/Node/BaseAudioNode.cs:37-44 | one allocation per node of the chain, one more for a foreign generator at its end, and every upstream allocation has a non-null format |
| CompositePipeline.NonNull | MidiSynth/Assets/Scripts/ScriptableAudioPipelineNode/CompositeAudioPipeline.cs:76-86 | dropping the null entries never lengthens the array |
| CompositePipeline.NonNullFrom | MidiSynth/Assets/Scripts/ScriptableAudioPipelineNode/CompositeAudioPipeline.cs:76-86 | every node kept is an entry of the array |
| CompositePipeline.WiredChain | MidiSynth/Assets/Scripts/ScriptableAudioPipelineNode/CompositeAudioPipeline.cs:66-87 | once wired, with every node listed once, the last node's upstream chain is the non-null nodes in reverse order and ends with no upstream |
| CompositePipeline.WiredAt | MidiSynth/Assets/Scripts/ScriptableAudioPipelineNode/CompositeAudioPipeline.cs:84 | a node not listed again later has the previous non-null node as its upstream, the first one none |
| CompositePipeline.CompositeAudioPipeline.constructor | MidiSynth/Assets/Scripts/ScriptableAudioPipelineNode/CompositeAudioPipeline.cs:10-12 | the pipeline holds its node array |
| CompositePipeline.CompositeAudioPipeline.GetLastNode | MidiSynth/Assets/Scripts/ScriptableAudioPipelineNode/CompositeAudioPipeline.cs:56-64 | null for an empty array, otherwise the last entry; when that is non-null it is the last non-null node |
| CompositePipeline.CompositeAudioPipeline.WireUpstream | MidiSynth/Assets/Scripts/ScriptableAudioPipelineNode/CompositeAudioPipeline.cs:66-87 | afterwards each non-null node (at its last listing) has the nearest non-null node before it as upstream, the first one none |
| CompositePipeline.CompositeAudioPipeline.CreateInstance | MidiSynth/Assets/Scripts/ScriptableAudioPipelineNode/CompositeAudioPipeline.cs:37-54 | without a last node nothing is allocated and the default instance is returned, whatever the array holds; otherwise the array is wired and the allocations are those of the whole chain read back from the last node, newest first (`Reversed`), down to the first non-null node, the last node's handle returned |
| CompositePipeline.CompositeAudioPipeline.WiredIsNotFinite | MidiSynth/Assets/Scripts/ScriptableAudioPipelineNode/CompositeAudioPipeline.cs:14-32 | once wired, the last node's chain ends at the first non-null node, whose upstream is null, so `isFinite` is false and `length` is null |
| CompositePipeline.CompositeAudioPipeline.CreateWired | MidiSynth/Assets/Scripts/ScriptableAudioPipelineNode/CompositeAudioPipeline.cs:53 | creating the last node's instance after wiring allocates the reversed non-null nodes' chain |
| CompositePipeline.Link | MidiSynth/Assets/Scripts/ScriptableAudioPipelineNode/CompositeAudioPipeline.cs:84-85 | one loop step wires the node to the previous non-null node and keeps the earlier wiring |
| CompositePipeline.WiredSnoc | MidiSynth/Assets/Scripts/ScriptableAudioPipelineNode/CompositeAudioPipeline.cs:76-86 | appending a node wired to the previous last node extends the wiring invariant |
| CompositePipeline.NonNullDistinct | MidiSynth/Assets/Scripts/ScriptableAudioPipelineNode/CompositeAudioPipeline.cs:76-86 | distinct non-null entries stay distinct once the nulls are dropped |
| BaseNodeControllers.BaseNodeController.constructor | MidiSynth/Assets/Scripts/ScriptableAudioPipelineNode/Controller/BaseNodeController.cs:10-17 | a controller holds its `AudioSource` target, optional host and slot guid |
| BaseNodeControllers.BaseNodeController.TargetInstance | MidiSynth/Assets/Scripts/ScriptableAudioPipelineNode/Controller/BaseNodeController.cs:30-57 | the slot's instance wins (`SlotInstance`: there is a host and a non-empty guid, the host has an instance for it and that instance still exists); failing that the `AudioSource`'s generator instance if there is a source and the instance exists; otherwise none; only an existing instance is ever returned |
| BaseNodeControllers.BaseNodeController.TrySend | MidiSynth/Assets/Scripts/ScriptableAudioPipelineNode/Controller/BaseNodeController.cs:59-69 | the result is true exactly when a target exists; then exactly one entry, pairing that target with the message, is added to the context's log (`Delivered`); otherwise the log is unchanged |
| BaseNodeControllers.BaseNodeController.SetSlotGuid | MidiSynth/Assets/Scripts/ScriptableAudioPipelineNode/Controller/BaseNodeController.cs:71-74 | only the slot guid changes |
| SineNodeControllers.UpdateStep | MidiSynth/Assets/Scripts/ScriptableAudioPipelineNode/Controller/Waveform/SineNodeController.cs:24-39 | nothing is sent exactly when frequency and active flag both equal the values last sent, and then nothing changes; otherwise the raw frequency and flag are sent and become the last-sent values |
| SineNodeControllers.Primed | MidiSynth/Assets/Scripts/ScriptableAudioPipelineNode/Controller/Waveform/SineNodeController.cs:18-22 | priming stores the opposite of the active flag |
| SineNodeControllers.PrimedSends | MidiSynth/Assets/Scripts/ScriptableAudioPipelineNode/Controller/Waveform/SineNodeController.cs:18-39 | after `OnEnable` the first `Update` sends the current fields |
| SineNodeControllers.UpdateSettles | MidiSynth/Assets/Scripts/ScriptableAudioPipelineNode/Controller/Waveform/SineNodeController.cs:24-39 | right after an `Update`, the next one sends nothing |
| SineNodeControllers.SineNodeController.constructor | MidiSynth/Assets/Scripts/ScriptableAudioPipelineNode/Controller/Waveform/SineNodeController.cs:10-16 | the inspector defaults, 440 Hz and active, with last-sent values at their type defaults |
| SineNodeControllers.SineNodeController.OnEnable | MidiSynth/Assets/Scripts/ScriptableAudioPipelineNode/Controller/Waveform/SineNodeController.cs:18-22 | the last-sent frequency becomes NaN and the last-sent flag the opposite of the current one; nothing is sent |
| SineNodeControllers.SineNodeController.Update | MidiSynth/Assets/Scripts/ScriptableAudioPipelineNode/Controller/Waveform/SineNodeController.cs:24-39 | the new fields and the context's log are those `UpdateStep` gives: a message it returns goes out unchanged as a sine message (`Boxed`) to the controller's target, and none is sent otherwise |
| SquareNodeControllers.UpdateStep | MidiSynth/Assets/Scripts/ScriptableAudioPipelineNode/Controller/Waveform/SquareNodeController.cs:25-43 | nothing is sent exactly when frequency, duty and flag equal the last-sent values; otherwise all three are sent raw and recorded |
| SquareNodeControllers.Primed | MidiSynth/Assets/Scripts/ScriptableAudioPipelineNode/Controller/Waveform/SquareNodeController.cs:18-23 | priming stores the opposite of the active flag |
| SquareNodeControllers.PrimedSends | MidiSynth/Assets/Scripts/ScriptableAudioPipelineNode/Controller/Waveform/SquareNodeController.cs:18-43 | after `OnEnable` the first `Update` sends the current fields |
| SquareNodeControllers.UpdateSettles | MidiSynth/Assets/Scripts/ScriptableAudioPipelineNode/Controller/Waveform/SquareNodeController.cs:25-43 | right after an `Update`, the next one sends nothing |
| SquareNodeControllers.SquareNodeController.constructor | MidiSynth/Assets/Scripts/ScriptableAudioPipelineNode/Controller/Waveform/SquareNodeController.cs:10-16 | the inspector defaults, 440 Hz, duty 0.5, active |
| SquareNodeControllers.SquareNodeController.OnEnable | MidiSynth/Assets/Scripts/ScriptableAudioPipelineNode/Controller/Waveform/SquareNodeController.cs:18-23 | last-sent frequency and duty become NaN, the last-sent flag the opposite of the current one |
| SquareNodeControllers.SquareNodeController.Update | MidiSynth/Assets/Scripts/ScriptableAudioPipelineNode/Controller/Waveform/SquareNodeController.cs:25-43 | the new fields and the context's log are those `UpdateStep` gives: a message it returns goes out unchanged as a square-wave message (`Boxed`) to the controller's target, and none is sent otherwise |
| TriangleNodeControllers.UpdateStep | MidiSynth/Assets/Scripts/ScriptableAudioPipelineNode/Controller/Waveform/TriangleNodeController.cs:22-36 | nothing is sent exactly when frequency and flag equal the last-sent values; otherwise both are sent raw and recorded |
| TriangleNodeControllers.Primed | MidiSynth/Assets/Scripts/ScriptableAudioPipelineNode/Controller/Waveform/TriangleNodeController.cs:16-20 | priming stores the opposite of the active flag |
| TriangleNodeControllers.PrimedSends | MidiSynth/Assets/Scripts/ScriptableAudioPipelineNode/Controller/Waveform/TriangleNodeController.cs:16-36 | after `OnEnable` the first `Update` sends the current fields |
| TriangleNodeControllers.UpdateSettles | MidiSynth/Assets/Scripts/ScriptableAudioPipelineNode/Controller/Waveform/TriangleNodeController.cs:22-36 | right after an `Update`, the next one sends nothing |
| TriangleNodeControllers.TriangleNodeController.constructor | MidiSynth/Assets/Scripts/ScriptableAudioPipelineNode/Controller/Waveform/TriangleNodeController.cs:10-14 | the inspector defaults, 440 Hz and active |
| TriangleNodeControllers.TriangleNodeController.OnEnable | MidiSynth/Assets/Scripts/ScriptableAudioPipelineNode/Controller/Waveform/TriangleNodeController.cs:16-20 | the last-sent frequency becomes NaN and the last-sent flag the opposite of the current one |
| TriangleNodeControllers.TriangleNodeController.Update | MidiSynth/Assets/Scripts/ScriptableAudioPipelineNode/Controller/Waveform/TriangleNodeController.cs:22-36 | the new fields and the context's log are those `UpdateStep` gives: a message it returns goes out unchanged as a triangle-wave message (`Boxed`) to the controller's target, and none is sent otherwise |
| NoiseWaveformNodeControllers.ApplyStep | MidiSynth/Assets/Scripts/ScriptableAudioPipelineNode/Controller/Waveform/NoiseWaveformNodeController.cs:50-87 | nothing is sent exactly when the send is not forced, every field equals its last-sent value and no reseed is due; a message carries the gain as `Clamp01(gain)` (so within [0, 1]), the type, flag and seed, and the reseed flag exactly when a reseed is due; once a reseed is sent the toggle is lowered; `lastReseed` is never left raised |
| NoiseWaveformNodeControllers.ApplySettles | MidiSynth/Assets/Scripts/ScriptableAudioPipelineNode/Controller/Waveform/NoiseWaveformNodeController.cs:50-87 | right after `Apply`, an unforced `Apply` sends nothing |
| NoiseWaveformNodeControllers.ReseedIsSent | MidiSynth/Assets/Scripts/ScriptableAudioPipelineNode/Controller/Waveform/NoiseWaveformNodeController.cs:108-113 | a raised reseed toggle is always sent by the next `Apply`, and `Reseed(n)` sends a reseed carrying `n` and lowers the toggle |
| NoiseWaveformNodeControllers.NoiseWaveformNodeController.constructor | MidiSynth/Assets/Scripts/ScriptableAudioPipelineNode/Controller/Waveform/NoiseWaveformNodeController.cs:10-25 | the inspector defaults: active, white, gain 0.2, seed 22222, no reseed |
| NoiseWaveformNodeControllers.NoiseWaveformNodeController.Apply | MidiSynth/Assets/Scripts/ScriptableAudioPipelineNode/Controller/Waveform/NoiseWaveformNodeController.cs:50-87 | the new fields and the context's log are those `ApplyStep` gives: a message it returns goes out unchanged as a noise message (`Boxed`) to the controller's target, and none is sent otherwise |
| NoiseWaveformNodeControllers.NoiseWaveformNodeController.RecordSent | MidiSynth/Assets/Scripts/ScriptableAudioPipelineNode/Controller/Waveform/NoiseWaveformNodeController.cs:65-69 | the current fields become the last-sent values and nothing else changes |
| NoiseWaveformNodeControllers.NoiseWaveformNodeController.ClearReseed | MidiSynth/Assets/Scripts/ScriptableAudioPipelineNode/Controller/Waveform/NoiseWaveformNodeController.cs:82-86 | the reseed toggle and its last-sent value are lowered and nothing else changes |
| NoiseWaveformNodeControllers.NoiseWaveformNodeController.OnEnable | MidiSynth/Assets/Scripts/ScriptableAudioPipelineNode/Controller/Waveform/NoiseWaveformNodeController.cs:27-30 | a forced `Apply` |
| NoiseWaveformNodeControllers.NoiseWaveformNodeController.SetActive | MidiSynth/Assets/Scripts/ScriptableAudioPipelineNode/Controller/Waveform/NoiseWaveformNodeController.cs:90-94 | the flag is stored, then an unforced `Apply` |
| NoiseWaveformNodeControllers.NoiseWaveformNodeController.SetNoiseType | MidiSynth/Assets/Scripts/ScriptableAudioPipelineNode/Controller/Waveform/NoiseWaveformNodeController.cs:96-100 | the type is stored, then an unforced `Apply` |
| NoiseWaveformNodeControllers.NoiseWaveformNodeController.SetGain | MidiSynth/Assets/Scripts/ScriptableAudioPipelineNode/Controller/Waveform/NoiseWaveformNodeController.cs:102-106 | the gain is stored clamped to [0, 1], then an unforced `Apply` |
| NoiseWaveformNodeControllers.NoiseWaveformNodeController.Reseed | MidiSynth/Assets/Scripts/ScriptableAudioPipelineNode/Controller/Waveform/NoiseWaveformNodeController.cs:108-113 | the seed is stored and the toggle raised, then an unforced `Apply` |
| BiquadFilterNodeControllers.SentFrequency | MidiSynth/Assets/Scripts/ScriptableAudioPipelineNode/Controller/Effector/BiquadFilterNodeController.cs:57 | the frequency sent is at least 1 Hz and equals the field when the field is |
| BiquadFilterNodeControllers.SentQ | MidiSynth/Assets/Scripts/ScriptableAudioPipelineNode/Controller/Effector/BiquadFilterNodeController.cs:58 | Q as sent is at least 0.001 and equals the field when the field is |
| BiquadFilterNodeControllers.ApplyStep | MidiSynth/Assets/Scripts/ScriptableAudioPipelineNode/Controller/Effector/BiquadFilterNodeController.cs:54-85 | nothing is sent exactly when unforced and every sanitised value equals its last-sent value; a message carries the frequency as `max(1, frequency)` and Q as `max(0.001, q)`, and the gain, mode and flag as they are, and those become the last-sent values |
| BiquadFilterNodeControllers.ApplySettles | MidiSynth/Assets/Scripts/ScriptableAudioPipelineNode/Controller/Effector/BiquadFilterNodeController.cs:54-85 | right after `Apply`, an unforced `Apply` sends nothing |
| BiquadFilterNodeControllers.BiquadFilterNodeController.constructor | MidiSynth/Assets/Scripts/ScriptableAudioPipelineNode/Controller/Effector/BiquadFilterNodeController.cs:10-30 | the inspector defaults: active, band-pass, 800 Hz, Q 0.8, 0 dB |
| BiquadFilterNodeControllers.BiquadFilterNodeController.Apply | MidiSynth/Assets/Scripts/ScriptableAudioPipelineNode/Controller/Effector/BiquadFilterNodeController.cs:54-85 | the new fields and the context's log are those `ApplyStep` gives: a message it returns goes out unchanged as a filter message (`Boxed`) to the controller's target, and none is sent otherwise |
| BiquadFilterNodeControllers.BiquadFilterNodeController.OnEnable | MidiSynth/Assets/Scripts/ScriptableAudioPipelineNode/Controller/Effector/BiquadFilterNodeController.cs:32-35 | a forced `Apply` |
| BiquadFilterNodeControllers.BiquadFilterNodeController.SetActive | MidiSynth/Assets/Scripts/ScriptableAudioPipelineNode/Controller/Effector/BiquadFilterNodeController.cs:89-93 | the flag is stored, then an unforced `Apply` |
| BiquadFilterNodeControllers.BiquadFilterNodeController.SetMode | MidiSynth/Assets/Scripts/ScriptableAudioPipelineNode/Controller/Effector/BiquadFilterNodeController.cs:95-99 | the mode is stored, then an unforced `Apply` |
| BiquadFilterNodeControllers.BiquadFilterNodeController.SetFrequency | MidiSynth/Assets/Scripts/ScriptableAudioPipelineNode/Controller/Effector/BiquadFilterNodeController.cs:101-105 | the raw frequency is stored, then an unforced `Apply` |
| BiquadFilterNodeControllers.BiquadFilterNodeController.SetQ | MidiSynth/Assets/Scripts/ScriptableAudioPipelineNode/Controller/Effector/BiquadFilterNodeController.cs:107-111 | the raw Q is stored, then an unforced `Apply` |
| BiquadFilterNodeControllers.BiquadFilterNodeController.SetGainDb | MidiSynth/Assets/Scripts/ScriptableAudioPipelineNode/Controller/Effector/BiquadFilterNodeController.cs:113-117 | the gain is stored, then an unforced `Apply` |
| AmNodeControllers.Normalized | MidiSynth/Assets/Scripts/ScriptableAudioPipelineNode/Controller/Effector/AMNodeController.cs:50-53 | depth lands in [0, 1], bpm in [1, 480], release at least 0 and the phase offset in [0, 1), each unchanged when already in range |
| AmNodeControllers.SendStep | MidiSynth/Assets/Scripts/ScriptableAudioPipelineNode/Controller/Effector/AMNodeController.cs:47-78 | nothing is sent exactly when unforced and every normalised value equals its last-sent value; otherwise the normalised message is sent and recorded |
| AmNodeControllers.Primed | MidiSynth/Assets/Scripts/ScriptableAudioPipelineNode/Controller/Effector/AMNodeController.cs:29-34 | priming stores the opposite of the active flag |
| AmNodeControllers.PrimedSends | MidiSynth/Assets/Scripts/ScriptableAudioPipelineNode/Controller/Effector/AMNodeController.cs:27-45 | after priming the next check sends the normalised fields, forced or not |
| AmNodeControllers.SendSettles | MidiSynth/Assets/Scripts/ScriptableAudioPipelineNode/Controller/Effector/AMNodeController.cs:47-78 | right after a send, an unforced check sends nothing |
| AmNodeControllers.AmNodeController.constructor | MidiSynth/Assets/Scripts/ScriptableAudioPipelineNode/Controller/Effector/AMNodeController.cs:11-25 | the inspector defaults: active, depth 0.6, 120 bpm, 250 ms, phase 0, send on enable |
| AmNodeControllers.AmNodeController.OnEnable | MidiSynth/Assets/Scripts/ScriptableAudioPipelineNode/Controller/Effector/AMNodeController.cs:27-40 | the last-sent values are primed; with `sendOnEnable` the normalised fields are then sent to the target, otherwise nothing is sent |
| AmNodeControllers.AmNodeController.Update | MidiSynth/Assets/Scripts/ScriptableAudioPipelineNode/Controller/Effector/AMNodeController.cs:42-45 | an unforced `SendIfDirty` |
| AmNodeControllers.AmNodeController.SendIfDirty | MidiSynth/Assets/Scripts/ScriptableAudioPipelineNode/Controller/Effector/AMNodeController.cs:47-78 | the new fields and the context's log are those `SendStep` gives: a message it returns goes out unchanged as an AM message (`Boxed`) to the controller's target, and none is sent otherwise |
| AmNodeControllers.AmNodeController.RecordSent | MidiSynth/Assets/Scripts/ScriptableAudioPipelineNode/Controller/Effector/AMNodeController.cs:65-69 | the sent values become the last-sent values and nothing else changes |
| AmNodeControllers.AmNodeController.SetActive | MidiSynth/Assets/Scripts/ScriptableAudioPipelineNode/Controller/Effector/AMNodeController.cs:81 | only the flag changes |
| AmNodeControllers.AmNodeController.SetDepth | MidiSynth/Assets/Scripts/ScriptableAudioPipelineNode/Controller/Effector/AMNodeController.cs:82 | the depth is stored clamped to [0, 1] |
| AmNodeControllers.AmNodeController.SetBpm | MidiSynth/Assets/Scripts/ScriptableAudioPipelineNode/Controller/Effector/AMNodeController.cs:83 | the tempo is stored clamped to [1, 480] |
| AmNodeControllers.AmNodeController.SetReleaseMs | MidiSynth/Assets/Scripts/ScriptableAudioPipelineNode/Controller/Effector/AMNodeController.cs:84 | the release is stored lifted to at least 0 |
| AmNodeControllers.AmNodeController.SetPhaseOffset01 | MidiSynth/Assets/Scripts/ScriptableAudioPipelineNode/Controller/Effector/AMNodeController.cs:85 | the phase offset is stored as its fractional part, in [0, 1) |
| FFTAnalyzeNodeControllers.UpdateStep | MidiSynth/Assets/Scripts/ScriptableAudioPipelineNode/Controller/Tool/FFTAnalyzeNodeController.cs:40-69 | nothing is sent exactly when all seven fields equal their last-sent values; otherwise a message carrying every field as it is (`Raw`) is sent and the fields are recorded |
| FFTAnalyzeNodeControllers.Primed | MidiSynth/Assets/Scripts/ScriptableAudioPipelineNode/Controller/Tool/FFTAnalyzeNodeController.cs:29-38 | priming stores the opposite of the active flag |
| FFTAnalyzeNodeControllers.PrimedSends | MidiSynth/Assets/Scripts/ScriptableAudioPipelineNode/Controller/Tool/FFTAnalyzeNodeController.cs:29-69 | after `OnEnable` the first `Update` sends all the fields |
| FFTAnalyzeNodeControllers.UpdateSettles | MidiSynth/Assets/Scripts/ScriptableAudioPipelineNode/Controller/Tool/FFTAnalyzeNodeController.cs:40-69 | right after an `Update`, the next one sends nothing |
| FFTAnalyzeNodeControllers.SentRateIsLifted | MidiSynth/Assets/Scripts/ScriptableAudioPipelineNode/Controller/Tool/FFTAnalyzeNodeController.cs:19 | a send rate from the inspector's range [1, 60] reaches the analyzer lifted to at least 10 |
| FFTAnalyzeNodeControllers.FFTAnalyzeNodeController.constructor | MidiSynth/Assets/Scripts/ScriptableAudioPipelineNode/Controller/Tool/FFTAnalyzeNodeController.cs:10-27 | the inspector defaults: active, 64 bins, 40 to 16000 Hz, window 2048, hop divisor 2, 30 sends per second |
| FFTAnalyzeNodeControllers.FFTAnalyzeNodeController.OnEnable | MidiSynth/Assets/Scripts/ScriptableAudioPipelineNode/Controller/Tool/FFTAnalyzeNodeController.cs:29-38 | the last-sent values become the opposite flag, -1, NaN and a rate of 1; nothing is sent |
| FFTAnalyzeNodeControllers.FFTAnalyzeNodeController.Update | MidiSynth/Assets/Scripts/ScriptableAudioPipelineNode/Controller/Tool/FFTAnalyzeNodeController.cs:40-69 | the new fields and the context's log are those `UpdateStep` gives: a message it returns goes out unchanged as an analyzer message (`Boxed`) to the controller's target, and none is sent otherwise |
| FFTAnalyzeNodeControllers.FFTAnalyzeNodeController.RecordSent | MidiSynth/Assets/Scripts/ScriptableAudioPipelineNode/Controller/Tool/FFTAnalyzeNodeController.cs:53-59 | the seven fields become the last-sent values and nothing else changes |
| Envelope.Step | MidiSynth/Assets/Scripts/ScriptableAudioPipelineNode/Node/WaveformGenerator/WaveformSineNode.cs:103-110 | one oscillator envelope frame keeps the envelope in [0, 1], moves it toward the target (reaching 1 or 0 at the ends) and leaves it alone at the target |
| Envelope.Approach | MidiSynth/Assets/Scripts/ScriptableAudioPipelineNode/Node/WaveformGenerator/NoiseWaveformNode.cs:136-143 | one noise envelope frame moves toward the target and never overshoots it |
| Envelope.WrapIsFrac | MidiSynth/Assets/Scripts/ScriptableAudioPipelineNode/Node/WaveformGenerator/WaveformSineNode.cs:119-120 | the single subtraction keeps the phase in [0, 1) and equals the fractional part while the increment is below one cycle |
| Envelope.OscRunEnvInUnit | MidiSynth/Assets/Scripts/ScriptableAudioPipelineNode/Node/WaveformGenerator/WaveformSineNode.cs:100-121 | over any number of frames the envelope stays in [0, 1] |
| Envelope.OscRunPhaseInUnit | MidiSynth/Assets/Scripts/ScriptableAudioPipelineNode/Node/WaveformGenerator/WaveformSineNode.cs:119-120 | over any number of frames the phase stays in [0, 1) while the increment is below one cycle |
| Envelope.OscRunAttack | MidiSynth/Assets/Scripts/ScriptableAudioPipelineNode/Node/WaveformGenerator/WaveformSineNode.cs:103-106 | with target 1, after k frames the envelope is min(1, env + k/attack) |
| Envelope.OscRunRelease | MidiSynth/Assets/Scripts/ScriptableAudioPipelineNode/Node/WaveformGenerator/WaveformSineNode.cs:107-110 | with target 0, after k frames the envelope is max(0, env - k/release) |
| Envelope.EnvelopeSettles | MidiSynth/Assets/Scripts/ScriptableAudioPipelineNode/Node/WaveformGenerator/WaveformSineNode.cs:103-110 | a full attack reaches 1 within `attackSamples` frames and a full release reaches 0 within `releaseSamples` frames |
| Envelope.AttackSettles | MidiSynth/Assets/Scripts/ScriptableAudioPipelineNode/Node/WaveformGenerator/WaveformSineNode.cs:103-106 | the attack half of `EnvelopeSettles` |
| Envelope.ReleaseSettles | MidiSynth/Assets/Scripts/ScriptableAudioPipelineNode/Node/WaveformGenerator/WaveformSineNode.cs:107-110 | the release half of `EnvelopeSettles` |
| WaveformSineNode.Processor.constructor | MidiSynth/Assets/Scripts/ScriptableAudioPipelineNode/Node/WaveformGenerator/WaveformSineNode.cs:52-74 | frequency as given, phase 0, envelope fully open when active and closed otherwise, target equal to it, one-sample attack and release |
| WaveformSineNode.Processor.Configure | MidiSynth/Assets/Scripts/ScriptableAudioPipelineNode/Node/WaveformGenerator/WaveformSineNode.cs:128-146 | the format's sample rate, and attack and release of 1 ms and 3 ms in samples, at least 1 |
| WaveformSineNode.Processor.Update | MidiSynth/Assets/Scripts/ScriptableAudioPipelineNode/Node/WaveformGenerator/WaveformSineNode.cs:76-86 | the last sine message in the pipe sets frequency and activity; with none, nothing changes |
| WaveformSineNode.Processor.Process | MidiSynth/Assets/Scripts/ScriptableAudioPipelineNode/Node/WaveformGenerator/WaveformSineNode.cs:88-124 | returns the frame count, sets the target from the flag, leaves phase and envelope as `OscRun` says, and fills every channel of frame k with sin(2 pi phase) times the envelope of the state after k-1 frames' step |
| WaveformSineNode.Processor.RenderFrame | MidiSynth/Assets/Scripts/ScriptableAudioPipelineNode/Node/WaveformGenerator/WaveformSineNode.cs:100-121 | one frame: envelope step, the same sample in every channel of that frame only, phase advance |
| WaveformSineNode.SineSampleBounded | MidiSynth/Assets/Scripts/ScriptableAudioPipelineNode/Node/WaveformGenerator/WaveformSineNode.cs:112 | with sine bounded by 1 and the envelope in [0, 1], every sample lies in [-1, 1] |
| WaveformSineNode.ForwardedMessageWins | MidiSynth/Assets/Scripts/ScriptableAudioPipelineNode/Node/WaveformGenerator/WaveformSineNode.cs:156-168 | `OnMessage` handles exactly the sine messages; whatever the pipe held before, the last sine message after forwarding one is that message (so the next `Update` applies it), and forwarding any other message leaves the last one as it was |
| WaveformTriangleNode.Processor.constructor | MidiSynth/Assets/Scripts/ScriptableAudioPipelineNode/Node/WaveformGenerator/WaveformTriangleNode.cs:48-67 | frequency as given, phase 0, envelope open when active and closed otherwise, one-sample attack and release |
| WaveformTriangleNode.Processor.Configure | MidiSynth/Assets/Scripts/ScriptableAudioPipelineNode/Node/WaveformGenerator/WaveformTriangleNode.cs:123-141 | the format's sample rate, and 1 ms / 3 ms in samples, at least 1 |
| WaveformTriangleNode.Processor.Update | MidiSynth/Assets/Scripts/ScriptableAudioPipelineNode/Node/WaveformGenerator/WaveformTriangleNode.cs:69-79 | the last triangle message in the pipe sets frequency and activity; with none, nothing changes |
| WaveformTriangleNode.Processor.Process | MidiSynth/Assets/Scripts/ScriptableAudioPipelineNode/Node/WaveformGenerator/WaveformTriangleNode.cs:81-119 | returns the frame count, leaves phase and envelope as `OscRun` says, and fills every channel of frame k with the triangle of the phase times the envelope |
| WaveformTriangleNode.Processor.RenderFrame | MidiSynth/Assets/Scripts/ScriptableAudioPipelineNode/Node/WaveformGenerator/WaveformTriangleNode.cs:93-116 | one frame: envelope step, the same sample in every channel of that frame only, phase advance |
| WaveformTriangleNode.Tri | MidiSynth/Assets/Scripts/ScriptableAudioPipelineNode/Node/WaveformGenerator/WaveformTriangleNode.cs:104-105 | the naive triangle of the fractional phase lies in [-1, 1] |
| WaveformTriangleNode.TriPeaks | MidiSynth/Assets/Scripts/ScriptableAudioPipelineNode/Node/WaveformGenerator/WaveformTriangleNode.cs:104-105 | the triangle is 1 at phase 0 and -1 at phase 0.5 |
| WaveformTriangleNode.TriangleSampleBounded | MidiSynth/Assets/Scripts/ScriptableAudioPipelineNode/Node/WaveformGenerator/WaveformTriangleNode.cs:104-107 | every sample lies in [-1, 1] while the envelope does |
| WaveformTriangleNode.ForwardedMessageWins | MidiSynth/Assets/Scripts/ScriptableAudioPipelineNode/Node/WaveformGenerator/WaveformTriangleNode.cs:151-163 | `OnMessage` handles exactly the triangle-wave messages; whatever the pipe held before, the last triangle-wave message after forwarding one is that message (so the next `Update` applies it), and forwarding any other message leaves the last one as it was |
| WaveformSquareNode.HoldKeepsLevel | MidiSynth/Assets/Scripts/ScriptableAudioPipelineNode/Node/WaveformGenerator/WaveformSquareNode.cs:107-125 | in the hold branch the envelope stays, the sample is the dry value at the current level, and that dry value is remembered |
| WaveformSquareNode.CrossedIsFlip | MidiSynth/Assets/Scripts/ScriptableAudioPipelineNode/Node/WaveformGenerator/WaveformSquareNode.cs:110 | once the previous value is a full-scale +1 or -1, "crossed" means exactly that the pulse flipped |
| WaveformSquareNode.NoHoldIsOscillator | MidiSynth/Assets/Scripts/ScriptableAudioPipelineNode/Node/WaveformGenerator/WaveformSquareNode.cs:105-150 | without the zero-cross switch, phase and envelope follow the plain oscillator recurrence `OscRun` |
| WaveformSquareNode.SquareRunEnvInUnit | MidiSynth/Assets/Scripts/ScriptableAudioPipelineNode/Node/WaveformGenerator/WaveformSquareNode.cs:105-150 | holding or not, the envelope never leaves [0, 1] |
| WaveformSquareNode.SquareSampleBounded | MidiSynth/Assets/Scripts/ScriptableAudioPipelineNode/Node/WaveformGenerator/WaveformSquareNode.cs:114-139 | every sample lies in [-1, 1] while the envelope does |
| WaveformSquareNode.Processor.constructor | MidiSynth/Assets/Scripts/ScriptableAudioPipelineNode/Node/WaveformGenerator/WaveformSquareNode.cs:58-78 | duty clamped to [0.001, 0.999], phase 0, envelope open exactly when active, previous sample 0, one-sample attack and release |
| WaveformSquareNode.Processor.Configure | MidiSynth/Assets/Scripts/ScriptableAudioPipelineNode/Node/WaveformGenerator/WaveformSquareNode.cs:157-176 | the format's sample rate, and 1 ms / 3 ms in samples, at least 1 |
| WaveformSquareNode.Processor.Update | MidiSynth/Assets/Scripts/ScriptableAudioPipelineNode/Node/WaveformGenerator/WaveformSquareNode.cs:80-91 | the last square-wave message in the pipe sets frequency, duty clamped to [0.001, 0.999], and activity; with none, nothing changes |
| WaveformSquareNode.Processor.Process | MidiSynth/Assets/Scripts/ScriptableAudioPipelineNode/Node/WaveformGenerator/WaveformSquareNode.cs:93-153 | returns the frame count, leaves the state as `SquareRun` says, and fills every channel of each frame with that frame's sample |
| WaveformSquareNode.Processor.RenderFrame | MidiSynth/Assets/Scripts/ScriptableAudioPipelineNode/Node/WaveformGenerator/WaveformSquareNode.cs:105-150 | one frame, including the hold branch that skips the envelope step |
| WaveformSquareNode.Allocate | MidiSynth/Assets/Scripts/ScriptableAudioPipelineNode/Node/WaveformGenerator/WaveformSquareNode.cs:19-28 | the node clamps the inspector duty to [0, 1], the processor then to [0.001, 0.999]; the zero-cross switch is off |
| WaveformSquareNode.ForwardedMessageWins | MidiSynth/Assets/Scripts/ScriptableAudioPipelineNode/Node/WaveformGenerator/WaveformSquareNode.cs:186-198 | `OnMessage` handles exactly the square-wave messages; whatever the pipe held before, the last square-wave message after forwarding one is that message (so the next `Update` applies it), and forwarding any other message leaves the last one as it was |
| NoiseWaveformNode.SeedsZeroAndOneCoincide | MidiSynth/Assets/Scripts/ScriptableAudioPipelineNode/Node/WaveformGenerator/NoiseWaveformNode.cs:175-186 | seeds 0 and 1 give the same generator state |
| NoiseWaveformNode.MakeSeedAsWrittenCanBeZero | MidiSynth/Assets/Scripts/ScriptableAudioPipelineNode/Node/WaveformGenerator/NoiseWaveformNode.cs:175-186 | as written, the seed equal to the mix constant yields state 0, which xorshift never leaves, so white noise is stuck at -1 |
| NoiseWaveformNode.MakeSeed | MidiSynth/Assets/Scripts/ScriptableAudioPipelineNode/Node/WaveformGenerator/NoiseWaveformNode.cs:175-186 | the corrected seed derivation never yields 0 and agrees with the written one wherever that is non-zero |
| NoiseWaveformNode.XorShiftNonZero | MidiSynth/Assets/Scripts/ScriptableAudioPipelineNode/Node/WaveformGenerator/NoiseWaveformNode.cs:191-193 | one xorshift32 step maps 0 to 0 and only 0 to 0 |
| NoiseWaveformNode.UnitOf | MidiSynth/Assets/Scripts/ScriptableAudioPipelineNode/Node/WaveformGenerator/NoiseWaveformNode.cs:196 | the state scaled by 1/uint.MaxValue lies in [0, 1] and is 0 exactly for state 0 |
| NoiseWaveformNode.WhiteOf | MidiSynth/Assets/Scripts/ScriptableAudioPipelineNode/Node/WaveformGenerator/NoiseWaveformNode.cs:196-197 | white noise lies in [-1, 1] and is -1 exactly for state 0 |
| NoiseWaveformNode.IterateZero | MidiSynth/Assets/Scripts/ScriptableAudioPipelineNode/Node/WaveformGenerator/NoiseWaveformNode.cs:191-193 | the zero state stays zero forever |
| NoiseWaveformNode.IterateNonZero | MidiSynth/Assets/Scripts/ScriptableAudioPipelineNode/Node/WaveformGenerator/NoiseWaveformNode.cs:191-193 | a non-zero state stays non-zero forever |
| NoiseWaveformNode.RngNeverStuck | MidiSynth/Assets/Scripts/ScriptableAudioPipelineNode/Node/WaveformGenerator/NoiseWaveformNode.cs:175-193 | from the corrected seed the generator never reaches the stuck zero state |
| NoiseWaveformNode.WhiteStep | MidiSynth/Assets/Scripts/ScriptableAudioPipelineNode/Node/WaveformGenerator/NoiseWaveformNode.cs:188-198 | `NextWhite` yields a value in [-1, 1] and only advances the RNG |
| NoiseWaveformNode.RedStep | MidiSynth/Assets/Scripts/ScriptableAudioPipelineNode/Node/WaveformGenerator/NoiseWaveformNode.cs:219-232 | the red integrator stays in [-1, 1], the output is it times 3.5, and the RNG advances one step |
| NoiseWaveformNode.BrownStaysBounded | MidiSynth/Assets/Scripts/ScriptableAudioPipelineNode/Node/WaveformGenerator/NoiseWaveformNode.cs:157-173 | whatever type is played, the red integrator never leaves [-1, 1] |
| NoiseWaveformNode.VoiceRunEnvInUnit | MidiSynth/Assets/Scripts/ScriptableAudioPipelineNode/Node/WaveformGenerator/NoiseWaveformNode.cs:131-152 | with envelope and target in [0, 1], the envelope stays there over any number of frames |
| NoiseWaveformNode.VoiceRunSettled | MidiSynth/Assets/Scripts/ScriptableAudioPipelineNode/Node/WaveformGenerator/NoiseWaveformNode.cs:136-143 | once the envelope has reached the target it stays there |
| NoiseWaveformNode.DrainStep | MidiSynth/Assets/Scripts/ScriptableAudioPipelineNode/Node/WaveformGenerator/NoiseWaveformNode.cs:100-120 | one more pipe element is applied to what the prefix left, or skipped when it is not a noise message |
| NoiseWaveformNode.DrainLastWins | MidiSynth/Assets/Scripts/ScriptableAudioPipelineNode/Node/WaveformGenerator/NoiseWaveformNode.cs:100-120 | type, gain (clamped to [0, 1]) and activity come from the last noise message in the pipe; with none they are unchanged |
| NoiseWaveformNode.DrainWithoutReseed | MidiSynth/Assets/Scripts/ScriptableAudioPipelineNode/Node/WaveformGenerator/NoiseWaveformNode.cs:113-118 | without a reseed request in the pipe, RNG and filter memory are untouched |
| NoiseWaveformNode.DrainGainInUnit | MidiSynth/Assets/Scripts/ScriptableAudioPipelineNode/Node/WaveformGenerator/NoiseWaveformNode.cs:110 | the gain stays in [0, 1] through any pipe |
| NoiseWaveformNode.Processor.constructor | MidiSynth/Assets/Scripts/ScriptableAudioPipelineNode/Node/WaveformGenerator/NoiseWaveformNode.cs:72-98 | gain clamped to [0, 1], RNG seeded by `MakeSeed`, filters cleared, envelope at the gain when active and 0 otherwise, one-sample attack and release |
| NoiseWaveformNode.Processor.Configure | MidiSynth/Assets/Scripts/ScriptableAudioPipelineNode/Node/WaveformGenerator/NoiseWaveformNode.cs:236-255 | the format's sample rate, and 2 ms / 10 ms in samples, at least 1 |
| NoiseWaveformNode.Processor.Update | MidiSynth/Assets/Scripts/ScriptableAudioPipelineNode/Node/WaveformGenerator/NoiseWaveformNode.cs:100-120 | the processor's parameters and generator state become `Drain` of the old ones over the pipe |
| NoiseWaveformNode.Processor.Reseed | MidiSynth/Assets/Scripts/ScriptableAudioPipelineNode/Node/WaveformGenerator/NoiseWaveformNode.cs:115-117 | a fresh RNG state from the seed and all filter memory cleared |
| NoiseWaveformNode.Processor.NextWhite | MidiSynth/Assets/Scripts/ScriptableAudioPipelineNode/Node/WaveformGenerator/NoiseWaveformNode.cs:188-198 | equals `WhiteStep` on the processor's own state |
| NoiseWaveformNode.Processor.NextPink | MidiSynth/Assets/Scripts/ScriptableAudioPipelineNode/Node/WaveformGenerator/NoiseWaveformNode.cs:200-217 | equals Paul Kellet's filter bank step `PinkStep` on the processor's state |
| NoiseWaveformNode.Processor.NextRed | MidiSynth/Assets/Scripts/ScriptableAudioPipelineNode/Node/WaveformGenerator/NoiseWaveformNode.cs:219-232 | equals `RedStep` on the processor's state |
| NoiseWaveformNode.Processor.GenerateNoiseSample | MidiSynth/Assets/Scripts/ScriptableAudioPipelineNode/Node/WaveformGenerator/NoiseWaveformNode.cs:157-173 | dispatches on the type; an unknown type yields silence and leaves the RNG alone |
| NoiseWaveformNode.Processor.Process | MidiSynth/Assets/Scripts/ScriptableAudioPipelineNode/Node/WaveformGenerator/NoiseWaveformNode.cs:122-155 | returns the frame count, sets the target to the gain when active and 0 otherwise, leaves generator and envelope as `VoiceRun` says, and fills every channel of each frame with that frame's sample |
| NoiseWaveformNode.Processor.StepEnvelope | MidiSynth/Assets/Scripts/ScriptableAudioPipelineNode/Node/WaveformGenerator/NoiseWaveformNode.cs:136-143 | the envelope moves toward the target by at most one attack or release step, clamped to it |
| NoiseWaveformNode.Processor.RenderFrame | MidiSynth/Assets/Scripts/ScriptableAudioPipelineNode/Node/WaveformGenerator/NoiseWaveformNode.cs:133-152 | one frame: envelope step, one noise sample into every channel of that frame only |
| NoiseWaveformNode.ForwardedMessageApplied | MidiSynth/Assets/Scripts/ScriptableAudioPipelineNode/Node/WaveformGenerator/NoiseWaveformNode.cs:265-277 | `OnMessage` handles exactly the noise messages; draining the pipe followed by what it forwards gives the knobs of draining the pipe and then applying that noise message, and the same knobs as the pipe alone for any other message |
| BiquadFilterNode.Cleared | MidiSynth/Assets/Scripts/ScriptableAudioPipelineNode/Node/Effector/BiquadFilterNode.cs:421-424 | after `ClearAll` every `Get` reads 0, at any index in or out of range |
| BiquadFilterNode.Get | MidiSynth/Assets/Scripts/ScriptableAudioPipelineNode/Node/Effector/BiquadFilterNode.cs:390-404 | an index outside 0..7 reads 0 |
| BiquadFilterNode.Set | MidiSynth/Assets/Scripts/ScriptableAudioPipelineNode/Node/Effector/BiquadFilterNode.cs:406-419 | only the slot at the index changes; an index outside 0..7 changes nothing |
| BiquadFilterNode.CookbookSections | MidiSynth/Assets/Scripts/ScriptableAudioPipelineNode/Node/Effector/BiquadFilterNode.cs:263-313 | an unknown mode has no design; low-pass, notch and peak numerators sum to the denominator sum (unit DC gain), high-pass and band-pass numerators sum to 0; every mode shares `a1 = -2 cos`, and all but peak share `a0 = 1 + alpha`, `a2 = 1 - alpha` |
| BiquadFilterNode.NormalizeKeepsDcGain | MidiSynth/Assets/Scripts/ScriptableAudioPipelineNode/Node/Effector/BiquadFilterNode.cs:315-322 | dividing by `a0` keeps a unit or zero DC gain |
| BiquadFilterNode.DesignedDcGain | MidiSynth/Assets/Scripts/ScriptableAudioPipelineNode/Node/Effector/BiquadFilterNode.cs:249-323 | a designed and normalised section has unit DC gain for low-pass, notch and peak and zero DC gain for high-pass and band-pass |
| BiquadFilterNode.OmegaBelowNyquist | MidiSynth/Assets/Scripts/ScriptableAudioPipelineNode/Node/Effector/BiquadFilterNode.cs:251-255 | at any rate of at least 3 Hz the clamped cutoff's angular frequency lies in (0, 0.98 pi] |
| BiquadFilterNode.UnitGainPassesDc | MidiSynth/Assets/Scripts/ScriptableAudioPipelineNode/Node/Effector/BiquadFilterNode.cs:219-222 | with unit DC gain, a constant input at its steady state passes unchanged and keeps the state |
| BiquadFilterNode.ZeroGainBlocksDc | MidiSynth/Assets/Scripts/ScriptableAudioPipelineNode/Node/Effector/BiquadFilterNode.cs:219-222 | with zero DC gain, a constant input at its steady state yields 0 and keeps the state |
| BiquadFilterNode.Z1After | MidiSynth/Assets/Scripts/ScriptableAudioPipelineNode/Node/Effector/BiquadFilterNode.cs:205-228 | the first state row stays eight slots wide through a frame |
| BiquadFilterNode.Z2After | MidiSynth/Assets/Scripts/ScriptableAudioPipelineNode/Node/Effector/BiquadFilterNode.cs:205-228 | the second state row stays eight slots wide through a frame |
| BiquadFilterNode.AfterOneMore | MidiSynth/Assets/Scripts/ScriptableAudioPipelineNode/Node/Effector/BiquadFilterNode.cs:205-228 | one more channel below eight updates only its own two slots; a channel from eight on updates none |
| BiquadFilterNode.FrameState | MidiSynth/Assets/Scripts/ScriptableAudioPipelineNode/Node/Effector/BiquadFilterNode.cs:193-229 | a frame keeps both state rows eight slots wide |
| BiquadFilterNode.FRun | MidiSynth/Assets/Scripts/ScriptableAudioPipelineNode/Node/Effector/BiquadFilterNode.cs:193-229 | the frames keep both state rows eight slots wide |
| BiquadFilterNode.ClosedStaysDry | MidiSynth/Assets/Scripts/ScriptableAudioPipelineNode/Node/Effector/BiquadFilterNode.cs:196-227 | an inactive filter whose envelope has closed stays closed and every output equals the dry input |
| BiquadFilterNode.HighChannelsPassThrough | MidiSynth/Assets/Scripts/ScriptableAudioPipelineNode/Node/Effector/BiquadFilterNode.cs:210-214 | channels from the ninth on are never filtered |
| BiquadFilterNode.Processor.constructor | MidiSynth/Assets/Scripts/ScriptableAudioPipelineNode/Node/Effector/BiquadFilterNode.cs:89-136 | upstream and parameters as given, zero coefficients, cleared state, envelope open exactly when active, channel count 0, one-sample attack and release |
| BiquadFilterNode.Processor.ComputeCoefficients | MidiSynth/Assets/Scripts/ScriptableAudioPipelineNode/Node/Effector/BiquadFilterNode.cs:249-323 | the coefficients become the cookbook design for the current parameters; an unknown mode keeps the old ones |
| BiquadFilterNode.Processor.Configure | MidiSynth/Assets/Scripts/ScriptableAudioPipelineNode/Node/Effector/BiquadFilterNode.cs:327-348 | the format's sample rate, 2 ms / 10 ms in samples (at least 1), then a fresh design at that rate |
| BiquadFilterNode.Processor.Dispose | MidiSynth/Assets/Scripts/ScriptableAudioPipelineNode/Node/Effector/BiquadFilterNode.cs:350-357 | the nested upstream instance, if any, is destroyed and nothing else |
| BiquadFilterNode.Processor.Update | MidiSynth/Assets/Scripts/ScriptableAudioPipelineNode/Node/Effector/BiquadFilterNode.cs:138-162 | the last filter message in the pipe sets the parameters; the coefficients are redesigned only when some filter message arrived |
| BiquadFilterNode.Processor.DrainSettings | MidiSynth/Assets/Scripts/ScriptableAudioPipelineNode/Node/Effector/BiquadFilterNode.cs:140-156 | the dirty flag is set exactly when a filter message arrived, and the parameters are the last one's |
| BiquadFilterNode.Processor.EnsureState | MidiSynth/Assets/Scripts/ScriptableAudioPipelineNode/Node/Effector/BiquadFilterNode.cs:234-247 | the channel count becomes min(channels, 8), and both state rows are cleared exactly when that count changed |
| BiquadFilterNode.Processor.Process | MidiSynth/Assets/Scripts/ScriptableAudioPipelineNode/Node/Effector/BiquadFilterNode.cs:164-232 | the upstream's output, or silence without an upstream, is filtered in place: every sample equals the dry input mixed toward the DF2T output by the envelope, as `FRun` says, and the state ends as `FRun` says |
| BiquadFilterNode.Processor.FilterBlock | MidiSynth/Assets/Scripts/ScriptableAudioPipelineNode/Node/Effector/BiquadFilterNode.cs:193-229 | the frame loop turns the block's input into the filtered output frame by frame |
| BiquadFilterNode.Processor.RenderFrame | MidiSynth/Assets/Scripts/ScriptableAudioPipelineNode/Node/Effector/BiquadFilterNode.cs:195-228 | one frame: envelope step, then each channel of that frame only through its section |
| BiquadFilterNode.Processor.FilterSample | MidiSynth/Assets/Scripts/ScriptableAudioPipelineNode/Node/Effector/BiquadFilterNode.cs:216-225 | one DF2T step on one channel below eight, updating only that channel's two slots |
| BiquadFilterNode.ForwardedMessageWins | MidiSynth/Assets/Scripts/ScriptableAudioPipelineNode/Node/Effector/BiquadFilterNode.cs:363-375 | `OnMessage` handles exactly the filter messages; whatever the pipe held before, the last filter message after forwarding one is that message (so the next `Update` applies it), and forwarding any other message leaves the last one as it was |
| AmplitudeModulationNode.Normalized | MidiSynth/Assets/Scripts/ScriptableAudioPipelineNode/Node/Effector/AMEffector.cs:118-122 | depth in [0, 1], bpm in [1, 480], release at least 0 and phase offset in [0, 1); values already in range are kept |
| AmplitudeModulationNode.NormalizedIdempotent | MidiSynth/Assets/Scripts/ScriptableAudioPipelineNode/Node/Effector/AMEffector.cs:139-143 | normalising twice is normalising once |
| AmplitudeModulationNode.SmoothMs | MidiSynth/Assets/Scripts/ScriptableAudioPipelineNode/Node/Effector/AMEffector.cs:182 | the smoothing time is 10 ms while active and the release time, but never less than 10 ms, while inactive |
| AmplitudeModulationNode.TargetGain | MidiSynth/Assets/Scripts/ScriptableAudioPipelineNode/Node/Effector/AMEffector.cs:196-197 | the target gain lies in [1 - depth, 1]; at depth 0 it is exactly 1 |
| AmplitudeModulationNode.BlockDriveBounds | MidiSynth/Assets/Scripts/ScriptableAudioPipelineNode/Node/Effector/AMEffector.cs:182-187 | the smoothing coefficient lies in [0, 1); an inactive modulator drives depth 0 (`EffectiveDepth`), so its target gain is exactly 1 for every LFO value, and an active one drives its own depth |
| AmplitudeModulationNode.FlatGainStaysUnit | MidiSynth/Assets/Scripts/ScriptableAudioPipelineNode/Node/Effector/AMEffector.cs:191-211 | at depth 0 a unit gain stays unit through any number of frames |
| AmplitudeModulationNode.GainStaysInBand | MidiSynth/Assets/Scripts/ScriptableAudioPipelineNode/Node/Effector/AMEffector.cs:191-211 | a gain inside [1 - depth, 1] stays inside through any number of frames |
| AmplitudeModulationNode.PhaseStaysInUnit | MidiSynth/Assets/Scripts/ScriptableAudioPipelineNode/Node/Effector/AMEffector.cs:206-210 | with an increment below 1 the phase stays in [0, 1) |
| AmplitudeModulationNode.Processor.constructor | MidiSynth/Assets/Scripts/ScriptableAudioPipelineNode/Node/Effector/AMEffector.cs:106-128 | upstream as given, normalised parameters, phase 0, gain 1, no sample rate yet |
| AmplitudeModulationNode.Processor.Update | MidiSynth/Assets/Scripts/ScriptableAudioPipelineNode/Node/Effector/AMEffector.cs:130-145 | the last AM message in the pipe, normalised, becomes the parameters; without one they stay |
| AmplitudeModulationNode.Processor.Take | MidiSynth/Assets/Scripts/ScriptableAudioPipelineNode/Node/Effector/AMEffector.cs:139-143 | one message's parameters, normalised, replace the current ones |
| AmplitudeModulationNode.Processor.Process | MidiSynth/Assets/Scripts/ScriptableAudioPipelineNode/Node/Effector/AMEffector.cs:147-214 | the upstream's output, or silence without an upstream, is scaled frame by frame by the smoothed gain of `AmRun`; without a sample rate the block is left as rendered and the state stays |
| AmplitudeModulationNode.Processor.ModulateBlock | MidiSynth/Assets/Scripts/ScriptableAudioPipelineNode/Node/Effector/AMEffector.cs:191-211 | every sample of frame f is scaled by the gain after f + 1 steps and the state ends after all frames |
| AmplitudeModulationNode.Processor.RenderFrame | MidiSynth/Assets/Scripts/ScriptableAudioPipelineNode/Node/Effector/AMEffector.cs:193-210 | one frame: one smoothing and phase step, and only that frame's samples scaled |
| AmplitudeModulationNode.Processor.Configure | MidiSynth/Assets/Scripts/ScriptableAudioPipelineNode/Node/Effector/AMEffector.cs:218-227 | the format's sample rate is kept |
| AmplitudeModulationNode.Processor.Dispose | MidiSynth/Assets/Scripts/ScriptableAudioPipelineNode/Node/Effector/AMEffector.cs:229-236 | the nested upstream instance, if any, is destroyed and nothing else |
| AmplitudeModulationNode.ForwardedMessageWins | MidiSynth/Assets/Scripts/ScriptableAudioPipelineNode/Node/Effector/AMEffector.cs:242-254 | `OnMessage` handles exactly the AM messages; whatever the pipe held before, the last AM message after forwarding one is that message (so the next `Update` applies it), and forwarding any other message leaves the last one as it was |
| FFTAnalyzeNode.Pow2Below | MidiSynth/Assets/Scripts/ScriptableAudioPipelineNode/Node/Tool/FFTAnalyzeNode.cs:405-414 | the result is at least 1 and, for a positive input, not above it |
| FFTAnalyzeNode.Pow2BelowIsFloor | MidiSynth/Assets/Scripts/ScriptableAudioPipelineNode/Node/Tool/FFTAnalyzeNode.cs:405-414 | the result is a power of two p with p <= v < 2p |
| FFTAnalyzeNode.Pow2BelowUnique | MidiSynth/Assets/Scripts/ScriptableAudioPipelineNode/Node/Tool/FFTAnalyzeNode.cs:405-414 | any power of two p with p <= v < 2p is the result, so it is the largest power of two not above v |
| FFTAnalyzeNode.ToPow2 | MidiSynth/Assets/Scripts/ScriptableAudioPipelineNode/Node/Tool/FFTAnalyzeNode.cs:405-414 | the doubling loop returns the largest power of two not above its input (1 below 2) |
| FFTAnalyzeNode.Normalized | MidiSynth/Assets/Scripts/ScriptableAudioPipelineNode/Node/Tool/FFTAnalyzeNode.cs:233-240 | bins in [16, 128], `minHz` at least 1, `maxHz` at least `minHz + 1`, hop divisor in [1, 8], send rate in [10, 120]; values already in range are kept |
| FFTAnalyzeNode.NormalizedInRange | MidiSynth/Assets/Scripts/ScriptableAudioPipelineNode/Node/Tool/FFTAnalyzeNode.cs:233-240 | every stored setting is in range, the window a power of two in [128, 4096], whatever the message held |
| FFTAnalyzeNode.NormalizedKeepsWindow | MidiSynth/Assets/Scripts/ScriptableAudioPipelineNode/Node/Tool/FFTAnalyzeNode.cs:237 | a window that already is a power of two in [128, 4096] is kept |
| FFTAnalyzeNode.Pow2BelowMonotone | MidiSynth/Assets/Scripts/ScriptableAudioPipelineNode/Node/Tool/FFTAnalyzeNode.cs:405-414 | rounding down to a power of two preserves order |
| FFTAnalyzeNode.HopSize | MidiSynth/Assets/Scripts/ScriptableAudioPipelineNode/Node/Tool/FFTAnalyzeNode.cs:334 | the hop is at least 1 sample and at most the window |
| FFTAnalyzeNode.SendInterval | MidiSynth/Assets/Scripts/ScriptableAudioPipelineNode/Node/Tool/FFTAnalyzeNode.cs:343 | the send interval lies in (0, 1] s and is the reciprocal of the send rate from 1 Hz on |
| FFTAnalyzeNode.MonoOfEqualChannels | MidiSynth/Assets/Scripts/ScriptableAudioPipelineNode/Node/Tool/FFTAnalyzeNode.cs:311-322 | a frame whose channels all hold x mixes down to x |
| FFTAnalyzeNode.RingWrite | MidiSynth/Assets/Scripts/ScriptableAudioPipelineNode/Node/Tool/FFTAnalyzeNode.cs:324-329 | one write keeps the ring's size and the cursor inside it |
| FFTAnalyzeNode.RingRun | MidiSynth/Assets/Scripts/ScriptableAudioPipelineNode/Node/Tool/FFTAnalyzeNode.cs:314-330 | any number of writes keep the ring's size and the cursor inside it |
| FFTAnalyzeNode.RingRunCursor | MidiSynth/Assets/Scripts/ScriptableAudioPipelineNode/Node/Tool/FFTAnalyzeNode.cs:314-330 | the cursor advances by the number of samples written, modulo the window |
| FFTAnalyzeNode.RingRunHoldsLatest | MidiSynth/Assets/Scripts/ScriptableAudioPipelineNode/Node/Tool/FFTAnalyzeNode.cs:314-330 | each of the last window-many samples written sits at the slot the cursor pointed to when it was written |
| FFTAnalyzeNode.DistinctSlots | MidiSynth/Assets/Scripts/ScriptableAudioPipelineNode/Node/Tool/FFTAnalyzeNode.cs:324-329 | two writes less than a window apart land on different slots |
| FFTAnalyzeNode.ReadOrder | MidiSynth/Assets/Scripts/ScriptableAudioPipelineNode/Node/Tool/FFTAnalyzeNode.cs:384-393 | the bank reads as many samples as the ring holds |
| FFTAnalyzeNode.ReadOrderIndex | MidiSynth/Assets/Scripts/ScriptableAudioPipelineNode/Node/Tool/FFTAnalyzeNode.cs:384-393 | step i reads slot (cursor + i) mod window, so the oldest sample first |
| FFTAnalyzeNode.ReadOrderVisitsAll | MidiSynth/Assets/Scripts/ScriptableAudioPipelineNode/Node/Tool/FFTAnalyzeNode.cs:384-393 | the read visits every slot exactly once |
| FFTAnalyzeNode.SilenceStaysAtRest | MidiSynth/Assets/Scripts/ScriptableAudioPipelineNode/Node/Tool/FFTAnalyzeNode.cs:380-398 | a silent window leaves the Goertzel filter at rest at any frequency |
| FFTAnalyzeNode.BankSpansRange | MidiSynth/Assets/Scripts/ScriptableAudioPipelineNode/Node/Tool/FFTAnalyzeNode.cs:367-374 | the first bin sits at `minHz` and, with two or more bins, the last at `maxHz` |
| FFTAnalyzeNode.SilentRingHasNoPower | MidiSynth/Assets/Scripts/ScriptableAudioPipelineNode/Node/Tool/FFTAnalyzeNode.cs:360-403 | a silent ring gives a spectrum of zeros |
| FFTAnalyzeNode.CollectAsWrittenFits | MidiSynth/Assets/Scripts/ScriptableAudioPipelineNode/Node/Tool/FFTAnalyzeNode.cs:371-402 | adding the bank's powers one by one to the fixed list (`AddAsWritten`, which appends only while fewer than 127 floats are held) succeeds for up to 127 bins and fails for more |
| FFTAnalyzeNode.BinCountOverflowsList | MidiSynth/Assets/Scripts/ScriptableAudioPipelineNode/Node/Tool/FFTAnalyzeNode.cs:352-401 | a message asking for 128 bins or more is clamped to 128, and collecting 128 powers in the fixed list fails |
| FFTAnalyzeNode.Published | MidiSynth/Assets/Scripts/ScriptableAudioPipelineNode/Node/Tool/FFTAnalyzeNode.cs:130-154 | only the frame's id changes; its entry gets the frame's time and exactly `binCount` bins: the frame's first min(binCount, bins) values, followed by zeros when the old entry was missing or of another length and by the old entry's remaining values otherwise |
| FFTAnalyzeNode.SpectrumBus.constructor | MidiSynth/Assets/Scripts/ScriptableAudioPipelineNode/Node/Tool/FFTAnalyzeNode.cs:111 | the bus starts empty |
| FFTAnalyzeNode.SpectrumBus.Publish | MidiSynth/Assets/Scripts/ScriptableAudioPipelineNode/Node/Tool/FFTAnalyzeNode.cs:130-154 | the map becomes `Published` of the old map and the frame, so `TryGetLatest` then finds the id, with the frame's time and `binCount` bins, which are the frame's own when it carries that many |
| FFTAnalyzeNode.CopyPrefix | MidiSynth/Assets/Scripts/ScriptableAudioPipelineNode/Node/Tool/FFTAnalyzeNode.cs:145-149 | the first n values are the source's and the rest are unchanged |
| FFTAnalyzeNode.PublishedIsLatest | MidiSynth/Assets/Scripts/ScriptableAudioPipelineNode/Node/Tool/FFTAnalyzeNode.cs:130-154 | after a publish the reader sees exactly that frame's time and bins |
| FFTAnalyzeNode.PublishAllKeepsOthers | MidiSynth/Assets/Scripts/ScriptableAudioPipelineNode/Node/Tool/FFTAnalyzeNode.cs:448-457 | an id that no frame in the pipe names keeps its entry, or its absence |
| FFTAnalyzeNode.ControlUpdate | MidiSynth/Assets/Scripts/ScriptableAudioPipelineNode/Node/Tool/FFTAnalyzeNode.cs:448-457 | every spectrum frame in the pipe is published, in order |
| FFTAnalyzeNode.Processor.constructor | MidiSynth/Assets/Scripts/ScriptableAudioPipelineNode/Node/Tool/FFTAnalyzeNode.cs:218-251 | normalised settings, no ring yet, cursor and hop counter 0, never sent |
| FFTAnalyzeNode.Processor.Update | MidiSynth/Assets/Scripts/ScriptableAudioPipelineNode/Node/Tool/FFTAnalyzeNode.cs:254-274 | the last analyzer message in the pipe, normalised, becomes the settings; without one they stay |
| FFTAnalyzeNode.Processor.Apply | MidiSynth/Assets/Scripts/ScriptableAudioPipelineNode/Node/Tool/FFTAnalyzeNode.cs:263-272 | one message overwrites every setting, normalised |
| FFTAnalyzeNode.Processor.Process | MidiSynth/Assets/Scripts/ScriptableAudioPipelineNode/Node/Tool/FFTAnalyzeNode.cs:276-358 | the block passes through unchanged (silence without an upstream); when active with a ring of the current size, the mono mix is written to the ring, the hop and throttle rule holds, and any frame sent carries the spectrum of the new ring; otherwise nothing changes and nothing is sent |
| FFTAnalyzeNode.Processor.Analyze | MidiSynth/Assets/Scripts/ScriptableAudioPipelineNode/Node/Tool/FFTAnalyzeNode.cs:333-355 | the hop counter gains the block and loses one hop once a hop is complete; a spectrum is sent exactly when a hop is complete and the send interval has passed, and then the send time is recorded |
| FFTAnalyzeNode.Processor.MixToRing | MidiSynth/Assets/Scripts/ScriptableAudioPipelineNode/Node/Tool/FFTAnalyzeNode.cs:311-330 | the ring becomes `RingRun` of the block's mono mixes, one per frame, in frame order (`MonoColumns`) |
| FFTAnalyzeNode.Processor.ChannelSum | MidiSynth/Assets/Scripts/ScriptableAudioPipelineNode/Node/Tool/FFTAnalyzeNode.cs:316-320 | the channel loop returns the sum of the frame's channels |
| FFTAnalyzeNode.Processor.Write | MidiSynth/Assets/Scripts/ScriptableAudioPipelineNode/Node/Tool/FFTAnalyzeNode.cs:324-329 | one ring write at the cursor, which wraps at the end |
| FFTAnalyzeNode.Processor.ComputeSpectrumGoertzel | MidiSynth/Assets/Scripts/ScriptableAudioPipelineNode/Node/Tool/FFTAnalyzeNode.cs:360-403 | the bank returns `Spectrum` of the current ring and settings: one power per bin, the Goertzel power of the whole ring read oldest first at that bin's centre |
| FFTAnalyzeNode.SpectrumNonNegative | MidiSynth/Assets/Scripts/ScriptableAudioPipelineNode/Node/Tool/FFTAnalyzeNode.cs:371-398 | for a `cos` within [-1, 1] every power of the spectrum is non-negative, so the histogram may take its logarithm |
| FFTAnalyzeNode.PowerNonNegative | MidiSynth/Assets/Scripts/ScriptableAudioPipelineNode/Node/Tool/FFTAnalyzeNode.cs:388-394 | the power `q1^2 + q2^2 - coeff q1 q2` is non-negative whenever the coefficient `2 cos w` lies in [-2, 2] |
| FFTAnalyzeNode.Processor.Goertzel | MidiSynth/Assets/Scripts/ScriptableAudioPipelineNode/Node/Tool/FFTAnalyzeNode.cs:380-400 | the inner loop returns the Goertzel power of the ring read from the cursor |
| FFTAnalyzeNode.Processor.Configure | MidiSynth/Assets/Scripts/ScriptableAudioPipelineNode/Node/Tool/FFTAnalyzeNode.cs:418-437 | the format's sample rate, a fresh zeroed ring of the window size, cursor and hop counter 0, never sent |
| FFTAnalyzeNode.Processor.Dispose | MidiSynth/Assets/Scripts/ScriptableAudioPipelineNode/Node/Tool/FFTAnalyzeNode.cs:439-445 | the ring is freed; the upstream is not destroyed |
| FFTAnalyzeNode.ForwardedMessageWins | MidiSynth/Assets/Scripts/ScriptableAudioPipelineNode/Node/Tool/FFTAnalyzeNode.cs:460-472 | `OnMessage` handles exactly the analyzer messages; whatever the pipe held before, the last analyzer message after forwarding one is that message (so the next `Update` applies it), and forwarding any other message leaves the last one as it was |
| BaseNodeControllerEditor.EvaluateCompatibility | MidiSynth/Assets/Scripts/ScriptableAudioPipelineNode/Controller/Editor/BaseNodeControllerEditor.cs:280-304 | no required types means compatible; a missing node or a node without supported types means unknown; otherwise compatible exactly when every required type is non-null and supported, else incompatible |
| BaseNodeControllerEditor.CompatibleMonotone | MidiSynth/Assets/Scripts/ScriptableAudioPipelineNode/Controller/Editor/BaseNodeControllerEditor.cs:280-304 | a node supporting at least the types of a compatible node is compatible too |
| BaseNodeControllerEditor.ApplyFilter | MidiSynth/Assets/Scripts/ScriptableAudioPipelineNode/Controller/Editor/BaseNodeControllerEditor.cs:210-220 | without the filter the list is kept; with it, an entry stays exactly when it is not incompatible or has no guid |
| BaseNodeControllerEditor.FilterConcat | MidiSynth/Assets/Scripts/ScriptableAudioPipelineNode/Controller/Editor/BaseNodeControllerEditor.cs:217-219 | the filter keeps the order: filtering a concatenation concatenates the filtered parts |
| BaseNodeControllerEditor.Views | MidiSynth/Assets/Scripts/ScriptableAudioPipelineNode/Controller/Editor/BaseNodeControllerEditor.cs:168-186 | there are at most as many entries as raw slots |
| BaseNodeControllerEditor.ViewsSound | MidiSynth/Assets/Scripts/ScriptableAudioPipelineNode/Controller/Editor/BaseNodeControllerEditor.cs:168-186 | every entry is the view of a raw slot with a guid, its index being its position among those slots |
| BaseNodeControllerEditor.ViewsComplete | MidiSynth/Assets/Scripts/ScriptableAudioPipelineNode/Controller/Editor/BaseNodeControllerEditor.cs:168-186 | every raw slot with a guid has an entry |
| BaseNodeControllerEditor.FirstPerGuid | MidiSynth/Assets/Scripts/ScriptableAudioPipelineNode/Controller/Editor/BaseNodeControllerEditor.cs:189-190 | grouping by guid never lengthens the list |
| BaseNodeControllerEditor.FirstPerGuidSpec | MidiSynth/Assets/Scripts/ScriptableAudioPipelineNode/Controller/Editor/BaseNodeControllerEditor.cs:189-190 | the grouped list has distinct guids, holds only entries that are the first with their guid, and holds every such entry |
| BaseNodeControllerEditor.LabelLeqTotal | MidiSynth/Assets/Scripts/ScriptableAudioPipelineNode/Controller/Editor/BaseNodeControllerEditor.cs:191 | the case-insensitive label order is total |
| BaseNodeControllerEditor.LabelLeqTransitive | MidiSynth/Assets/Scripts/ScriptableAudioPipelineNode/Controller/Editor/BaseNodeControllerEditor.cs:191 | the case-insensitive label order is transitive |
| BaseNodeControllerEditor.Insert | MidiSynth/Assets/Scripts/ScriptableAudioPipelineNode/Controller/Editor/BaseNodeControllerEditor.cs:191 | inserting adds one entry |
| BaseNodeControllerEditor.SortByLabel | MidiSynth/Assets/Scripts/ScriptableAudioPipelineNode/Controller/Editor/BaseNodeControllerEditor.cs:191 | sorting keeps the length |
| BaseNodeControllerEditor.InsertSpec | MidiSynth/Assets/Scripts/ScriptableAudioPipelineNode/Controller/Editor/BaseNodeControllerEditor.cs:191 | inserting into a sorted list keeps it sorted, adds exactly the entry, and keeps guids distinct when the entry's is new |
| BaseNodeControllerEditor.InsertMultiset | MidiSynth/Assets/Scripts/ScriptableAudioPipelineNode/Controller/Editor/BaseNodeControllerEditor.cs:191 | inserting adds exactly the entry |
| BaseNodeControllerEditor.InsertSorted | MidiSynth/Assets/Scripts/ScriptableAudioPipelineNode/Controller/Editor/BaseNodeControllerEditor.cs:191 | inserting into a sorted list keeps it sorted |
| BaseNodeControllerEditor.InsertDistinct | MidiSynth/Assets/Scripts/ScriptableAudioPipelineNode/Controller/Editor/BaseNodeControllerEditor.cs:191 | inserting an entry with a new guid keeps guids distinct |
| BaseNodeControllerEditor.SortSpec | MidiSynth/Assets/Scripts/ScriptableAudioPipelineNode/Controller/Editor/BaseNodeControllerEditor.cs:191 | the sorted list is ordered by label, is a permutation of its input, and keeps guids distinct |
| BaseNodeControllerEditor.RebuiltSlotsShape | MidiSynth/Assets/Scripts/ScriptableAudioPipelineNode/Controller/Editor/BaseNodeControllerEditor.cs:163-192 | the rebuilt list holds the "(none)" entry, one entry per guid, sorted by label |
| BaseNodeControllerEditor.RebuiltKeepsFirst | MidiSynth/Assets/Scripts/ScriptableAudioPipelineNode/Controller/Editor/BaseNodeControllerEditor.cs:188-190 | each rebuilt entry is the first collected entry with its guid |
| BaseNodeControllerEditor.RebuiltCoversSlots | MidiSynth/Assets/Scripts/ScriptableAudioPipelineNode/Controller/Editor/BaseNodeControllerEditor.cs:168-192 | every raw slot with a guid is listed |
| BaseNodeControllerEditor.AssembledEntryListed | MidiSynth/Assets/Scripts/ScriptableAudioPipelineNode/Controller/Editor/BaseNodeControllerEditor.cs:163-192 | the guid of every collected entry is listed |
| BaseNodeControllerEditor.RebuiltOnlySlots | MidiSynth/Assets/Scripts/ScriptableAudioPipelineNode/Controller/Editor/BaseNodeControllerEditor.cs:168-192 | apart from "(none)", every entry carries a raw slot's guid, its node and that node's compatibility |
| BaseNodeControllerEditor.FirstIndex | MidiSynth/Assets/Scripts/ScriptableAudioPipelineNode/Controller/Editor/BaseNodeControllerEditor.cs:189-190 | the first entry with a given entry's guid comes at or before it |
| BaseNodeControllerEditor.RebuiltNeverFiltersEmpty | MidiSynth/Assets/Scripts/ScriptableAudioPipelineNode/Controller/Editor/BaseNodeControllerEditor.cs:210-220 | the "(none)" entry survives the filter, so a rebuilt list never filters to empty |
| BaseNodeControllerEditor.Guids | MidiSynth/Assets/Scripts/ScriptableAudioPipelineNode/Controller/Editor/BaseNodeControllerEditor.cs:121 | one guid per entry, in order |
| BaseNodeControllerEditor.IndexOf | MidiSynth/Assets/Scripts/ScriptableAudioPipelineNode/Controller/Editor/BaseNodeControllerEditor.cs:123 | the first position of the guid, or -1 exactly when it is absent |
| BaseNodeControllerEditor.ControllerEditor.constructor | MidiSynth/Assets/Scripts/ScriptableAudioPipelineNode/Controller/Editor/BaseNodeControllerEditor.cs:18-21 | no slots, index 0, the filter on |
| BaseNodeControllerEditor.ControllerEditor.Rebuild | MidiSynth/Assets/Scripts/ScriptableAudioPipelineNode/Controller/Editor/BaseNodeControllerEditor.cs:156-193 | the slots become the rebuilt list, which holds "(none)", has distinct guids and is sorted by label |
| BaseNodeControllerEditor.ControllerEditor.DrawDropdown | MidiSynth/Assets/Scripts/ScriptableAudioPipelineNode/Controller/Editor/BaseNodeControllerEditor.cs:109-154 | an empty filtered list shows the info notice and changes nothing; otherwise the stored guid's entry (else the first) is selected, a change to a valid entry stores its guid, and the notice is that of the clamped selection (`NoticeFor`): a warning exactly when that entry is a real slot whose node is unknown or incompatible, and never the info notice |
| BaseNodeControllerEditor.SelectionFollowsGuid | MidiSynth/Assets/Scripts/ScriptableAudioPipelineNode/Controller/Editor/BaseNodeControllerEditor.cs:123-127 | when the stored guid is listed, the entry an unchanged draw selects carries that guid |
| FrequencyControlDrawer.FloatProperty.constructor | MidiSynth/Assets/Scripts/ScriptableAudioPipelineNode/Controller/Editor/FrequencyControlDrawer.cs:22 | the property holds the given value |
| FrequencyControlDrawer.TruncDiv | MidiSynth/Assets/Scripts/ScriptableAudioPipelineNode/Controller/Editor/FrequencyControlDrawer.cs:151 | C# integer division: the remainder `a - q b` is smaller than `b` in size and has the sign of `a` or is 0, which fixes the quotient as truncation toward zero |
| FrequencyControlDrawer.NoteNameAsWritten | MidiSynth/Assets/Scripts/ScriptableAudioPipelineNode/Controller/Editor/FrequencyControlDrawer.cs:148-153 | the label as written is a note name followed by at least one character of octave |
| FrequencyControlDrawer.NoteParts | MidiSynth/Assets/Scripts/ScriptableAudioPipelineNode/Controller/Editor/FrequencyControlDrawer.cs:148-153 | pitch class in [0, 12) and octave with note = (octave + 1) * 12 + pitch class, so note 60 is C4 |
| FrequencyControlDrawer.MidiToNoteName | MidiSynth/Assets/Scripts/ScriptableAudioPipelineNode/Controller/Editor/FrequencyControlDrawer.cs:148-153 | the label is a note name followed by the octave number |
| FrequencyControlDrawer.NoteNameAgreesOnNonNegative | MidiSynth/Assets/Scripts/ScriptableAudioPipelineNode/Controller/Editor/FrequencyControlDrawer.cs:148-153 | for notes from 0 up the label as written equals the floored label |
| FrequencyControlDrawer.NoteNameExamples | MidiSynth/Assets/Scripts/ScriptableAudioPipelineNode/Controller/Editor/FrequencyControlDrawer.cs:148-153 | 60 is "C4", 69 is "A4", 0 is "C-1" |
| FrequencyControlDrawer.OctaveUp | MidiSynth/Assets/Scripts/ScriptableAudioPipelineNode/Controller/Editor/FrequencyControlDrawer.cs:148-153 | twelve semitones up keeps the pitch class and raises the octave by one |
| FrequencyControlDrawer.NoteNameInjective | MidiSynth/Assets/Scripts/ScriptableAudioPipelineNode/Controller/Editor/FrequencyControlDrawer.cs:148-153 | distinct notes get distinct labels |
| FrequencyControlDrawer.NoteNameShape | MidiSynth/Assets/Scripts/ScriptableAudioPipelineNode/Controller/Editor/FrequencyControlDrawer.cs:11-15 | every note name is a letter, possibly followed by '#', and the twelve names are distinct |
| FrequencyControlDrawer.NoteNameAsWrittenMisnamesNegative | MidiSynth/Assets/Scripts/ScriptableAudioPipelineNode/Controller/Editor/FrequencyControlDrawer.cs:150-151 | as written, note -1 and note 1 both read "C#-1", while -1 is a B ("B-2") |
| FrequencyControlDrawer.EditedHz | MidiSynth/Assets/Scripts/ScriptableAudioPipelineNode/Controller/Editor/FrequencyControlDrawer.cs:62-80 | the stored Hz lies in [minHz, maxHz]; the field's value wins over the slider's, the slider's over the current one, each clamped, and an untouched in-range value is kept |
| FrequencyControlDrawer.EditedMidi | MidiSynth/Assets/Scripts/ScriptableAudioPipelineNode/Controller/Editor/FrequencyControlDrawer.cs:104-122 | the note lies in [minMidi, maxMidi]; the field's value wins over the slider's rounded one, and an untouched in-range note is kept |
| FrequencyControlDrawer.DrawHzLine | MidiSynth/Assets/Scripts/ScriptableAudioPipelineNode/Controller/Editor/FrequencyControlDrawer.cs:52-81 | the property becomes `EditedHz` of its old value and the user's edits |
| FrequencyControlDrawer.DrawMidiLine | MidiSynth/Assets/Scripts/ScriptableAudioPipelineNode/Controller/Editor/FrequencyControlDrawer.cs:83-134 | the property is snapped to the clamped frequency of the new note exactly when the note changed, else kept; the label is the shown note's name and the rounded Hz (with `SnappedNoteIsShown`, the note just picked whenever its frequency lies in the Hz range) |
| FrequencyControlDrawer.NoteFrequencyRoundTrip | MidiSynth/Assets/Scripts/ScriptableAudioPipelineNode/Controller/Editor/FrequencyControlDrawer.cs:136-146 | for a `log2` that inverts `pow(2, x)`, converting a note to its frequency and back gives the same note, when that frequency is at least the 0.0001 Hz floor |
| FrequencyControlDrawer.SnappedNoteIsShown | MidiSynth/Assets/Scripts/ScriptableAudioPipelineNode/Controller/Editor/FrequencyControlDrawer.cs:123-133 | after snapping to a note in [minMidi, maxMidi] whose frequency lies in [minHz, maxHz], the note the label shows for the stored value is that same note |
| FrequencyControlDrawer.ShownMidi | MidiSynth/Assets/Scripts/ScriptableAudioPipelineNode/Controller/Editor/FrequencyControlDrawer.cs:131 | the shown note lies in [minMidi, maxMidi] |
| FrequencyControlDrawer.OnGUI | MidiSynth/Assets/Scripts/ScriptableAudioPipelineNode/Controller/Editor/FrequencyControlDrawer.cs:22-50 | a non-float property is left alone; otherwise the stored frequency ends in [minHz, maxHz], and with no edit an in-range value is kept |
| Text.NatToString | MidiSynth/Assets/Scripts/ScriptableAudioPipelineNode/Controller/Editor/FrequencyControlDrawer.cs:152 | a natural prints as one or more decimal digits, with no leading zero |
| Text.IntToString | MidiSynth/Assets/Scripts/ScriptableAudioPipelineNode/Controller/Editor/FrequencyControlDrawer.cs:152 | an integer prints with a leading '-' exactly when it is negative |
| Text.NatRoundTrip | MidiSynth/Assets/Scripts/ScriptableAudioPipelineNode/Controller/Editor/FrequencyControlDrawer.cs:152 | parsing the printed digits gives the natural back |
| Text.IntRoundTrip | MidiSynth/Assets/Scripts/ScriptableAudioPipelineNode/Controller/Editor/FrequencyControlDrawer.cs:152 | parsing the printed integer gives it back |
| Text.IntToStringInjective | MidiSynth/Assets/Scripts/ScriptableAudioPipelineNode/Controller/Editor/FrequencyControlDrawer.cs:152 | distinct integers print differently |
| TriangleWaveGenerator.Processor.constructor | MidiSynth/Assets/TriWave/TriangleWaveGenerator.cs:40-64 | the given frequency, phase 0, disabled and silent, one-sample attack and release (no sample rate yet) |
| TriangleWaveGenerator.Processor.Configure | MidiSynth/Assets/TriWave/TriangleWaveGenerator.cs:138-142 | only the sample rate is taken |
| TriangleWaveGenerator.Processor.Update | MidiSynth/Assets/TriWave/TriangleWaveGenerator.cs:67-81 | the last frequency message in the pipe sets the frequency and the enabled flag; without one they stay |
| TriangleWaveGenerator.Processor.Process | MidiSynth/Assets/TriWave/TriangleWaveGenerator.cs:99-134 | the target is 1 exactly when enabled; phase and envelope end as `OscRun` says, and every channel of frame f holds the triangle sample of the state before it, scaled by the envelope |
| TriangleWaveGenerator.Processor.RenderFrame | MidiSynth/Assets/TriWave/TriangleWaveGenerator.cs:110-132 | one frame: envelope step, the same sample into every channel of that frame, phase advance |
| TriangleWaveGenerator.TriangleSampleBounded | MidiSynth/Assets/TriWave/TriangleWaveGenerator.cs:113-124 | every sample lies in [-1, 1] while the envelope does |
| TriangleWaveGenerator.PolyBLEP | MidiSynth/Assets/TriWave/TriangleWaveGenerator.cs:84-97 | the correction is non-positive just after a wrap, non-negative just before one, and 0 elsewhere |
| TriangleWaveGenerator.ControlNeverEnables | MidiSynth/Assets/TriWave/TriangleWaveGenerator.cs:148-151 | the control half forwards nothing, so no frequency message ever reaches the processor |

## Left out

- Floating point: samples, frequencies and gains are reals. Rounding, NaN, infinities and the single-precision `dspTime` cast are not modelled; a NaN "last sent" value is `None`.
- `Mathf.Approximately` is modelled by Unity's formula (a relative tolerance of 1e-6 with a floor of 8 times the smallest subnormal float) on exact reals, so the rounding of the float arithmetic inside it is not modelled.
- Transcendental functions (`sin`, `cos`, `exp`, `pow`, `log10`, `log2`) are parameters. Only the facts a lemma needs about them, such as `exp` of a negative number lying in (0, 1], appear as that lemma's preconditions.
- The Unity lifecycle is not modelled: `Reset`, `Awake`, the host's `OnEnable` with `audioSource.Play`, and `OnInspectorGUI`'s layout and rebuild flag. Each lifecycle callback that runs logic is modelled as a method the caller invokes.
- The Biquad and Noise controllers' `OnValidate` is not modelled. It only runs the unforced `Apply` while playing, which is modelled.
- `BaseAudioNode.OnValidate` only logs a warning about a non-generator upstream, so it is not modelled. `Debug.Log` calls are left out everywhere.
- GUI drawing (rectangles, help boxes, labels, the popup widget) is left out. The user's edits enter as `Option` parameters, the popup's answer as `changed`/`picked`, and the notices as a datatype.
- Reflection is left out: `SlotReflectionUtility.CollectSlots`, `GetControllerSupportedMessageTypes` and the attribute lookups. The editor takes the collected slots and the required and supported message types as values.
- `Guid.NewGuid` is a parameter of `EnsureGuid`/`OnValidate`: any 32-digit hexadecimal text. Its uniqueness is not modelled.
- The engine API (`AllocateGenerator`, `Destroy`, `SendMessage`, `ctx.Process` of a nested instance) is a `Context` that logs calls. A nested instance's rendering is the buffer's incoming contents.
- `AudioGraphHost.isFinite`/`length` and the host's `OnEnable` are not modelled: they only forward to the resolved instance or the engine.
- AudioNodes.BaseAudioNode.CreateInstance, CompositePipeline.CompositeAudioPipeline.CreateInstance: a composite array with a non-null last entry that lists a node twice, or an upstream chain that loops, makes the source recurse without end. The model requires every node listed once when the last entry is non-null (an array whose last entry is null returns the default instance whatever it holds) and a finite upstream chain, a ghost witness sequence `chain`, so looping configurations are not covered.
- GraphHost.AudioGraphHost.BuildInstance: a cycle the build follows makes the source recurse without end, because the cache is written only after a build. Such a cycle starts at the output and runs through slots that each have a node and a single indexed input. The model requires a ghost rank that covers the output and decreases along exactly those inputs. Cycles among slots the build never reaches, or that pass through a slot without a node, need no rank and are covered. Only a followed cycle is left out.
- Aliasing between slots is left out: slots are values, so two slot entries that are the same C# object are two values here.
- `SpectrumBus`'s lock and cross-thread access are left out. Bus operations are sequential.
- `SpectrumBus.TryGetLatest` does not model the `Bins == null` case, which `Publish` never creates.
- FFTAnalyzeNode.SpectrumBus.TryGetLatest: it returns a copy of the bins. The source hands out the entry's live array, which a later `Publish` for the same id overwrites in place, so an earlier reader's bins change under it; that aliasing is not modelled.
- BaseNodeControllerEditor.SortByLabel: `OrderBy` is modelled as an insertion sort that is sorted and a permutation. Its stability (ties in source order) is not stated.
- BaseNodeControllerEditor.LabelLeqTotal, BaseNodeControllerEditor.LabelLeqTransitive: `OrdinalIgnoreCase` folds only ASCII letters; non-ASCII case folding is not modelled.
- WaveformSineNode.Processor.Process, WaveformSquareNode.Processor.Process, WaveformTriangleNode.Processor.Process and TriangleWaveGenerator.Processor.Process require a configured, positive sample rate. Before `Configure` the source divides by 0 and gets a float infinity, which reals cannot express.
- TriangleWaveGenerator.Processor: the band-limited switch and the zero-cross flag are kept as fields but, as in the source, never read by `Process`.
- NoiseWaveformNode.Processor.constructor, NoiseWaveformNode.Processor.Reseed: they seed the generator with the corrected `MakeSeed` of the first finding, not the source's mixing, which can leave the state at 0.
- FFTAnalyzeNode.Processor.Process, FFTAnalyzeNode.Processor.ComputeSpectrumGoertzel: they send `binCount` powers for every clamped bin count, as the second finding intends; with 128 bins the source's `Add` fails instead.
- FrequencyControlDrawer.DrawMidiLine: its label uses the floored note name of the third finding, which differs from the source's only for negative notes.

## Findings

| source | as written | input that shows it | evidently intended | confidence | as-written member | corrected member |
|---|---|---|---|---|---|---|
| MidiSynth/Assets/Scripts/ScriptableAudioPipelineNode/Node/WaveformGenerator/NoiseWaveformNode.cs:175-186 | the seed 0 is replaced by 1 before the xor with 0xA3C59AC3, so the mixed state itself can be 0 | seed -1547330877, whose 32-bit pattern is 0xA3C59AC3, gives state 0; xorshift32 stays at 0 and every white sample is -1 | the generator starts from a nonzero state | not executed; high | NoiseWaveformNode.MakeSeedAsWrittenCanBeZero | NoiseWaveformNode.MakeSeed, NoiseWaveformNode.RngNeverStuck |
| MidiSynth/Assets/Scripts/ScriptableAudioPipelineNode/Node/Tool/FFTAnalyzeNode.cs:352-401 | the bin count is clamped to [16, 128], but the bins go into a `FixedList512Bytes<float>` that holds 127 floats, whose `Add` fails on the 128th | a message, or the inspector, asking for 128 bins | every clamped bin count fits, and a spectrum of `binCount` powers is sent | not executed; medium, since it depends on the collection's layout | FFTAnalyzeNode.BinCountOverflowsList | FFTAnalyzeNode.Processor.ComputeSpectrumGoertzel, FFTAnalyzeNode.Spectrum |
| MidiSynth/Assets/Scripts/ScriptableAudioPipelineNode/Controller/Editor/FrequencyControlDrawer.cs:148-153 | the pitch class is `abs(midi) % 12` and the octave `midi / 12 - 1` truncated toward zero | note -1 is labelled "C#-1", the same label as note 1 | the pitch class and octave are floored, so -1 is "B-2" and every note has its own label | not executed; high, though only reachable when `minMidi` is negative | FrequencyControlDrawer.NoteNameAsWrittenMisnamesNegative | FrequencyControlDrawer.MidiToNoteName, FrequencyControlDrawer.NoteNameInjective |
