/** `NoiseWaveformNode`: white, pink (Paul Kellet filter) and red (leaky integrator) noise from a
    xorshift32 generator, with a gain envelope that approaches `isActive ? gain : 0`. */
module NoiseWaveformNode {
  import opened Common
  import opened Envelope
  import opened Messages

  // ---------------------------------------------------------------------------
  // Seeding and the xorshift32 generator
  // ---------------------------------------------------------------------------

  const SeedMix: bv32 := 0xA3C5_9AC3

  /** `MakeSeed` as written: a zero seed is replaced by 1 before the mix, not after it. The seed is
      the 32-bit pattern of the `int`, which is what the unchecked `(uint)` cast yields. */
  function MakeSeedAsWritten(seed: bv32): bv32 {
    var s := if seed == 0 then 1 else seed;
    s ^ SeedMix
  }

  /** Seeds 0 and 1 give the same generator state. */
  lemma SeedsZeroAndOneCoincide()
    ensures MakeSeedAsWritten(0) == MakeSeedAsWritten(1)
  {}

  /** The seed whose pattern equals the mix constant (the `int` -1547330877) yields the all-zero
      state, which xorshift32 never leaves: every white sample is then -1. */
  lemma MakeSeedAsWrittenCanBeZero()
    ensures MakeSeedAsWritten(SeedMix) == 0
    ensures forall k: nat :: Iterate(MakeSeedAsWritten(SeedMix), k) == 0
    ensures WhiteOf(XorShift(MakeSeedAsWritten(SeedMix))) == -1.0
  {
    forall k: nat ensures Iterate(MakeSeedAsWritten(SeedMix), k) == 0 {
      IterateZero(k);
    }
  }

  /** The seed derivation the model uses: as written, except that the one seed that mixes to zero
      is mapped to state 1, so the generator always starts from a nonzero state. */
  function MakeSeed(seed: bv32): (r: bv32)
    ensures r != 0
    ensures MakeSeedAsWritten(seed) != 0 ==> r == MakeSeedAsWritten(seed)
  {
    var s := MakeSeedAsWritten(seed);
    if s == 0 then 1 else s
  }

  /** The three shift-xor steps of xorshift32. */
  function ShiftXor13(x: bv32): bv32 { x ^ (x << 13) }
  function ShiftXor17(x: bv32): bv32 { x ^ (x >> 17) }
  function ShiftXor5(x: bv32): bv32 { x ^ (x << 5) }

  /** One xorshift32 step. */
  function XorShift(x: bv32): bv32 {
    ShiftXor5(ShiftXor17(ShiftXor13(x)))
  }

  /** Each shift-xor is invertible, so a nonzero state stays nonzero and zero stays zero. */
  lemma XorShiftNonZero(x: bv32)
    ensures XorShift(x) == 0 <==> x == 0
  {}

  /** `rngState * (1 / uint.MaxValue)`: the state mapped onto [0, 1]. */
  function UnitOf(x: bv32): (r: real)
    ensures 0.0 <= r <= 1.0
    ensures r == 0.0 <==> x == 0
  {
    (x as int) as real / 4294967295.0
  }

  /** `u * 2 - 1`: the state mapped onto [-1, 1]; -1 exactly for the zero state. */
  function WhiteOf(x: bv32): (r: real)
    ensures -1.0 <= r <= 1.0
    ensures r == -1.0 <==> x == 0
  {
    UnitOf(x) * 2.0 - 1.0
  }

  /** The state after `k` xorshift steps. */
  function Iterate(x: bv32, k: nat): bv32 {
    if k == 0 then x else XorShift(Iterate(x, k - 1))
  }

  lemma {:induction false} IterateZero(k: nat)
    ensures Iterate(0, k) == 0
  {
    if k > 0 {
      IterateZero(k - 1);
      XorShiftNonZero(0);
    }
  }

  /** States reached from a seed by any number of steps. */
  function RngAfter(seed: bv32, k: nat): bv32 {
    Iterate(MakeSeed(seed), k)
  }

  lemma {:induction false} IterateNonZero(x: bv32, k: nat)
    requires x != 0
    ensures Iterate(x, k) != 0
  {
    if k > 0 {
      IterateNonZero(x, k - 1);
      XorShiftNonZero(Iterate(x, k - 1));
    }
  }

  /** From the corrected seed the generator never reaches the stuck all-zero state. */
  lemma RngNeverStuck(seed: bv32, k: nat)
    ensures RngAfter(seed, k) != 0
  {
    IterateNonZero(MakeSeed(seed), k);
  }

  // ---------------------------------------------------------------------------
  // Sample generation
  // ---------------------------------------------------------------------------

  /** Generator and filter state: the RNG, the pink filter taps `b0`..`b6` and the red integrator. */
  datatype Gen = Gen(rng: bv32, b0: real, b1: real, b2: real, b3: real, b4: real, b5: real, b6: real, brown: real)

  /** `Reseed`: a fresh RNG state and all filter memory cleared. */
  function Reseeded(seed: bv32): Gen {
    Gen(MakeSeed(seed), 0.0, 0.0, 0.0, 0.0, 0.0, 0.0, 0.0, 0.0)
  }

  /** `NextWhite`: advance the RNG and map it to [-1, 1]. */
  function WhiteStep(g: Gen): (r: (real, Gen))
    ensures -1.0 <= r.0 <= 1.0
    ensures r.1 == g.(rng := XorShift(g.rng))
  {
    var x := XorShift(g.rng);
    (WhiteOf(x), g.(rng := x))
  }

  /** `NextPink`: Paul Kellet's filter bank over one white sample, scaled by 0.11. */
  function PinkStep(g: Gen): (real, Gen) {
    var (white, h) := WhiteStep(g);
    var b0 := 0.99886 * h.b0 + white * 0.0555179;
    var b1 := 0.99332 * h.b1 + white * 0.0750759;
    var b2 := 0.96900 * h.b2 + white * 0.1538520;
    var b3 := 0.86650 * h.b3 + white * 0.3104856;
    var b4 := 0.55000 * h.b4 + white * 0.5329522;
    var b5 := -0.7616 * h.b5 - white * 0.0168980;
    var pink := b0 + b1 + b2 + b3 + b4 + b5 + h.b6 + white * 0.5362;
    (pink * 0.11, h.(b0 := b0, b1 := b1, b2 := b2, b3 := b3, b4 := b4, b5 := b5, b6 := white * 0.115926))
  }

  /** `NextRed`: a leaky integrator of white noise, clamped to [-1, 1], scaled by 3.5. */
  function RedStep(g: Gen): (r: (real, Gen))
    ensures -1.0 <= r.1.brown <= 1.0
    ensures r.0 == r.1.brown * 3.5
    ensures r.1.rng == XorShift(g.rng)
  {
    var (white, h) := WhiteStep(g);
    var brown := ClampR(h.brown * 0.995 + white * 0.02, -1.0, 1.0);
    (brown * 3.5, h.(brown := brown))
  }

  /** `GenerateNoiseSample`: an unknown noise type outputs silence and leaves the RNG alone. */
  function NoiseStep(t: NoiseType, g: Gen): (real, Gen) {
    match t
    case White => WhiteStep(g)
    case Pink => PinkStep(g)
    case Red => RedStep(g)
    case OtherNoise(_) => (0.0, g)
  }

  /** The red integrator never leaves [-1, 1], whatever type is played before or after. */
  lemma BrownStaysBounded(t: NoiseType, g: Gen)
    requires -1.0 <= g.brown <= 1.0
    ensures -1.0 <= NoiseStep(t, g).1.brown <= 1.0
  {}

  // ---------------------------------------------------------------------------
  // Per-frame run and message draining
  // ---------------------------------------------------------------------------

  /** Generator state and envelope between two frames. */
  datatype Voice = Voice(gen: Gen, env: real)

  /** What one `Process` call runs with. */
  datatype NoiseDrive = NoiseDrive(noiseType: NoiseType, target: real, attack: int, release: int)
  {
    predicate Ok() { attack >= 1 && release >= 1 }
  }

  function VoiceStep(v: Voice, p: NoiseDrive): Voice
    requires p.Ok()
  {
    Voice(NoiseStep(p.noiseType, v.gen).1, Approach(v.env, p.target, p.attack, p.release))
  }

  /** The sample written for one frame, given the state before that frame. */
  function NoiseSample(v: Voice, p: NoiseDrive): real
    requires p.Ok()
  {
    NoiseStep(p.noiseType, v.gen).0 * VoiceStep(v, p).env
  }

  function VoiceRun(v: Voice, p: NoiseDrive, k: nat): Voice
    requires p.Ok()
  {
    if k == 0 then v else VoiceStep(VoiceRun(v, p, k - 1), p)
  }

  /** The envelope moves toward the target without overshooting, so with the envelope and the
      target in [0, 1] it stays in [0, 1]. */
  lemma {:induction false} VoiceRunEnvInUnit(v: Voice, p: NoiseDrive, k: nat)
    requires p.Ok() && 0.0 <= v.env <= 1.0 && 0.0 <= p.target <= 1.0
    ensures 0.0 <= VoiceRun(v, p, k).env <= 1.0
  {
    if k > 0 {
      VoiceRunEnvInUnit(v, p, k - 1);
    }
  }

  /** Once the envelope has reached the target it stays there. */
  lemma {:induction false} VoiceRunSettled(v: Voice, p: NoiseDrive, k: nat)
    requires p.Ok() && v.env == p.target
    ensures VoiceRun(v, p, k).env == p.target
  {
    if k > 0 {
      VoiceRunSettled(v, p, k - 1);
    }
  }

  /** The parameters a `NoiseMessage` sets, with the RNG and filters a reseed replaces. */
  datatype Knobs = Knobs(noiseType: NoiseType, gain: real, isActive: bool, gen: Gen)

  function ApplyMessage(k: Knobs, m: NoiseMessage): Knobs {
    Knobs(m.noiseType, Clamp01(m.gain), m.isActive, if m.reseed then Reseeded(m.seed) else k.gen)
  }

  /** `Update` over a whole pipe: every `NoiseMessage` is applied in order. */
  function Drain(k: Knobs, pipe: seq<Message>): Knobs
    decreases |pipe|
  {
    if pipe == [] then k
    else
      var k' := Drain(k, pipe[..|pipe| - 1]);
      match AsNoise(pipe[|pipe| - 1])
      case Some(m) => ApplyMessage(k', m)
      case None => k'
  }

  /** One more pipe element: `Drain` applies it to what the prefix left. */
  lemma DrainStep(k: Knobs, pipe: seq<Message>, i: nat)
    requires i < |pipe|
    ensures Drain(k, pipe[..i + 1]) == match AsNoise(pipe[i])
                                       case Some(m) => ApplyMessage(Drain(k, pipe[..i]), m)
                                       case None => Drain(k, pipe[..i])
  {
    assert pipe[..i + 1][..i] == pipe[..i];
  }

  /** Type, gain and activity come from the last `NoiseMessage`, the gain clamped to [0, 1]. */
  lemma {:induction false} DrainLastWins(k: Knobs, pipe: seq<Message>)
    ensures match LastOf(pipe, AsNoise)
            case Some(m) => Drain(k, pipe).noiseType == m.noiseType && Drain(k, pipe).gain == Clamp01(m.gain)
                            && Drain(k, pipe).isActive == m.isActive
            case None => Drain(k, pipe) == k
  {
    if pipe != [] {
      var init := pipe[..|pipe| - 1];
      DrainLastWins(k, init);
      LastOfSnoc(init, pipe[|pipe| - 1], AsNoise);
      assert init + [pipe[|pipe| - 1]] == pipe;
    }
  }

  /** Without a reseed request in the pipe, the RNG and filter memory are untouched. */
  lemma {:induction false} DrainWithoutReseed(k: Knobs, pipe: seq<Message>)
    requires forall i :: 0 <= i < |pipe| ==> !(pipe[i].NoiseMsg? && pipe[i].noise.reseed)
    ensures Drain(k, pipe).gen == k.gen
  {
    if pipe != [] {
      DrainWithoutReseed(k, pipe[..|pipe| - 1]);
    }
  }

  /** The gain stays in [0, 1] through any pipe. */
  lemma {:induction false} DrainGainInUnit(k: Knobs, pipe: seq<Message>)
    requires 0.0 <= k.gain <= 1.0
    ensures 0.0 <= Drain(k, pipe).gain <= 1.0
  {
    if pipe != [] {
      DrainGainInUnit(k, pipe[..|pipe| - 1]);
    }
  }

  class Processor {
    var noiseType: NoiseType
    var gain: real
    var isActive: bool
    var rngState: bv32
    var b0: real
    var b1: real
    var b2: real
    var b3: real
    var b4: real
    var b5: real
    var b6: real
    var brown: real
    var env: real
    var target: real
    var attackSamples: int
    var releaseSamples: int
    var sampleRate: int

    ghost predicate Valid()
      reads this
    {
      attackSamples >= 1 && releaseSamples >= 1 && 0.0 <= gain <= 1.0 && 0.0 <= env <= 1.0
    }

    function GenState(): Gen
      reads this
    {
      Gen(rngState, b0, b1, b2, b3, b4, b5, b6, brown)
    }

    function KnobState(): Knobs
      reads this
    {
      Knobs(noiseType, gain, isActive, GenState())
    }

    function Params(): NoiseDrive
      reads this
    {
      NoiseDrive(noiseType, if isActive then gain else 0.0, attackSamples, releaseSamples)
    }

    /** `Allocate(context, type, gain, isActive, seed)`: gain clamped, generator seeded, filters
        cleared, the envelope already at its target. */
    constructor (t: NoiseType, initialGain: real, active: bool, seed: bv32)
      ensures Valid()
      ensures KnobState() == Knobs(t, Clamp01(initialGain), active, Reseeded(seed))
      ensures env == (if active then Clamp01(initialGain) else 0.0) && target == env
      ensures attackSamples == 1 && releaseSamples == 1 && sampleRate == 0
    {
      noiseType := t;
      gain := Clamp01(initialGain);
      isActive := active;
      rngState := MakeSeed(seed);
      b0, b1, b2, b3, b4, b5, b6 := 0.0, 0.0, 0.0, 0.0, 0.0, 0.0, 0.0;
      brown := 0.0;
      env := if active then Clamp01(initialGain) else 0.0;
      target := env;
      sampleRate := 0;
      attackSamples := 1;
      releaseSamples := 1;
    }

    /** `Control.Configure`: 2 ms attack and 10 ms release in samples, at least 1. */
    method Configure(configSampleRate: int)
      requires Valid()
      modifies this`sampleRate, this`attackSamples, this`releaseSamples
      ensures Valid() && sampleRate == configSampleRate
      ensures attackSamples == MaxI(1, RoundToInt(2.0 * 0.001 * configSampleRate as real))
      ensures releaseSamples == MaxI(1, RoundToInt(10.0 * 0.001 * configSampleRate as real))
    {
      sampleRate := configSampleRate;
      attackSamples := MaxI(1, RoundToInt(2.0 * 0.001 * sampleRate as real));
      releaseSamples := MaxI(1, RoundToInt(10.0 * 0.001 * sampleRate as real));
    }

    /** Drains the pipe, applying every `NoiseMessage` in order (see `Drain`). */
    method Update(pipe: seq<Message>)
      requires Valid()
      modifies this`noiseType, this`gain, this`isActive, this`rngState
      modifies this`b0, this`b1, this`b2, this`b3, this`b4, this`b5, this`b6, this`brown
      ensures Valid()
      ensures KnobState() == Drain(old(KnobState()), pipe)
    {
      var i := 0;
      while i < |pipe|
        invariant 0 <= i <= |pipe| && Valid()
        invariant KnobState() == Drain(old(KnobState()), pipe[..i])
      {
        DrainStep(old(KnobState()), pipe, i);
        ghost var k := KnobState();
        if pipe[i].NoiseMsg? {
          var d := pipe[i].noise;
          noiseType := d.noiseType;
          gain := Clamp01(d.gain);
          isActive := d.isActive;
          if d.reseed {
            Reseed(d.seed);
          }
          assert KnobState() == ApplyMessage(k, d);
        }
        i := i + 1;
      }
      assert pipe[..|pipe|] == pipe;
    }

    /** The reseed branch of `Update`: new RNG state, filter memory cleared. */
    method Reseed(seed: bv32)
      modifies this`rngState, this`b0, this`b1, this`b2, this`b3, this`b4, this`b5, this`b6, this`brown
      ensures GenState() == Reseeded(seed)
    {
      rngState := MakeSeed(seed);
      b0, b1, b2, b3, b4, b5, b6 := 0.0, 0.0, 0.0, 0.0, 0.0, 0.0, 0.0;
      brown := 0.0;
    }

    /** `NextWhite` on the processor's own RNG. */
    method NextWhite() returns (white: real)
      modifies this`rngState
      ensures (white, GenState()) == WhiteStep(old(GenState()))
    {
      rngState := ShiftXor13(rngState);
      rngState := ShiftXor17(rngState);
      rngState := ShiftXor5(rngState);
      var u := UnitOf(rngState);
      white := u * 2.0 - 1.0;
    }

    method NextPink() returns (r: real)
      modifies this`rngState, this`b0, this`b1, this`b2, this`b3, this`b4, this`b5, this`b6
      ensures (r, GenState()) == PinkStep(old(GenState()))
    {
      var white := NextWhite();
      b0 := 0.99886 * b0 + white * 0.0555179;
      b1 := 0.99332 * b1 + white * 0.0750759;
      b2 := 0.96900 * b2 + white * 0.1538520;
      b3 := 0.86650 * b3 + white * 0.3104856;
      b4 := 0.55000 * b4 + white * 0.5329522;
      b5 := -0.7616 * b5 - white * 0.0168980;
      var pink := b0 + b1 + b2 + b3 + b4 + b5 + b6 + white * 0.5362;
      b6 := white * 0.115926;
      r := pink * 0.11;
    }

    method NextRed() returns (r: real)
      modifies this`rngState, this`brown
      ensures (r, GenState()) == RedStep(old(GenState()))
    {
      var white := NextWhite();
      brown := brown * 0.995 + white * 0.02;
      brown := ClampR(brown, -1.0, 1.0);
      r := brown * 3.5;
    }

    method GenerateNoiseSample() returns (r: real)
      modifies this`rngState, this`b0, this`b1, this`b2, this`b3, this`b4, this`b5, this`b6, this`brown
      ensures (r, GenState()) == NoiseStep(noiseType, old(GenState()))
    {
      match noiseType
      case White => r := NextWhite();
      case Pink => r := NextPink();
      case Red => r := NextRed();
      case OtherNoise(_) => r := 0.0;
    }

    /** Renders `buffer.Length1` frames into every channel following `VoiceRun`. */
    method Process(buffer: array2<real>) returns (frames: int)
      requires Valid()
      modifies this`rngState, this`b0, this`b1, this`b2, this`b3, this`b4, this`b5, this`b6, this`brown
      modifies this`env, this`target, buffer
      ensures Valid() && frames == buffer.Length1
      ensures target == (if isActive then gain else 0.0)
      ensures Voice(GenState(), env) == VoiceRun(Voice(old(GenState()), old(env)), Params(), frames)
      ensures forall ch, f :: 0 <= ch < buffer.Length0 && 0 <= f < buffer.Length1 ==>
                buffer[ch, f] == NoiseSample(VoiceRun(Voice(old(GenState()), old(env)), Params(), f), Params())
    {
      frames := buffer.Length1;
      target := if isActive then gain else 0.0;
      ghost var p := Params();
      ghost var v0 := Voice(GenState(), env);
      var frame := 0;
      while frame < frames
        invariant 0 <= frame <= frames
        invariant Valid() && Params() == p && target == p.target
        invariant Voice(GenState(), env) == VoiceRun(v0, p, frame)
        invariant forall ch, f :: 0 <= ch < buffer.Length0 && 0 <= f < frame ==>
                    buffer[ch, f] == NoiseSample(VoiceRun(v0, p, f), p)
      {
        RenderFrame(buffer, frame);
        frame := frame + 1;
      }
      assert v0 == Voice(old(GenState()), old(env)) && p == Params();
    }

    /** The envelope smoothing at the head of each frame: toward the target, clamped to it. */
    method StepEnvelope()
      requires attackSamples >= 1 && releaseSamples >= 1
      modifies this`env
      ensures env == Approach(old(env), target, attackSamples, releaseSamples)
    {
      if target > env {
        env := MinR(target, env + 1.0 / attackSamples as real);
      } else if target < env {
        env := MaxR(target, env - 1.0 / releaseSamples as real);
      }
    }

    /** One pass of the frame loop: envelope step, one noise sample into every channel. */
    method RenderFrame(buffer: array2<real>, frame: int)
      requires Valid() && 0 <= frame < buffer.Length1 && target == Params().target
      modifies this`rngState, this`b0, this`b1, this`b2, this`b3, this`b4, this`b5, this`b6, this`brown
      modifies this`env, buffer
      ensures Valid()
      ensures Voice(GenState(), env) == VoiceStep(old(Voice(GenState(), env)), Params())
      ensures forall c, f :: 0 <= c < buffer.Length0 && 0 <= f < buffer.Length1 ==>
                buffer[c, f] == if f == frame then NoiseSample(old(Voice(GenState(), env)), Params()) else old(buffer[c, f])
    {
      ghost var v0, p := Voice(GenState(), env), Params();
      StepEnvelope();
      assert env == VoiceStep(v0, p).env;
      var n := GenerateNoiseSample();
      assert (n, GenState()) == NoiseStep(p.noiseType, v0.gen);
      var s := n * env;
      assert s == NoiseSample(v0, p);
      FillFrame(buffer, frame, s);
      assert p == Params();
    }
  }

  /** `Control.OnMessage`: a `NoiseMessage` is forwarded and handled; anything else is not. */
  function OnMessage(m: Message): (r: (Response, seq<Message>))
    ensures r.0 == Handled <==> m.NoiseMsg?
    ensures r.0 == Handled ==> |r.1| == 1 && AsNoise(r.1[0]) == Some(m.noise)
    ensures r.0 == Unhandled ==> r.1 == []
  {
    if m.NoiseMsg? then (Handled, [m]) else (Unhandled, [])
  }

  /** What `OnMessage` forwards is applied by the next `Update` after everything the pipe held. */
  lemma ForwardedMessageApplied(k: Knobs, pipe: seq<Message>, m: Message)
    ensures OnMessage(m).0 == Handled <==> m.NoiseMsg?
    ensures Drain(k, pipe + OnMessage(m).1) ==
              if m.NoiseMsg? then ApplyMessage(Drain(k, pipe), m.noise) else Drain(k, pipe)
  {
    var q := pipe + OnMessage(m).1;
    if m.NoiseMsg? {
      assert q[..|q| - 1] == pipe;
    } else {
      assert q == pipe;
    }
  }
}
