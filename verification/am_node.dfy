/** `AmplitudeModulationNode`: a tremolo over the upstream's output. A sine LFO at `bpm / 60` Hz
    sets a target gain between `1 - depth` and 1, and the applied gain follows that target through
    a one-pole smoother whose time constant is 10 ms while active and the release time while not. */
module AmplitudeModulationNode {
  import opened Common
  import opened Envelope
  import opened Messages
  import opened Audio

  // ---------------------------------------------------------------------------
  // Parameter normalisation (constructor and `Update`)
  // ---------------------------------------------------------------------------

  /** The ranges the processor keeps its parameters in. */
  predicate InRange(t: AmMessage) {
    0.0 <= t.depth <= 1.0 && 1.0 <= t.bpm <= 480.0 && t.releaseMs >= 0.0 && 0.0 <= t.phaseOffset01 < 1.0
  }

  /** A message as the processor stores it: depth clamped to [0, 1], tempo to [1, 480], release
      floored at 0, and the phase offset reduced to its fractional part. Values already in range
      are kept as they are. */
  function Normalized(m: AmMessage): (r: AmMessage)
    ensures InRange(r) && r.isActive == m.isActive
    ensures 0.0 <= m.depth <= 1.0 ==> r.depth == m.depth
    ensures 1.0 <= m.bpm <= 480.0 ==> r.bpm == m.bpm
    ensures m.releaseMs >= 0.0 ==> r.releaseMs == m.releaseMs
    ensures r.releaseMs >= m.releaseMs
    ensures 0.0 <= m.phaseOffset01 < 1.0 ==> r.phaseOffset01 == m.phaseOffset01
  {
    AmMessage(m.isActive, Clamp01(m.depth), ClampR(m.bpm, 1.0, 480.0), MaxR(0.0, m.releaseMs), Frac(m.phaseOffset01))
  }

  /** Normalising a stored message again changes nothing. */
  lemma NormalizedIdempotent(m: AmMessage)
    ensures Normalized(Normalized(m)) == Normalized(m)
  {
    var f := Normalized(m).phaseOffset01;
    assert f.Floor == 0;
  }

  // ---------------------------------------------------------------------------
  // Per-block drive and per-frame step
  // ---------------------------------------------------------------------------

  /** The smoothing time in ms: 10 while active, the release time (at least 10) while inactive. */
  function SmoothMs(t: AmMessage): (r: real)
    ensures r >= 10.0
    ensures t.isActive ==> r == 10.0
    ensures !t.isActive ==> r >= t.releaseMs && (t.releaseMs >= 10.0 ==> r == t.releaseMs)
  {
    if t.isActive then 10.0 else MaxR(10.0, t.releaseMs)
  }

  /** The depth the LFO works with: none while inactive. */
  function EffectiveDepth(t: AmMessage): (r: real)
    ensures !t.isActive ==> r == 0.0
    ensures t.isActive ==> r == t.depth
  {
    if t.isActive then t.depth else 0.0
  }

  /** The gain the smoother heads for: `Lerp(1 - depth, 1, lfo01)`, so within [1 - depth, 1] for
      any LFO value (`Mathf.Lerp` clamps it), and exactly 1 without depth. */
  function TargetGain(depth: real, lfo01: real): (r: real)
    ensures depth >= 0.0 ==> 1.0 - depth <= r <= 1.0
    ensures depth == 0.0 ==> r == 1.0
  {
    Lerp(1.0 - depth, 1.0, lfo01)
  }

  /** What one block runs with: the smoothing coefficient, the effective depth, the phase
      increment per frame and the phase offset. */
  datatype AmDrive = AmDrive(alpha: real, depth: real, inc: real, offset: real)

  /** `gainAlpha = 1 - exp(-1 / (sr * smoothMs * 0.001))`, `phaseInc = (bpm / 60) / sr`. */
  function BlockDrive(t: AmMessage, sampleRate: int, exp: real -> real): AmDrive
    requires sampleRate > 0
  {
    var sr := sampleRate as real;
    AmDrive(1.0 - exp(-1.0 / (sr * (SmoothMs(t) * 0.001))), EffectiveDepth(t), t.bpm / 60.0 / sr, t.phaseOffset01)
  }

  /** With an `exp` that maps negative arguments into (0, 1], the smoothing coefficient lies in
      [0, 1), and an inactive node's drive has no depth. */
  lemma BlockDriveBounds(t: AmMessage, sampleRate: int, exp: real -> real)
    requires sampleRate > 0
    requires forall v :: v < 0.0 ==> 0.0 < exp(v) <= 1.0
    ensures 0.0 <= BlockDrive(t, sampleRate, exp).alpha < 1.0
    ensures !t.isActive ==> BlockDrive(t, sampleRate, exp).depth == 0.0
    ensures !t.isActive ==> forall lfo01 :: TargetGain(BlockDrive(t, sampleRate, exp).depth, lfo01) == 1.0
    ensures t.isActive ==> BlockDrive(t, sampleRate, exp).depth == t.depth
  {
    var sr := sampleRate as real;
    var w := sr * (SmoothMs(t) * 0.001);
    MulNonNeg(sr, SmoothMs(t) * 0.001);
    assert w > 0.0 by {
      assert sr >= 1.0 && SmoothMs(t) * 0.001 >= 0.01;
      MulNonNeg(sr - 1.0, SmoothMs(t) * 0.001);
    }
    assert -1.0 / w < 0.0;
  }

  /** The LFO phase and the smoothed gain. */
  datatype AmState = AmState(phase: real, gain: real)

  /** `0.5 + 0.5 * sin(p * 2 Pi)` at the offset phase `p`, reduced to [0, 1). */
  function Lfo(sin: real -> real, phase: real, offset: real): real {
    0.5 + 0.5 * sin(Frac(phase + offset) * (Pi * 2.0))
  }

  /** One frame: the gain takes one smoothing step toward the target, the phase advances and wraps. */
  function AmStep(s: AmState, d: AmDrive, sin: real -> real): AmState {
    AmState(Wrap(s.phase + d.inc), Mix(s.gain, TargetGain(d.depth, Lfo(sin, s.phase, d.offset)), d.alpha))
  }

  /** The state after `n` frames. */
  function AmRun(s: AmState, d: AmDrive, sin: real -> real, n: nat): AmState {
    if n == 0 then s else AmStep(AmRun(s, d, sin, n - 1), d, sin)
  }

  /** Without depth the target is always 1, so a gain at 1 stays there: an inactive node passes its
      input through unchanged. */
  lemma {:induction false} FlatGainStaysUnit(s: AmState, d: AmDrive, sin: real -> real, n: nat)
    requires d.depth == 0.0 && s.gain == 1.0
    ensures AmRun(s, d, sin, n).gain == 1.0
  {
    if n > 0 {
      FlatGainStaysUnit(s, d, sin, n - 1);
      var g := AmRun(s, d, sin, n - 1).gain;
      assert Mix(g, 1.0, d.alpha) == 1.0 + (1.0 - 1.0) * d.alpha;
    }
  }

  /** With a coefficient in [0, 1] the smoothed gain never leaves [1 - depth, 1] once inside it. */
  lemma {:induction false} GainStaysInBand(s: AmState, d: AmDrive, sin: real -> real, n: nat)
    requires 0.0 <= d.alpha <= 1.0 && 0.0 <= d.depth <= 1.0
    requires 1.0 - d.depth <= s.gain <= 1.0
    ensures 1.0 - d.depth <= AmRun(s, d, sin, n).gain <= 1.0
  {
    if n > 0 {
      GainStaysInBand(s, d, sin, n - 1);
      var p := AmRun(s, d, sin, n - 1);
      MixBetween(p.gain, TargetGain(d.depth, Lfo(sin, p.phase, d.offset)), d.alpha);
    }
  }

  /** The single-subtraction wrap keeps the phase in [0, 1) while the increment is below one cycle
      per frame (tempo below 60 times the sample rate). */
  lemma {:induction false} PhaseStaysInUnit(s: AmState, d: AmDrive, sin: real -> real, n: nat)
    requires 0.0 <= s.phase < 1.0 && 0.0 <= d.inc < 1.0
    ensures 0.0 <= AmRun(s, d, sin, n).phase < 1.0
  {
    if n > 0 {
      PhaseStaysInUnit(s, d, sin, n - 1);
      WrapIsFrac(AmRun(s, d, sin, n - 1).phase, d.inc);
    }
  }

  class Processor {
    const hasUpstream: bool
    const upstream: Instance
    var tIsActive: bool
    var tDepth: real
    var tBpm: real
    var tReleaseMs: real
    var tPhaseOffset01: real
    var phase01: real
    var smoothedGain: real
    /** `setup.sampleRate`; 0 until `Configure`. */
    var sampleRate: int

    /** The parameters as received. */
    function Settings(): AmMessage
      reads this
    {
      AmMessage(tIsActive, tDepth, tBpm, tReleaseMs, tPhaseOffset01)
    }

    function State(): AmState
      reads this
    {
      AmState(phase01, smoothedGain)
    }

    ghost predicate Valid()
      reads this
    {
      InRange(Settings())
    }

    /** `Allocate(context, hasUpstream, upstream, isActive, depth, bpm, releaseMs, phaseOffset01)`:
        normalised parameters, phase 0, gain 1. */
    constructor (hasUpstreamInstance: bool, upstreamInstance: Instance, initial: AmMessage)
      ensures Valid()
      ensures hasUpstream == hasUpstreamInstance && upstream == upstreamInstance
      ensures Settings() == Normalized(initial)
      ensures State() == AmState(0.0, 1.0) && sampleRate == 0
    {
      hasUpstream := hasUpstreamInstance;
      upstream := upstreamInstance;
      tIsActive := initial.isActive;
      tDepth := Clamp01(initial.depth);
      tBpm := ClampR(initial.bpm, 1.0, 480.0);
      tReleaseMs := MaxR(0.0, initial.releaseMs);
      tPhaseOffset01 := initial.phaseOffset01 - initial.phaseOffset01.Floor as real;
      phase01 := 0.0;
      smoothedGain := 1.0;
      sampleRate := 0;
    }

    /** Drains the pipe: every `AmMessage` overwrites all five parameters, normalised, so the last
        one wins. */
    method Update(pipe: seq<Message>)
      requires Valid()
      modifies this`tIsActive, this`tDepth, this`tBpm, this`tReleaseMs, this`tPhaseOffset01
      ensures Valid()
      ensures Settings() == match LastOf(pipe, AsAm)
                            case Some(m) => Normalized(m)
                            case None => old(Settings())
    {
      var i := 0;
      while i < |pipe|
        invariant 0 <= i <= |pipe| && Valid()
        invariant Settings() == match LastOf(pipe[..i], AsAm)
                                case Some(m) => Normalized(m)
                                case None => old(Settings())
      {
        LastOfSnoc(pipe[..i], pipe[i], AsAm);
        assert pipe[..i + 1] == pipe[..i] + [pipe[i]];
        if pipe[i].AmMsg? {
          Take(pipe[i].am);
        }
        i := i + 1;
      }
      assert pipe[..|pipe|] == pipe;
    }

    /** One `AmMessage` of the pipe: all five parameters, normalised. */
    method Take(m: AmMessage)
      modifies this`tIsActive, this`tDepth, this`tBpm, this`tReleaseMs, this`tPhaseOffset01
      ensures Valid() && Settings() == Normalized(m)
    {
      tIsActive := m.isActive;
      tDepth := Clamp01(m.depth);
      tBpm := ClampR(m.bpm, 1.0, 480.0);
      tReleaseMs := MaxR(0.0, m.releaseMs);
      tPhaseOffset01 := m.phaseOffset01 - m.phaseOffset01.Floor as real;
    }

    /** Modulates the block in place: the upstream's output (or silence, without an upstream) is
        multiplied frame by frame by the smoothed gain after that frame. Before `Configure` (sample
        rate 0) the block is left as the upstream rendered it and the state does not move. */
    method Process(buffer: array2<real>, m: MathLib) returns (frames: int)
      requires Valid()
      modifies this`phase01, this`smoothedGain, buffer
      ensures Valid() && frames == buffer.Length1
      ensures sampleRate <= 0 ==> State() == old(State())
      ensures sampleRate <= 0 ==> forall ch, f :: 0 <= ch < buffer.Length0 && 0 <= f < buffer.Length1 ==>
                buffer[ch, f] == Incoming(old(Columns(buffer)), hasUpstream)[f][ch]
      ensures sampleRate > 0 ==>
                State() == AmRun(old(State()), BlockDrive(Settings(), sampleRate, m.exp), m.sin, frames)
      ensures sampleRate > 0 ==> forall ch, f :: 0 <= ch < buffer.Length0 && 0 <= f < buffer.Length1 ==>
                buffer[ch, f] == Scale(Incoming(old(Columns(buffer)), hasUpstream)[f][ch],
                                       AmRun(old(State()), BlockDrive(Settings(), sampleRate, m.exp), m.sin, f + 1).gain)
    {
      frames := buffer.Length1;
      ghost var input := Incoming(Columns(buffer), hasUpstream);
      if !hasUpstream {
        Silence(buffer);
      }
      assert forall ch, f :: 0 <= ch < buffer.Length0 && 0 <= f < buffer.Length1 ==> buffer[ch, f] == input[f][ch];
      var sr := sampleRate as real;
      if sr <= 0.0 {
        return;
      }
      var d := BlockDrive(Settings(), sampleRate, m.exp);
      ModulateBlock(buffer, d, m.sin);
    }

    /** The frame loop of `Process`. */
    method ModulateBlock(buffer: array2<real>, d: AmDrive, sin: real -> real)
      modifies this`phase01, this`smoothedGain, buffer
      ensures State() == AmRun(old(State()), d, sin, buffer.Length1)
      ensures forall ch, f :: 0 <= ch < buffer.Length0 && 0 <= f < buffer.Length1 ==>
                buffer[ch, f] == Scale(old(buffer[ch, f]), AmRun(old(State()), d, sin, f + 1).gain)
    {
      ghost var s0 := State();
      var frame := 0;
      while frame < buffer.Length1
        invariant 0 <= frame <= buffer.Length1
        invariant State() == AmRun(s0, d, sin, frame)
        invariant forall ch, f :: 0 <= ch < buffer.Length0 && 0 <= f < frame ==>
                    buffer[ch, f] == Scale(old(buffer[ch, f]), AmRun(s0, d, sin, f + 1).gain)
        invariant forall ch, f :: 0 <= ch < buffer.Length0 && frame <= f < buffer.Length1 ==>
                    buffer[ch, f] == old(buffer[ch, f])
      {
        RenderFrame(buffer, frame, d, sin);
        frame := frame + 1;
      }
    }

    /** One pass of the frame loop: offset phase, LFO, target gain, one smoothing step, every
        channel scaled by the new gain, phase advance with a single wrap. */
    method RenderFrame(buffer: array2<real>, frame: int, d: AmDrive, sin: real -> real)
      requires 0 <= frame < buffer.Length1
      modifies this`phase01, this`smoothedGain, buffer
      ensures State() == AmStep(old(State()), d, sin)
      ensures forall c, f :: 0 <= c < buffer.Length0 && 0 <= f < buffer.Length1 ==>
                buffer[c, f] == if f == frame then Scale(old(buffer[c, f]), smoothedGain) else old(buffer[c, f])
    {
      var p := phase01 + d.offset;
      p := p - p.Floor as real;
      var lfo01 := 0.5 + 0.5 * sin(p * (Pi * 2.0));
      var targetGain := Lerp(1.0 - d.depth, 1.0, lfo01);
      smoothedGain := Mix(smoothedGain, targetGain, d.alpha);
      ScaleFrame(buffer, frame, smoothedGain);
      phase01 := phase01 + d.inc;
      if phase01 >= 1.0 {
        phase01 := phase01 - 1.0;
      }
    }

    /** `Control.Configure`: the format's sample rate. */
    method Configure(config: AudioFormat)
      modifies this`sampleRate
      ensures sampleRate == config.sampleRate
    {
      sampleRate := config.sampleRate;
    }

    /** `Control.Dispose`: the nested upstream instance is destroyed with the effect. */
    method Dispose(context: Context)
      modifies context`destroyed
      ensures context.destroyed ==
                if hasUpstream && upstream.Handle? then old(context.destroyed) + {upstream.id} else old(context.destroyed)
    {
      if hasUpstream {
        context.Destroy(upstream);
      }
    }
  }

  /** `Control.OnMessage`: an `AmMessage` is forwarded and handled; anything else is not. */
  function OnMessage(m: Message): (r: (Response, seq<Message>))
    ensures r.0 == Handled <==> m.AmMsg?
    ensures r.0 == Handled ==> |r.1| == 1 && AsAm(r.1[0]) == Some(m.am)
    ensures r.0 == Unhandled ==> r.1 == []
  {
    if m.AmMsg? then (Handled, [m]) else (Unhandled, [])
  }

  /** What `OnMessage` forwards is what the next `Update` applies, whatever the pipe held before. */
  lemma ForwardedMessageWins(pipe: seq<Message>, m: Message)
    ensures OnMessage(m).0 == Handled <==> m.AmMsg?
    ensures LastOf(pipe + OnMessage(m).1, AsAm) == if m.AmMsg? then Some(m.am) else LastOf(pipe, AsAm)
  {
    if m.AmMsg? {
      LastOfSnoc(pipe, m, AsAm);
    } else {
      assert pipe + OnMessage(m).1 == pipe;
    }
  }
}
