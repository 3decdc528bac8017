/** `TriangleWaveGenerator`: a stand-alone triangle generator (not a pipeline node) driven by
    `FrequencyData`; its control half forwards nothing, so only a message already in the
    processor's pipe can enable it. */
module TriangleWaveGenerator {
  import opened Common
  import opened Envelope
  import opened Messages
  import WaveformTriangleNode

  /** The realtime processor: frequency, phase and envelope updated by `Update` and `Process`. */
  class Processor {
    var frequency: real
    var phase: real
    var isEnabled: bool
    var env: real
    var target: real
    var attackSamples: int
    var releaseSamples: int
    /** `m_Setup.sampleRate`; 0 until `Configure`. */
    var sampleRate: int
    /** Kept but never read by `Process`. */
    var zeroCrossStop: bool
    var lastSample: real
    var useBandLimitedTriangle: bool

    ghost predicate Valid()
      reads this
    {
      attackSamples >= 1 && releaseSamples >= 1 && 0.0 <= env <= 1.0
    }

    /** Envelope target and phase increment that one `Process` call runs with. */
    function Params(): Drive
      reads this
      requires sampleRate > 0
    {
      Drive(if isEnabled then 1.0 else 0.0, frequency / sampleRate as real, attackSamples, releaseSamples)
    }

    /** `Allocate(context, frequency)`: starts disabled and silent; with the setup's sample rate
        still 0, both envelope lengths round to 0 and are lifted to 1. */
    constructor (freq: real)
      ensures Valid()
      ensures frequency == freq && phase == 0.0 && !isEnabled
      ensures env == 0.0 && target == 0.0
      ensures attackSamples == 1 && releaseSamples == 1 && sampleRate == 0
      ensures !zeroCrossStop && lastSample == 0.0 && !useBandLimitedTriangle
    {
      frequency := freq;
      phase := 0.0;
      sampleRate := 0;
      isEnabled := false;
      attackSamples := MaxI(1, RoundToInt(1.0 * 0.001 * 0.0));
      releaseSamples := MaxI(1, RoundToInt(3.0 * 0.001 * 0.0));
      zeroCrossStop := false;
      env := 0.0;
      target := 0.0;
      lastSample := 0.0;
      useBandLimitedTriangle := false;
    }

    /** `Control.Configure`: only the sample rate is taken; the envelope lengths keep their
        construction-time value of 1. */
    method Configure(configSampleRate: int)
      requires Valid()
      modifies this`sampleRate
      ensures Valid() && sampleRate == configSampleRate
    {
      sampleRate := configSampleRate;
    }

    /** Drains the pipe: the last `FrequencyData` sets frequency and activity. */
    method Update(pipe: seq<Message>)
      modifies this`frequency, this`isEnabled
      ensures match LastOf(pipe, AsFrequencyData)
              case Some(m) => frequency == m.value && isEnabled == m.isActive
              case None => frequency == old(frequency) && isEnabled == old(isEnabled)
    {
      var i := 0;
      while i < |pipe|
        invariant 0 <= i <= |pipe|
        invariant match LastOf(pipe[..i], AsFrequencyData)
                  case Some(m) => frequency == m.value && isEnabled == m.isActive
                  case None => frequency == old(frequency) && isEnabled == old(isEnabled)
      {
        LastOfSnoc(pipe[..i], pipe[i], AsFrequencyData);
        assert pipe[..i + 1] == pipe[..i] + [pipe[i]];
        if pipe[i].FrequencyMsg? {
          frequency := pipe[i].frequencyData.value;
          isEnabled := pipe[i].frequencyData.isActive;
        }
        i := i + 1;
      }
      assert pipe[..|pipe|] == pipe;
    }

    /** Renders `buffer.Length1` frames into every channel: frame `k` holds
        `Tri(phase_k) * env_(k+1)` (the naive triangle of `WaveformTriangleNode`), where `(phase_k, env_k)` is the oscillator after `k` frames. */
    method Process(buffer: array2<real>) returns (frames: int)
      requires Valid() && sampleRate > 0
      modifies this`phase, this`env, this`target, buffer
      ensures Valid() && frames == buffer.Length1
      ensures target == (if isEnabled then 1.0 else 0.0)
      ensures Osc(phase, env) == OscRun(Osc(old(phase), old(env)), Params(), frames)
      ensures forall ch, f :: 0 <= ch < buffer.Length0 && 0 <= f < buffer.Length1 ==>
                buffer[ch, f] == TriangleSample(OscRun(Osc(old(phase), old(env)), Params(), f), Params())
    {
      frames := buffer.Length1;
      target := if isEnabled then 1.0 else 0.0;
      ghost var d := Params();
      ghost var s0 := Osc(phase, env);
      var frame := 0;
      while frame < frames
        invariant 0 <= frame <= frames
        invariant Valid() && Params() == d && target == d.target
        invariant Osc(phase, env) == OscRun(s0, d, frame)
        invariant forall ch, f :: 0 <= ch < buffer.Length0 && 0 <= f < frame ==>
                    buffer[ch, f] == TriangleSample(OscRun(s0, d, f), d)
      {
        RenderFrame(buffer, frame);
        frame := frame + 1;
      }
      assert s0 == Osc(old(phase), old(env)) && d == Params();
    }

    /** One pass of the frame loop: envelope step, the same sample into every channel, phase advance. */
    method RenderFrame(buffer: array2<real>, frame: int)
      requires Valid() && sampleRate > 0 && 0 <= frame < buffer.Length1
      requires target == Params().target
      modifies this`phase, this`env, buffer
      ensures Valid()
      ensures Osc(phase, env) == OscStep(old(Osc(phase, env)), Params())
      ensures forall c, f :: 0 <= c < buffer.Length0 && 0 <= f < buffer.Length1 ==>
                buffer[c, f] == if f == frame then TriangleSample(old(Osc(phase, env)), Params()) else old(buffer[c, f])
    {
      ghost var o, d := Osc(phase, env), Params();
      env := Step(env, target, attackSamples, releaseSamples);
      var p := phase - phase.Floor as real;
      var tri := 4.0 * AbsR(p - 0.5) - 1.0;
      var s := tri * env;
      assert s == TriangleSample(o, d);
      FillFrame(buffer, frame, s);
      phase := phase + frequency / sampleRate as real;
      if phase >= 1.0 {
        phase := phase - 1.0;
      }
      assert d == Params();
    }
  }

  /** The sample written for one frame, given the oscillator state before that frame. */
  function TriangleSample(s: Osc, d: Drive): real
    requires d.Ok()
  {
    WaveformTriangleNode.Tri(s.phase) * OscStep(s, d).env
  }

  /** Every rendered sample lies in [-1, 1] while the envelope does. */
  lemma TriangleSampleBounded(s: Osc, d: Drive)
    requires d.Ok() && 0.0 <= s.env <= 1.0
    ensures -1.0 <= TriangleSample(s, d) <= 1.0
  {
    MulUnitBounded(WaveformTriangleNode.Tri(s.phase), OscStep(s, d).env);
  }

  /** The band-limiting correction `PolyBLEP(t, dt)` (present in the source, not used by `Process`):
      a non-positive bump just after a wrap, a non-negative one just before it, 0 elsewhere. */
  function PolyBLEP(t: real, dt: real): (r: real)
    requires dt > 0.0
    ensures t < dt ==> r <= 0.0
    ensures !(t < dt) && t > 1.0 - dt ==> r >= 0.0
    ensures !(t < dt) && !(t > 1.0 - dt) ==> r == 0.0
  {
    if t < dt then
      var x := t / dt;
      SquareNonNeg(x - 1.0);
      x + x - x * x - 1.0
    else if t > 1.0 - dt then
      var x := (t - 1.0) / dt;
      SquareNonNeg(x + 1.0);
      x * x + x + x + 1.0
    else 0.0
  }

  lemma SquareNonNeg(y: real)
    ensures y * y >= 0.0
  {
    if y < 0.0 { MulNonNeg(-y, -y); } else { MulNonNeg(y, y); }
  }

  /** `Control.OnMessage`: every message is left unhandled and nothing reaches the pipe. */
  function OnMessage(m: Message): (r: (Response, seq<Message>))
  {
    (Unhandled, [])
  }

  /** Everything the control half forwards for a sequence of messages. */
  function Forwarded(ms: seq<Message>): seq<Message>
  {
    if ms == [] then [] else Forwarded(ms[..|ms| - 1]) + OnMessage(ms[|ms| - 1]).1
  }

  /** However many messages are sent to the instance, its pipe receives no `FrequencyData`, so
      `Update` never changes frequency or enabled state and the generator stays silent. */
  lemma {:induction false} ControlNeverEnables(ms: seq<Message>)
    ensures Forwarded(ms) == []
    ensures LastOf(Forwarded(ms), AsFrequencyData) == None
  {
    if ms != [] {
      ControlNeverEnables(ms[..|ms| - 1]);
    }
  }
}
