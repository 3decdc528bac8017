/** `WaveformTriangleNode`: a naive triangle oscillator with a linear de-click envelope. */
module WaveformTriangleNode {
  import opened Common
  import opened Envelope
  import opened Messages

  /** The realtime processor: frequency, phase and envelope updated by `Update` and `Process`. */
  class Processor {
    var frequency: real
    var phase: real
    var isEnabled: bool
    var env: real
    var target: real
    var attackSamples: int
    var releaseSamples: int
    /** `setup.sampleRate`; 0 until `Configure`. */
    var sampleRate: int

    ghost predicate Valid()
      reads this
    {
      attackSamples >= 1 && releaseSamples >= 1 && 0.0 <= env <= 1.0
    }

    /** Envelope target and phase increment that one `Process` call runs with. */
    function Params(): Drive
      reads this
      requires sampleRate > 0
    {
      Drive(if isEnabled then 1.0 else 0.0, frequency / sampleRate as real, attackSamples, releaseSamples)
    }

    /** `Allocate(context, freq, isActive)`: a silent or fully open envelope, depending on `active`. */
    constructor (freq: real, active: bool)
      ensures Valid()
      ensures frequency == freq && phase == 0.0 && isEnabled == active
      ensures env == (if active then 1.0 else 0.0) && target == env
      ensures attackSamples == 1 && releaseSamples == 1 && sampleRate == 0
    {
      frequency := freq;
      phase := 0.0;
      isEnabled := active;
      env := if active then 1.0 else 0.0;
      target := env;
      attackSamples := 1;
      releaseSamples := 1;
      sampleRate := 0;
    }

    /** `Control.Configure`: the sample rate of the format, and 1 ms / 3 ms in samples, at least 1. */
    method Configure(configSampleRate: int)
      requires Valid()
      modifies this`sampleRate, this`attackSamples, this`releaseSamples
      ensures Valid() && sampleRate == configSampleRate
      ensures attackSamples == MaxI(1, RoundToInt(1.0 * 0.001 * configSampleRate as real))
      ensures releaseSamples == MaxI(1, RoundToInt(3.0 * 0.001 * configSampleRate as real))
    {
      sampleRate := configSampleRate;
      attackSamples := MaxI(1, RoundToInt(1.0 * 0.001 * sampleRate as real));
      releaseSamples := MaxI(1, RoundToInt(3.0 * 0.001 * sampleRate as real));
    }

    /** Drains the pipe: the last `TriangleWaveMessage` sets frequency and activity. */
    method Update(pipe: seq<Message>)
      modifies this`frequency, this`isEnabled
      ensures match LastOf(pipe, AsTriangle)
              case Some(m) => frequency == m.value && isEnabled == m.isActive
              case None => frequency == old(frequency) && isEnabled == old(isEnabled)
    {
      var i := 0;
      while i < |pipe|
        invariant 0 <= i <= |pipe|
        invariant match LastOf(pipe[..i], AsTriangle)
                  case Some(m) => frequency == m.value && isEnabled == m.isActive
                  case None => frequency == old(frequency) && isEnabled == old(isEnabled)
      {
        LastOfSnoc(pipe[..i], pipe[i], AsTriangle);
        assert pipe[..i + 1] == pipe[..i] + [pipe[i]];
        if pipe[i].TriangleMsg? {
          frequency := pipe[i].triangle.value;
          isEnabled := pipe[i].triangle.isActive;
        }
        i := i + 1;
      }
      assert pipe[..|pipe|] == pipe;
    }

    /** Renders `buffer.Length1` frames into every channel: frame `k` holds
        `Tri(phase_k) * env_(k+1)`, where `(phase_k, env_k)` is the oscillator after `k` frames. */
    method Process(buffer: array2<real>) returns (frames: int)
      requires Valid() && sampleRate > 0
      modifies this`phase, this`env, this`target, buffer
      ensures Valid() && frames == buffer.Length1
      ensures target == (if isEnabled then 1.0 else 0.0)
      ensures Osc(phase, env) == OscRun(Osc(old(phase), old(env)), Params(), frames)
      ensures forall ch, f :: 0 <= ch < buffer.Length0 && 0 <= f < buffer.Length1 ==>
                buffer[ch, f] == TriangleSample(OscRun(Osc(old(phase), old(env)), Params(), f), Params())
    {
      frames := buffer.Length1;
      target := if isEnabled then 1.0 else 0.0;
      ghost var d := Params();
      ghost var s0 := Osc(phase, env);
      var frame := 0;
      while frame < frames
        invariant 0 <= frame <= frames
        invariant Valid() && Params() == d && target == d.target
        invariant Osc(phase, env) == OscRun(s0, d, frame)
        invariant forall ch, f :: 0 <= ch < buffer.Length0 && 0 <= f < frame ==>
                    buffer[ch, f] == TriangleSample(OscRun(s0, d, f), d)
      {
        RenderFrame(buffer, frame);
        frame := frame + 1;
      }
      assert s0 == Osc(old(phase), old(env)) && d == Params();
    }

    /** One pass of the frame loop: envelope step, the same sample into every channel, phase advance. */
    method RenderFrame(buffer: array2<real>, frame: int)
      requires Valid() && sampleRate > 0 && 0 <= frame < buffer.Length1
      requires target == Params().target
      modifies this`phase, this`env, buffer
      ensures Valid()
      ensures Osc(phase, env) == OscStep(old(Osc(phase, env)), Params())
      ensures forall c, f :: 0 <= c < buffer.Length0 && 0 <= f < buffer.Length1 ==>
                buffer[c, f] == if f == frame then TriangleSample(old(Osc(phase, env)), Params()) else old(buffer[c, f])
    {
      ghost var o, d := Osc(phase, env), Params();
      env := Step(env, target, attackSamples, releaseSamples);
      var p := phase - phase.Floor as real;
      var tri := 4.0 * AbsR(p - 0.5) - 1.0;
      var s := tri * env;
      assert s == TriangleSample(o, d);
      FillFrame(buffer, frame, s);
      phase := phase + frequency / sampleRate as real;
      if phase >= 1.0 {
        phase := phase - 1.0;
      }
      assert d == Params();
    }
  }

  /** `4 |p - 0.5| - 1` of the fractional phase `p`: a triangle wave of peak 1. */
  function Tri(phase: real): (r: real)
    ensures -1.0 <= r <= 1.0
  {
    4.0 * AbsR(Frac(phase) - 0.5) - 1.0
  }

  /** The triangle peaks at phase 0 and bottoms out half a cycle later. */
  lemma TriPeaks()
    ensures Tri(0.0) == 1.0 && Tri(0.5) == -1.0
  {
    assert 0.5.Floor == 0;
  }

  /** The sample written for one frame, given the oscillator state before that frame. */
  function TriangleSample(s: Osc, d: Drive): real
    requires d.Ok()
  {
    Tri(s.phase) * OscStep(s, d).env
  }

  /** Every rendered sample lies in [-1, 1] while the envelope does. */
  lemma TriangleSampleBounded(s: Osc, d: Drive)
    requires d.Ok() && 0.0 <= s.env <= 1.0
    ensures -1.0 <= TriangleSample(s, d) <= 1.0
  {
    MulUnitBounded(Tri(s.phase), OscStep(s, d).env);
  }

  /** `Control.OnMessage`: a `TriangleWaveMessage` is forwarded to the processor and handled; anything
      else is left unhandled and nothing is forwarded. */
  function OnMessage(m: Message): (r: (Response, seq<Message>))
    ensures r.0 == Handled <==> m.TriangleMsg?
    ensures r.0 == Handled ==> |r.1| == 1 && AsTriangle(r.1[0]) == Some(m.triangle)
    ensures r.0 == Unhandled ==> r.1 == []
  {
    if m.TriangleMsg? then (Handled, [m]) else (Unhandled, [])
  }

  /** What `OnMessage` forwards is what the next `Update` applies, whatever the pipe held before. */
  lemma ForwardedMessageWins(pipe: seq<Message>, m: Message)
    ensures OnMessage(m).0 == Handled <==> m.TriangleMsg?
    ensures LastOf(pipe + OnMessage(m).1, AsTriangle) == if m.TriangleMsg? then Some(m.triangle) else LastOf(pipe, AsTriangle)
  {
    if m.TriangleMsg? {
      LastOfSnoc(pipe, m, AsTriangle);
    } else {
      assert pipe + OnMessage(m).1 == pipe;
    }
  }
}
