/** `WaveformSineNode`: a sine oscillator with a linear de-click envelope. */
module WaveformSineNode {
  import opened Common
  import opened Envelope
  import opened Messages

  /** The realtime processor: frequency, phase and envelope updated by `Update` and `Process`. */
  class Processor {
    var frequency: real
    var phase: real
    var isActive: bool
    var env: real
    var target: real
    var attackSamples: int
    var releaseSamples: int
    /** `setup.sampleRate`; 0 until `Configure`. */
    var sampleRate: int

    ghost predicate Valid()
      reads this
    {
      attackSamples >= 1 && releaseSamples >= 1 && 0.0 <= env <= 1.0
    }

    /** Envelope target and phase increment that one `Process` call runs with. */
    function Params(): Drive
      reads this
      requires sampleRate > 0
    {
      Drive(if isActive then 1.0 else 0.0, frequency / sampleRate as real, attackSamples, releaseSamples)
    }

    /** `Allocate(context, freq, isActive)`: a silent or fully open envelope, depending on `active`. */
    constructor (freq: real, active: bool)
      ensures Valid()
      ensures frequency == freq && phase == 0.0 && isActive == active
      ensures env == (if active then 1.0 else 0.0) && target == env
      ensures attackSamples == 1 && releaseSamples == 1 && sampleRate == 0
    {
      frequency := freq;
      phase := 0.0;
      isActive := active;
      env := if active then 1.0 else 0.0;
      target := env;
      attackSamples := 1;
      releaseSamples := 1;
      sampleRate := 0;
    }

    /** `Control.Configure`: the sample rate of the format, and 1 ms / 3 ms in samples, at least 1. */
    method Configure(configSampleRate: int)
      requires Valid()
      modifies this`sampleRate, this`attackSamples, this`releaseSamples
      ensures Valid() && sampleRate == configSampleRate
      ensures attackSamples == MaxI(1, RoundToInt(1.0 * 0.001 * configSampleRate as real))
      ensures releaseSamples == MaxI(1, RoundToInt(3.0 * 0.001 * configSampleRate as real))
    {
      sampleRate := configSampleRate;
      attackSamples := MaxI(1, RoundToInt(1.0 * 0.001 * sampleRate as real));
      releaseSamples := MaxI(1, RoundToInt(3.0 * 0.001 * sampleRate as real));
    }

    /** Drains the pipe: the last `SineMessage` sets frequency and activity. */
    method Update(pipe: seq<Message>)
      modifies this`frequency, this`isActive
      ensures match LastOf(pipe, AsSine)
              case Some(m) => frequency == m.frequency && isActive == m.isActive
              case None => frequency == old(frequency) && isActive == old(isActive)
    {
      var i := 0;
      while i < |pipe|
        invariant 0 <= i <= |pipe|
        invariant match LastOf(pipe[..i], AsSine)
                  case Some(m) => frequency == m.frequency && isActive == m.isActive
                  case None => frequency == old(frequency) && isActive == old(isActive)
      {
        LastOfSnoc(pipe[..i], pipe[i], AsSine);
        assert pipe[..i + 1] == pipe[..i] + [pipe[i]];
        if pipe[i].SineMsg? {
          frequency := pipe[i].sine.frequency;
          isActive := pipe[i].sine.isActive;
        }
        i := i + 1;
      }
      assert pipe[..|pipe|] == pipe;
    }

    /** Renders `buffer.Length1` frames into every channel: frame `k` holds
        `sin(phase_k * Tau) * env_(k+1)`, where `(phase_k, env_k)` is the oscillator after `k` frames. */
    method Process(buffer: array2<real>, sin: real -> real) returns (frames: int)
      requires Valid() && sampleRate > 0
      modifies this`phase, this`env, this`target, buffer
      ensures Valid() && frames == buffer.Length1
      ensures target == (if isActive then 1.0 else 0.0)
      ensures Osc(phase, env) == OscRun(Osc(old(phase), old(env)), Params(), frames)
      ensures forall ch, f :: 0 <= ch < buffer.Length0 && 0 <= f < buffer.Length1 ==>
                buffer[ch, f] == SineSample(sin, OscRun(Osc(old(phase), old(env)), Params(), f), Params())
    {
      frames := buffer.Length1;
      target := if isActive then 1.0 else 0.0;
      ghost var d := Params();
      ghost var s0 := Osc(phase, env);
      var frame := 0;
      while frame < frames
        invariant 0 <= frame <= frames
        invariant Valid() && Params() == d && target == d.target
        invariant Osc(phase, env) == OscRun(s0, d, frame)
        invariant forall ch, f :: 0 <= ch < buffer.Length0 && 0 <= f < frame ==>
                    buffer[ch, f] == SineSample(sin, OscRun(s0, d, f), d)
      {
        RenderFrame(buffer, frame, sin);
        frame := frame + 1;
      }
      assert s0 == Osc(old(phase), old(env)) && d == Params();
    }

    /** One pass of the frame loop: envelope step, the same sample into every channel, phase advance. */
    method RenderFrame(buffer: array2<real>, frame: int, sin: real -> real)
      requires Valid() && sampleRate > 0 && 0 <= frame < buffer.Length1
      requires target == Params().target
      modifies this`phase, this`env, buffer
      ensures Valid()
      ensures Osc(phase, env) == OscStep(old(Osc(phase, env)), Params())
      ensures forall c, f :: 0 <= c < buffer.Length0 && 0 <= f < buffer.Length1 ==>
                buffer[c, f] == if f == frame then SineSample(sin, old(Osc(phase, env)), Params()) else old(buffer[c, f])
    {
      ghost var o, d := Osc(phase, env), Params();
      env := Step(env, target, attackSamples, releaseSamples);
      var s := sin(phase * Tau) * env;
      assert s == SineSample(sin, o, d);
      FillFrame(buffer, frame, s);
      phase := phase + frequency / sampleRate as real;
      if phase >= 1.0 {
        phase := phase - 1.0;
      }
      assert d == Params();
    }
  }

  /** The sample written for one frame, given the oscillator state before that frame. */
  function SineSample(sin: real -> real, s: Osc, d: Drive): real
    requires d.Ok()
  {
    sin(s.phase * Tau) * OscStep(s, d).env
  }

  /** With `sin` bounded by 1, every rendered sample is bounded by the envelope, hence by 1. */
  lemma SineSampleBounded(sin: real -> real, s: Osc, d: Drive)
    requires d.Ok() && 0.0 <= s.env <= 1.0
    requires -1.0 <= sin(s.phase * Tau) <= 1.0
    ensures -1.0 <= SineSample(sin, s, d) <= 1.0
  {
    MulUnitBounded(sin(s.phase * Tau), OscStep(s, d).env);
  }

  /** `Control.OnMessage`: a `SineMessage` is forwarded to the processor and handled; anything
      else is left unhandled and nothing is forwarded. */
  function OnMessage(m: Message): (r: (Response, seq<Message>))
    ensures r.0 == Handled <==> m.SineMsg?
    ensures r.0 == Handled ==> |r.1| == 1 && AsSine(r.1[0]) == Some(m.sine)
    ensures r.0 == Unhandled ==> r.1 == []
  {
    if m.SineMsg? then (Handled, [m]) else (Unhandled, [])
  }

  /** What `OnMessage` forwards is what the next `Update` applies, whatever the pipe held before. */
  lemma ForwardedMessageWins(pipe: seq<Message>, m: Message)
    ensures OnMessage(m).0 == Handled <==> m.SineMsg?
    ensures LastOf(pipe + OnMessage(m).1, AsSine) == if m.SineMsg? then Some(m.sine) else LastOf(pipe, AsSine)
  {
    if m.SineMsg? {
      LastOfSnoc(pipe, m, AsSine);
    } else {
      assert pipe + OnMessage(m).1 == pipe;
    }
  }
}
