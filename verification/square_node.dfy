/** `WaveformSquareNode`: a pulse oscillator with a duty ratio, a linear de-click envelope and an
    optional zero-cross hold that keeps a releasing note at its current level until the wave flips. */
module WaveformSquareNode {
  import opened Common
  import opened Envelope
  import opened Messages

  const MinDuty: real := 0.001
  const MaxDuty: real := 0.999

  /** Phase, envelope and previous raw value between two frames. */
  datatype Square = Square(phase: real, env: real, last: real)

  /** What one `Process` call runs with: envelope drive, duty and the zero-cross switch. */
  datatype SquareDrive = SquareDrive(drive: Drive, duty: real, zeroCrossStop: bool)

  /** The dry pulse: +1 in the first `duty` of the cycle, -1 in the rest. */
  function Raw(phase: real, duty: real): (v: real)
    ensures v == 1.0 || v == -1.0
    ensures v == 1.0 <==> phase < duty
  {
    if phase < duty then 1.0 else -1.0
  }

  /** The wave changed sign (or left zero) since the previous frame. */
  predicate Crossed(last: real, v: real) {
    (last <= 0.0 && v > 0.0) || (last >= 0.0 && v < 0.0)
  }

  /** The hold branch is taken: a release is due but the wave has not crossed yet. */
  predicate Holds(s: Square, p: SquareDrive) {
    p.zeroCrossStop && p.drive.target <= 0.0 && s.env > 0.0 && !Crossed(s.last, Raw(s.phase, p.duty))
  }

  function SquareStep(s: Square, p: SquareDrive): Square
    requires p.drive.Ok()
  {
    var v := Raw(s.phase, p.duty);
    var e := if Holds(s, p) then s.env else Step(s.env, p.drive.target, p.drive.attack, p.drive.release);
    Square(Wrap(s.phase + p.drive.inc), e, v)
  }

  /** The sample written for one frame, given the state before that frame. */
  function SquareSample(s: Square, p: SquareDrive): real
    requires p.drive.Ok()
  {
    Raw(s.phase, p.duty) * SquareStep(s, p).env
  }

  /** State after `k` frames. */
  function SquareRun(s: Square, p: SquareDrive, k: nat): Square
    requires p.drive.Ok()
  {
    if k == 0 then s else SquareStep(SquareRun(s, p, k - 1), p)
  }

  /** In the hold branch the output is the dry value at the current level, and the level stays. */
  lemma HoldKeepsLevel(s: Square, p: SquareDrive)
    requires p.drive.Ok() && Holds(s, p)
    ensures SquareStep(s, p).env == s.env
    ensures SquareSample(s, p) == Raw(s.phase, p.duty) * s.env
    ensures SquareStep(s, p).last == Raw(s.phase, p.duty)
  {}

  /** Once the previous raw value is a full-scale ±1, "crossed" means exactly "the wave flipped". */
  lemma CrossedIsFlip(last: real, v: real)
    requires last == 1.0 || last == -1.0
    requires v == 1.0 || v == -1.0
    ensures Crossed(last, v) <==> v != last
  {}

  /** Without the zero-cross switch, phase and envelope follow the plain oscillator recurrence. */
  lemma {:induction false} NoHoldIsOscillator(s: Square, p: SquareDrive, k: nat)
    requires p.drive.Ok() && !p.zeroCrossStop
    ensures Osc(SquareRun(s, p, k).phase, SquareRun(s, p, k).env) == OscRun(Osc(s.phase, s.env), p.drive, k)
  {
    if k > 0 {
      NoHoldIsOscillator(s, p, k - 1);
    }
  }

  /** With or without holding, the envelope never leaves [0, 1]. */
  lemma {:induction false} SquareRunEnvInUnit(s: Square, p: SquareDrive, k: nat)
    requires p.drive.Ok() && 0.0 <= s.env <= 1.0
    ensures 0.0 <= SquareRun(s, p, k).env <= 1.0
  {
    if k > 0 {
      SquareRunEnvInUnit(s, p, k - 1);
    }
  }

  /** Every sample lies in [-1, 1] while the envelope does. */
  lemma SquareSampleBounded(s: Square, p: SquareDrive)
    requires p.drive.Ok() && 0.0 <= s.env <= 1.0
    ensures -1.0 <= SquareSample(s, p) <= 1.0
  {
    MulUnitBounded(Raw(s.phase, p.duty), SquareStep(s, p).env);
  }

  class Processor {
    var frequency: real
    var duty: real
    var phase: real
    var isActive: bool
    var env: real
    var target: real
    var attackSamples: int
    var releaseSamples: int
    const zeroCrossStop: bool
    var lastSample: real
    /** `setup.sampleRate`; 0 until `Configure`. */
    var sampleRate: int

    ghost predicate Valid()
      reads this
    {
      attackSamples >= 1 && releaseSamples >= 1 && 0.0 <= env <= 1.0 && MinDuty <= duty <= MaxDuty
    }

    function State(): Square
      reads this
    {
      Square(phase, env, lastSample)
    }

    function Params(): SquareDrive
      reads this
      requires sampleRate > 0
    {
      SquareDrive(Drive(if isActive then 1.0 else 0.0, frequency / sampleRate as real, attackSamples, releaseSamples),
                  duty, zeroCrossStop)
    }

    /** The processor constructor: duty clamped to [0.001, 0.999], envelope open iff active. */
    constructor (initialFrequency: real, initialDuty: real, initialIsActive: bool, zeroCrossStopFlag: bool)
      ensures Valid()
      ensures frequency == initialFrequency && duty == ClampR(initialDuty, MinDuty, MaxDuty)
      ensures phase == 0.0 && isActive == initialIsActive && zeroCrossStop == zeroCrossStopFlag
      ensures env == (if initialIsActive then 1.0 else 0.0) && target == env && lastSample == 0.0
      ensures attackSamples == 1 && releaseSamples == 1 && sampleRate == 0
    {
      frequency := initialFrequency;
      duty := ClampR(initialDuty, MinDuty, MaxDuty);
      phase := 0.0;
      isActive := initialIsActive;
      sampleRate := 0;
      attackSamples := 1;
      releaseSamples := 1;
      zeroCrossStop := zeroCrossStopFlag;
      env := if initialIsActive then 1.0 else 0.0;
      target := env;
      lastSample := 0.0;
    }

    /** `Control.Configure`: the format's sample rate, and 1 ms / 3 ms in samples, at least 1. */
    method Configure(configSampleRate: int)
      requires Valid()
      modifies this`sampleRate, this`attackSamples, this`releaseSamples
      ensures Valid() && sampleRate == configSampleRate
      ensures attackSamples == MaxI(1, RoundToInt(1.0 * 0.001 * configSampleRate as real))
      ensures releaseSamples == MaxI(1, RoundToInt(3.0 * 0.001 * configSampleRate as real))
    {
      sampleRate := configSampleRate;
      attackSamples := MaxI(1, RoundToInt(1.0 * 0.001 * sampleRate as real));
      releaseSamples := MaxI(1, RoundToInt(3.0 * 0.001 * sampleRate as real));
    }

    /** Drains the pipe: the last `SquareWaveMessage` sets frequency, duty (clamped) and activity. */
    method Update(pipe: seq<Message>)
      requires Valid()
      modifies this`frequency, this`duty, this`isActive
      ensures Valid()
      ensures match LastOf(pipe, AsSquare)
              case Some(m) => frequency == m.freq && duty == ClampR(m.ratio, MinDuty, MaxDuty) && isActive == m.isActive
              case None => frequency == old(frequency) && duty == old(duty) && isActive == old(isActive)
    {
      var i := 0;
      while i < |pipe|
        invariant 0 <= i <= |pipe| && Valid()
        invariant match LastOf(pipe[..i], AsSquare)
                  case Some(m) => frequency == m.freq && duty == ClampR(m.ratio, MinDuty, MaxDuty) && isActive == m.isActive
                  case None => frequency == old(frequency) && duty == old(duty) && isActive == old(isActive)
      {
        LastOfSnoc(pipe[..i], pipe[i], AsSquare);
        assert pipe[..i + 1] == pipe[..i] + [pipe[i]];
        if pipe[i].SquareMsg? {
          var d := pipe[i].square;
          frequency := d.freq;
          duty := ClampR(d.ratio, MinDuty, MaxDuty);
          isActive := d.isActive;
        }
        i := i + 1;
      }
      assert pipe[..|pipe|] == pipe;
    }

    /** Renders `buffer.Length1` frames into every channel following `SquareRun`. */
    method Process(buffer: array2<real>) returns (frames: int)
      requires Valid() && sampleRate > 0
      modifies this`phase, this`env, this`target, this`lastSample, buffer
      ensures Valid() && frames == buffer.Length1
      ensures target == (if isActive then 1.0 else 0.0)
      ensures State() == SquareRun(old(State()), Params(), frames)
      ensures forall ch, f :: 0 <= ch < buffer.Length0 && 0 <= f < buffer.Length1 ==>
                buffer[ch, f] == SquareSample(SquareRun(old(State()), Params(), f), Params())
    {
      frames := buffer.Length1;
      target := if isActive then 1.0 else 0.0;
      ghost var p := Params();
      ghost var s0 := State();
      var frame := 0;
      while frame < frames
        invariant 0 <= frame <= frames
        invariant Valid() && Params() == p && target == p.drive.target
        invariant State() == SquareRun(s0, p, frame)
        invariant forall ch, f :: 0 <= ch < buffer.Length0 && 0 <= f < frame ==>
                    buffer[ch, f] == SquareSample(SquareRun(s0, p, f), p)
      {
        RenderFrame(buffer, frame);
        frame := frame + 1;
      }
      assert s0 == old(State()) && p == Params();
    }

    /** One pass of the frame loop, including the hold branch that skips the envelope step. */
    method RenderFrame(buffer: array2<real>, frame: int)
      requires Valid() && sampleRate > 0 && 0 <= frame < buffer.Length1
      requires target == Params().drive.target
      modifies this`phase, this`env, this`lastSample, buffer
      ensures Valid()
      ensures State() == SquareStep(old(State()), Params())
      ensures forall c, f :: 0 <= c < buffer.Length0 && 0 <= f < buffer.Length1 ==>
                buffer[c, f] == if f == frame then SquareSample(old(State()), Params()) else old(buffer[c, f])
    {
      ghost var st, d := State(), Params();
      if zeroCrossStop && target <= 0.0 && env > 0.0 {
        var vDry := if phase < duty then 1.0 else -1.0;
        var crossed := (lastSample <= 0.0 && vDry > 0.0) || (lastSample >= 0.0 && vDry < 0.0);
        if !crossed {
          var vOutHold := vDry * env;
          assert vOutHold == SquareSample(st, d);
          FillFrame(buffer, frame, vOutHold);
          phase := phase + frequency / sampleRate as real;
          if phase >= 1.0 {
            phase := phase - 1.0;
          }
          lastSample := vDry;
          assert d == Params();
          return;
        }
      }
      env := Step(env, target, attackSamples, releaseSamples);
      var v := if phase < duty then 1.0 else -1.0;
      var vOut := v * env;
      assert vOut == SquareSample(st, d);
      FillFrame(buffer, frame, vOut);
      phase := phase + frequency / sampleRate as real;
      if phase >= 1.0 {
        phase := phase - 1.0;
      }
      lastSample := v;
      assert d == Params();
    }
  }

  /** `Processor.Allocate` as reached from the node: the inspector duty is first clamped to [0, 1],
      and the zero-cross switch is always off, so the hold branch is never taken. */
  method Allocate(initialFrequency: real, initialDuty: real, initialIsActive: bool) returns (p: Processor)
    ensures fresh(p) && p.Valid() && !p.zeroCrossStop
    ensures p.duty == ClampR(Clamp01(initialDuty), MinDuty, MaxDuty)
    ensures p.frequency == initialFrequency && p.isActive == initialIsActive
  {
    p := new Processor(initialFrequency, Clamp01(initialDuty), initialIsActive, false);
  }

  /** `Control.OnMessage`: a `SquareWaveMessage` is forwarded and handled; anything else is not. */
  function OnMessage(m: Message): (r: (Response, seq<Message>))
    ensures r.0 == Handled <==> m.SquareMsg?
    ensures r.0 == Handled ==> |r.1| == 1 && AsSquare(r.1[0]) == Some(m.square)
    ensures r.0 == Unhandled ==> r.1 == []
  {
    if m.SquareMsg? then (Handled, [m]) else (Unhandled, [])
  }

  /** What `OnMessage` forwards is what the next `Update` applies. */
  lemma ForwardedMessageWins(pipe: seq<Message>, m: Message)
    ensures OnMessage(m).0 == Handled <==> m.SquareMsg?
    ensures LastOf(pipe + OnMessage(m).1, AsSquare) == if m.SquareMsg? then Some(m.square) else LastOf(pipe, AsSquare)
  {
    if m.SquareMsg? {
      LastOfSnoc(pipe, m, AsSquare);
    } else {
      assert pipe + OnMessage(m).1 == pipe;
    }
  }
}
