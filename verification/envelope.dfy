/** Click-suppression envelopes and phase accumulators shared by the oscillators and effects.
    The oscillators (sine, square, triangle, the TriWave generator) and the biquad filter move
    their envelope by `1/attackSamples` or `1/releaseSamples` per frame and clamp it to [0, 1];
    the noise generator clamps it to its target instead. Phases wrap by one subtraction. */
module Envelope {
  import opened Common

  /** Mathf.PI as a float, and `Mathf.PI * 2`. */
  const Pi: real := 3.14159274
  const Tau: real := 2.0 * Pi

  /** One envelope frame of an oscillator: up by 1/attack (capped at 1) while below the
      target, down by 1/release (floored at 0) while above it. */
  function Step(env: real, target: real, attack: int, release: int): (r: real)
    requires attack >= 1 && release >= 1
    ensures 0.0 <= env <= 1.0 ==> 0.0 <= r <= 1.0
    ensures env < target ==> env < r || r == 1.0
    ensures target < env ==> r < env || r == 0.0
    ensures env == target ==> r == env
  {
    if target > env then MinR(1.0, env + 1.0 / attack as real)
    else if target < env then MaxR(0.0, env - 1.0 / release as real)
    else env
  }

  /** One envelope frame of the noise generator: toward the target by at most 1/attack or
      1/release, clamped to the target itself. */
  function Approach(env: real, target: real, attack: int, release: int): (r: real)
    requires attack >= 1 && release >= 1
    ensures env <= target ==> env <= r <= target
    ensures target <= env ==> target <= r <= env
  {
    if target > env then MinR(target, env + 1.0 / attack as real)
    else if target < env then MaxR(target, env - 1.0 / release as real)
    else env
  }

  /** `phase += inc; if (phase >= 1) phase -= 1;` */
  function Wrap(p: real): real {
    if p >= 1.0 then p - 1.0 else p
  }

  /** The single subtraction is a true fractional part whenever the increment is below one cycle. */
  lemma WrapIsFrac(p: real, inc: real)
    requires 0.0 <= p < 1.0 && 0.0 <= inc < 1.0
    ensures 0.0 <= Wrap(p + inc) < 1.0
    ensures Wrap(p + inc) == Frac(p + inc)
  {
    if p + inc >= 1.0 {
      assert (p + inc).Floor == 1;
    } else {
      assert (p + inc).Floor == 0;
    }
  }

  /** Phase and envelope of an oscillator between two frames. */
  datatype Osc = Osc(phase: real, env: real)

  /** Envelope and phase parameters fixed for one `Process` call. */
  datatype Drive = Drive(target: real, inc: real, attack: int, release: int)
  {
    predicate Ok() { attack >= 1 && release >= 1 }
  }

  function OscStep(s: Osc, d: Drive): Osc
    requires d.Ok()
  {
    Osc(Wrap(s.phase + d.inc), Step(s.env, d.target, d.attack, d.release))
  }

  /** State after `k` frames of the loop. */
  function OscRun(s: Osc, d: Drive, k: nat): Osc
    requires d.Ok()
  {
    if k == 0 then s else OscStep(OscRun(s, d, k - 1), d)
  }

  /** The envelope never leaves [0, 1]. */
  lemma {:induction false} OscRunEnvInUnit(s: Osc, d: Drive, k: nat)
    requires d.Ok() && 0.0 <= s.env <= 1.0
    ensures 0.0 <= OscRun(s, d, k).env <= 1.0
  {
    if k > 0 { OscRunEnvInUnit(s, d, k - 1); }
  }

  /** The phase stays a fraction of a cycle while the increment is below one cycle. */
  lemma {:induction false} OscRunPhaseInUnit(s: Osc, d: Drive, k: nat)
    requires d.Ok() && 0.0 <= s.phase < 1.0 && 0.0 <= d.inc < 1.0
    ensures 0.0 <= OscRun(s, d, k).phase < 1.0
  {
    if k > 0 {
      OscRunPhaseInUnit(s, d, k - 1);
      WrapIsFrac(OscRun(s, d, k - 1).phase, d.inc);
    }
  }

  /** Attack toward 1: after `k` frames the envelope is `min(1, env + k/attack)`. */
  lemma {:induction false} OscRunAttack(s: Osc, d: Drive, k: nat)
    requires d.Ok() && d.target == 1.0 && 0.0 <= s.env <= 1.0
    ensures OscRun(s, d, k).env == MinR(1.0, s.env + k as real / d.attack as real)
  {
    if k > 0 {
      OscRunAttack(s, d, k - 1);
      var e := OscRun(s, d, k - 1).env;
      DivSucc(k - 1, d.attack);
      if e < 1.0 {
        assert e == s.env + (k - 1) as real / d.attack as real;
      }
    }
  }

  /** Release toward 0: after `k` frames the envelope is `max(0, env - k/release)`. */
  lemma {:induction false} OscRunRelease(s: Osc, d: Drive, k: nat)
    requires d.Ok() && d.target == 0.0 && 0.0 <= s.env <= 1.0
    ensures OscRun(s, d, k).env == MaxR(0.0, s.env - k as real / d.release as real)
  {
    if k > 0 {
      OscRunRelease(s, d, k - 1);
      var e := OscRun(s, d, k - 1).env;
      DivSucc(k - 1, d.release);
      if e > 0.0 {
        assert e == s.env - (k - 1) as real / d.release as real;
      }
    }
  }

  /** A full attack (or release) reaches its end point within `attack` (`release`) frames. */
  lemma EnvelopeSettles(s: Osc, d: Drive)
    requires d.Ok() && 0.0 <= s.env <= 1.0
    ensures d.target == 1.0 ==> OscRun(s, d, d.attack).env == 1.0
    ensures d.target == 0.0 ==> OscRun(s, d, d.release).env == 0.0
  {
    if d.target == 1.0 {
      AttackSettles(s, d);
    }
    if d.target == 0.0 {
      ReleaseSettles(s, d);
    }
  }

  lemma AttackSettles(s: Osc, d: Drive)
    requires d.Ok() && 0.0 <= s.env <= 1.0 && d.target == 1.0
    ensures OscRun(s, d, d.attack).env == 1.0
  {
    OscRunAttack(s, d, d.attack);
    UnitQuotient(d.attack);
  }

  lemma ReleaseSettles(s: Osc, d: Drive)
    requires d.Ok() && 0.0 <= s.env <= 1.0 && d.target == 0.0
    ensures OscRun(s, d, d.release).env == 0.0
  {
    OscRunRelease(s, d, d.release);
    UnitQuotient(d.release);
  }

  lemma UnitQuotient(n: int)
    requires n >= 1
    ensures n as real / n as real == 1.0
  {
  }
}
