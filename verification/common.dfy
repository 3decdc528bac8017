/** Shared vocabulary of the audio pipeline model: optional values, Unity's `Mathf`
    helpers over `real`, and the "last element of a kind wins" reading of a message pipe. */
module Common {

  /** A nullable value (`T?` in the source, or a float field primed with NaN). */
  datatype Option<+T> = None | Some(value: T) {
    function GetOr(default: T): T {
      match this
      case Some(v) => v
      case None => default
    }
  }

  /** Answer of a control-side `OnMessage` handler. */
  datatype Response = Handled | Unhandled

  // ---------------------------------------------------------------------------
  // Mathf over real numbers (samples and parameters are modelled as `real`)
  // ---------------------------------------------------------------------------

  /** `Mathf.Max(a, b)` for floats. */
  function MaxR(a: real, b: real): (r: real)
    ensures r >= a && r >= b && (r == a || r == b)
  {
    if a > b then a else b
  }

  /** `Mathf.Min(a, b)` for floats. */
  function MinR(a: real, b: real): (r: real)
    ensures r <= a && r <= b && (r == a || r == b)
  {
    if a < b then a else b
  }

  /** `Mathf.Max(a, b)` for ints. */
  function MaxI(a: int, b: int): (r: int)
    ensures r >= a && r >= b && (r == a || r == b)
  {
    if a > b then a else b
  }

  /** `Mathf.Min(a, b)` for ints. */
  function MinI(a: int, b: int): (r: int)
    ensures r <= a && r <= b && (r == a || r == b)
  {
    if a < b then a else b
  }

  /** `Mathf.Clamp(value, min, max)` for floats: the lower bound is compared first. */
  function ClampR(v: real, lo: real, hi: real): (r: real)
    ensures lo <= hi ==> lo <= r <= hi
    ensures lo <= v <= hi ==> r == v
  {
    if v < lo then lo else if v > hi then hi else v
  }

  /** `Mathf.Clamp(value, min, max)` for ints. */
  function ClampI(v: int, lo: int, hi: int): (r: int)
    ensures lo <= hi ==> lo <= r <= hi
    ensures lo <= v <= hi ==> r == v
  {
    if v < lo then lo else if v > hi then hi else v
  }

  /** `Mathf.Clamp01(value)`. */
  function Clamp01(v: real): (r: real)
    ensures 0.0 <= r <= 1.0
    ensures 0.0 <= v <= 1.0 ==> r == v
  {
    ClampR(v, 0.0, 1.0)
  }

  /** `Mathf.Abs` for floats. */
  function AbsR(x: real): (r: real)
    ensures r >= 0.0 && (r == x || r == -x)
  {
    if x < 0.0 then -x else x
  }

  /** `x - Mathf.Floor(x)`: the fractional part, always in [0, 1). */
  function Frac(x: real): (r: real)
    ensures 0.0 <= r < 1.0
    ensures (x - r).Floor as real == x - r
  {
    x - x.Floor as real
  }

  /** Product of two reals, kept behind a name so that bounds on it stay linear facts. */
  function Scale(x: real, u: real): real { x * u }

  lemma MulNonNeg(x: real, w: real)
    requires x >= 0.0 && w >= 0.0
    ensures x * w >= 0.0
  {}

  lemma MulSplit(x: real, u: real)
    ensures x * u + x * (1.0 - u) == x
  {}

  lemma MulNeg(x: real, u: real)
    ensures (-x) * u == -(x * u)
  {}

  /** `k/a` grows by `1/a` per step. */
  lemma DivSucc(k: nat, a: int)
    requires a >= 1
    ensures (k + 1) as real / a as real == k as real / a as real + 1.0 / a as real
  {}

  /** A value in [-1, 1] scaled by a gain in [0, 1] stays in [-1, 1]. */
  lemma MulUnitBounded(v: real, e: real)
    requires -1.0 <= v <= 1.0 && 0.0 <= e <= 1.0
    ensures -1.0 <= v * e <= 1.0
  {
    MulNonNeg(1.0 - v, e);
    MulNonNeg(1.0 + v, e);
  }

  /** A non-negative amount scaled by a factor in [0, 1] stays within [0, x]. */
  lemma ScaleNonNeg(x: real, u: real)
    requires x >= 0.0 && 0.0 <= u <= 1.0
    ensures 0.0 <= Scale(x, u) <= x
  {
    MulNonNeg(x, u);
    MulNonNeg(x, 1.0 - u);
    MulSplit(x, u);
  }

  /** A non-positive amount scaled by a factor in [0, 1] stays within [x, 0]. */
  lemma ScaleNonPos(x: real, u: real)
    requires x <= 0.0 && 0.0 <= u <= 1.0
    ensures x <= Scale(x, u) <= 0.0
  {
    ScaleNonNeg(-x, u);
    MulNeg(x, u);
  }

  /** `Mathf.Lerp(a, b, t)`, which clamps `t` to [0, 1] first: the result lies between `a` and `b`. */
  function Lerp(a: real, b: real, t: real): (r: real)
    ensures a <= b ==> a <= r <= b
    ensures b <= a ==> b <= r <= a
    ensures t <= 0.0 ==> r == a
    ensures t >= 1.0 ==> r == b
  {
    var u := Clamp01(t);
    if a <= b then ScaleNonNeg(b - a, u); a + Scale(b - a, u)
    else ScaleNonPos(b - a, u); a + Scale(b - a, u)
  }

  /** `x + (y - x) * u` without clamping `u`: `x` at 0, `y` at 1, between them for `u` in [0, 1]
      (the biquad's dry/wet blend and the AM gain smoothing step). */
  function Mix(x: real, y: real, u: real): (r: real)
    ensures u == 0.0 ==> r == x
    ensures u == 1.0 ==> r == y
  {
    x + (y - x) * u
  }

  lemma MixBetween(x: real, y: real, u: real)
    requires 0.0 <= u <= 1.0
    ensures MinR(x, y) <= Mix(x, y, u) <= MaxR(x, y)
  {
    if x <= y {
      ScaleNonNeg(y - x, u);
      MulSplit(y - x, u);
    } else {
      ScaleNonPos(y - x, u);
      MulSplit(y - x, u);
    }
  }

  /** `Mathf.RoundToInt`: nearest integer, halves to the even neighbour (`Math.Round`). */
  function RoundToInt(x: real): (r: int)
    ensures x - 0.5 <= r as real <= x + 0.5
  {
    var f := x.Floor;
    var d := x - f as real;
    if d < 0.5 then f
    else if d > 0.5 then f + 1
    else if f % 2 == 0 then f else f + 1
  }

  /** `math.clamp(x, a, b)` of Unity.Mathematics: `max(a, min(b, x))`, so the lower bound wins
      when the bounds cross (unlike `Mathf.Clamp`). */
  function MathClamp(x: real, a: real, b: real): (r: real)
    ensures r >= a
    ensures a <= b ==> r <= b
    ensures a <= x <= b ==> r == x
    ensures b < a ==> r == a
  {
    MaxR(a, MinR(b, x))
  }

  /** Float division. IEEE division by zero yields an infinity or NaN, which a `real` cannot hold;
      the model yields 0 there. */
  function FloatDiv(a: real, b: real): (r: real)
    ensures b != 0.0 ==> r * b == a
  {
    if b == 0.0 then 0.0 else a / b
  }

  /** The host's transcendental functions (`Mathf`/`math` `Sin`, `Cos`, `Exp`, `Pow`, `Log10`),
      supplied by the caller: the model takes their values as given and never evaluates them. */
  datatype MathLib = MathLib(
    sin: real -> real, cos: real -> real, exp: real -> real, pow: (real, real) -> real, log10: real -> real)

  /** Smallest positive subnormal float (`Mathf.Epsilon`). */
  const FloatEpsilon: real := 1.401298e-45

  /** `Mathf.Approximately(a, b)`: relative tolerance 1e-6, absolute floor 8 epsilon. */
  predicate Approximately(a: real, b: real) {
    AbsR(b - a) < MaxR(0.000001 * MaxR(AbsR(a), AbsR(b)), FloatEpsilon * 8.0)
  }

  /** `Mathf.Approximately` where the stored side may be NaN (`None`): NaN never compares. */
  predicate ApproxLast(last: Option<real>, v: real) {
    last.Some? && Approximately(last.value, v)
  }

  lemma ApproximatelyReflexive(a: real)
    ensures Approximately(a, a)
  {}

  lemma ApproxLastSame(v: real)
    ensures ApproxLast(Some(v), v) && !ApproxLast(None, v)
  {
    ApproximatelyReflexive(v);
  }

  // ---------------------------------------------------------------------------
  // Pipe draining: `foreach element ... if (element.TryGetData(out T m)) field = m`
  // ---------------------------------------------------------------------------

  /** The payload of the last element of `s` that `pick` accepts, if any. */
  function LastOf<E, T>(s: seq<E>, pick: E -> Option<T>): (r: Option<T>)
    ensures r.Some? <==> exists i :: 0 <= i < |s| && pick(s[i]).Some?
    ensures r.Some? ==> exists i :: 0 <= i < |s| && pick(s[i]) == r
                         && forall j :: i < j < |s| ==> pick(s[j]).None?
  {
    if s == [] then None
    else if pick(s[|s| - 1]).Some? then pick(s[|s| - 1])
    else
      var init := s[..|s| - 1];
      var r := LastOf(init, pick);
      assert forall i :: 0 <= i < |init| ==> init[i] == s[i];
      assert (exists i :: 0 <= i < |s| && pick(s[i]).Some?) ==> exists i :: 0 <= i < |init| && pick(init[i]).Some?;
      r
  }

  /** Draining one more element: an accepted element replaces whatever was seen before. */
  lemma {:induction false} LastOfSnoc<E, T>(s: seq<E>, e: E, pick: E -> Option<T>)
    ensures LastOf(s + [e], pick) == if pick(e).Some? then pick(e) else LastOf(s, pick)
  {
    assert (s + [e])[..|s + [e]| - 1] == s;
  }

  /** Elements the pipe carries for other nodes never change the outcome. */
  lemma {:induction false} LastOfIgnores<E, T>(s: seq<E>, t: seq<E>, pick: E -> Option<T>)
    requires forall i :: 0 <= i < |t| ==> pick(t[i]).None?
    ensures LastOf(s + t, pick) == LastOf(s, pick)
  {
    if t != [] {
      var t' := t[..|t| - 1];
      assert s + t == (s + t') + [t[|t| - 1]];
      LastOfSnoc(s + t', t[|t| - 1], pick);
      LastOfIgnores(s, t', pick);
    } else {
      assert s + t == s;
    }
  }

  // ---------------------------------------------------------------------------
  // Channel buffers: `buffer[channel, frame]`
  // ---------------------------------------------------------------------------

  /** `for (int ch = 0; ch < channels; ch++) buffer[ch, frame] = s;` */
  method FillFrame(buffer: array2<real>, frame: int, s: real)
    requires 0 <= frame < buffer.Length1
    modifies buffer
    ensures forall c, f :: 0 <= c < buffer.Length0 && 0 <= f < buffer.Length1 ==>
              buffer[c, f] == if f == frame then s else old(buffer[c, f])
  {
    var ch := 0;
    while ch < buffer.Length0
      invariant 0 <= ch <= buffer.Length0
      invariant forall c, f :: 0 <= c < buffer.Length0 && 0 <= f < buffer.Length1 ==>
                  buffer[c, f] == if f == frame && c < ch then s else old(buffer[c, f])
    {
      buffer[ch, frame] := s;
      ch := ch + 1;
    }
  }

  /** `for (int ch = 0; ch < channels; ch++) buffer[ch, frame] *= g;` */
  method ScaleFrame(buffer: array2<real>, frame: int, g: real)
    requires 0 <= frame < buffer.Length1
    modifies buffer
    ensures forall c, f :: 0 <= c < buffer.Length0 && 0 <= f < buffer.Length1 ==>
              buffer[c, f] == if f == frame then Scale(old(buffer[c, f]), g) else old(buffer[c, f])
  {
    var ch := 0;
    while ch < buffer.Length0
      invariant 0 <= ch <= buffer.Length0
      invariant forall c, f :: 0 <= c < buffer.Length0 && 0 <= f < buffer.Length1 ==>
                  buffer[c, f] == if f == frame && c < ch then Scale(old(buffer[c, f]), g) else old(buffer[c, f])
    {
      buffer[ch, frame] := Scale(buffer[ch, frame], g);
      ch := ch + 1;
    }
  }

  /** An effect without an upstream instance: every cell of the block set to 0. */
  method Silence(buffer: array2<real>)
    modifies buffer
    ensures forall c, f :: 0 <= c < buffer.Length0 && 0 <= f < buffer.Length1 ==> buffer[c, f] == 0.0
  {
    var frame := 0;
    while frame < buffer.Length1
      invariant 0 <= frame <= buffer.Length1
      invariant forall c, f :: 0 <= c < buffer.Length0 && 0 <= f < frame ==> buffer[c, f] == 0.0
    {
      FillFrame(buffer, frame, 0.0);
      frame := frame + 1;
    }
  }

  /** Column `frame` of the buffer. */
  ghost function Column(buffer: array2<real>, frame: int): (r: seq<real>)
    reads buffer
    requires 0 <= frame < buffer.Length1
    ensures |r| == buffer.Length0
    ensures forall ch :: 0 <= ch < |r| ==> r[ch] == buffer[ch, frame]
  {
    seq(buffer.Length0, ch requires 0 <= ch < buffer.Length0 reads buffer => buffer[ch, frame])
  }

  /** The input columns (`cols[f][ch] == buffer[ch, f]`). */
  ghost function Columns(buffer: array2<real>): (r: seq<seq<real>>)
    reads buffer
    ensures |r| == buffer.Length1
    ensures forall f :: 0 <= f < |r| ==> |r[f]| == buffer.Length0
    ensures forall f, ch :: 0 <= f < |r| && 0 <= ch < buffer.Length0 ==> r[f][ch] == buffer[ch, f]
  {
    seq(buffer.Length1, f requires 0 <= f < buffer.Length1 reads buffer =>
      seq(buffer.Length0, ch requires 0 <= ch < buffer.Length0 reads buffer => buffer[ch, f]))
  }

  /** What an effect works on: the block its upstream instance rendered when it has one, and
      silence otherwise. */
  function Incoming(cols: seq<seq<real>>, hasUpstream: bool): (r: seq<seq<real>>)
    ensures |r| == |cols|
    ensures forall f :: 0 <= f < |r| ==> |r[f]| == |cols[f]|
    ensures forall f, ch :: 0 <= f < |r| && 0 <= ch < |r[f]| ==> r[f][ch] == if hasUpstream then cols[f][ch] else 0.0
  {
    if hasUpstream then cols
    else seq(|cols|, f requires 0 <= f < |cols| => seq(|cols[f]|, _ => 0.0))
  }
}
