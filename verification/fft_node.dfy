/** `FFTAnalyzeNode`: a pass-through analyzer. It mixes the upstream's output to mono into a ring
    of `windowSize` samples, and once per hop (and at most `maxSendHz` times a second) runs a bank
    of Goertzel filters at `binCount` log-spaced frequencies between `minHz` and `maxHz` over the
    ring, oldest sample first, and sends the powers to its control half, which publishes them on
    the `SpectrumBus`. */
module FFTAnalyzeNode {
  import opened Common
  import opened Envelope
  import opened Messages
  import opened Audio

  // ---------------------------------------------------------------------------
  // `ToPow2`: the largest power of two not above `v`
  // ---------------------------------------------------------------------------

  ghost predicate IsPow2(p: int)
    decreases p
  {
    p == 1 || (p > 1 && p % 2 == 0 && IsPow2(p / 2))
  }

  /** The largest power of two not above `v`, and 1 when `v < 2`. */
  function Pow2Below(v: int): (r: int)
    ensures r >= 1 && (v >= 1 ==> r <= v)
    decreases v
  {
    if v < 2 then 1 else 2 * Pow2Below(v / 2)
  }

  /** `Pow2Below(v)` is a power of two `p` with `p <= v < 2p` (for `v >= 1`). */
  lemma {:induction false} Pow2BelowIsFloor(v: int)
    ensures IsPow2(Pow2Below(v))
    ensures v >= 1 ==> v < 2 * Pow2Below(v)
    decreases v
  {
    if v >= 2 {
      Pow2BelowIsFloor(v / 2);
    }
  }

  /** ... and the only one: any power of two `p` with `p <= v < 2p` is `Pow2Below(v)`. */
  lemma {:induction false} Pow2BelowUnique(p: int, v: int)
    requires IsPow2(p) && p <= v < 2 * p
    ensures p == Pow2Below(v)
    decreases p
  {
    if p > 1 {
      Pow2BelowUnique(p / 2, v / 2);
    }
  }

  /** The source's doubling loop; in 32-bit arithmetic `p << 1` overflows once `p` reaches 2^30,
      after which the loop never ends, so `v` must stay below 2^30 (callers pass at most 4096). */
  method ToPow2(v: int) returns (p: int)
    requires v < 0x4000_0000
    ensures p == Pow2Below(v)
  {
    p := 1;
    while p * 2 <= v
      invariant IsPow2(p) && (p == 1 || p <= v)
      decreases v - p
    {
      p := p * 2;
    }
    if v >= 1 {
      Pow2BelowUnique(p, v);
    }
  }

  // ---------------------------------------------------------------------------
  // Parameter normalisation (constructor and `Update`)
  // ---------------------------------------------------------------------------

  /** The ranges the processor keeps its parameters in. */
  ghost predicate InRange(t: FFTAnalyzeMessage) {
    16 <= t.binCount <= 128 && t.minHz >= 1.0 && t.maxHz >= t.minHz + 1.0
    && IsPow2(t.windowSize) && 128 <= t.windowSize <= 4096
    && 1 <= t.hopDiv <= 8 && 10.0 <= t.maxSendHz <= 120.0
  }

  /** A message as the processor stores it: bins clamped to [16, 128], `minHz` floored at 1,
      `maxHz` at least 1 Hz above the new `minHz`, the window clamped to [128, 4096] and rounded
      down to a power of two, the hop divisor clamped to [1, 8], the send rate to [10, 120]. */
  function Normalized(m: FFTAnalyzeMessage): (r: FFTAnalyzeMessage)
    ensures r.isActive == m.isActive && 16 <= r.binCount <= 128 && 1 <= r.hopDiv <= 8
    ensures r.minHz >= 1.0 && r.maxHz >= r.minHz + 1.0 && 10.0 <= r.maxSendHz <= 120.0
    ensures 16 <= m.binCount <= 128 ==> r.binCount == m.binCount
  {
    var minHz := MaxR(1.0, m.minHz);
    var w := Pow2Below(ClampI(m.windowSize, 128, 4096));
    FFTAnalyzeMessage(m.isActive, ClampI(m.binCount, 16, 128), minHz, MaxR(minHz + 1.0, m.maxHz),
                      w, ClampI(m.hopDiv, 1, 8), ClampR(m.maxSendHz, 10.0, 120.0))
  }

  /** Every stored setting is in range, whatever the message held. */
  lemma NormalizedInRange(m: FFTAnalyzeMessage)
    ensures InRange(Normalized(m))
  {
    var c := ClampI(m.windowSize, 128, 4096);
    Pow2BelowIsFloor(c);
    Pow2BelowMonotone(128, c);
    assert Pow2Below(1) == 1 && Pow2Below(2) == 2 && Pow2Below(4) == 4 && Pow2Below(8) == 8;
    assert Pow2Below(16) == 16 && Pow2Below(32) == 32 && Pow2Below(64) == 64 && Pow2Below(128) == 128;
  }

  /** A window size that already is a power of two in [128, 4096] is kept. */
  lemma NormalizedKeepsWindow(m: FFTAnalyzeMessage)
    requires 128 <= m.windowSize <= 4096 && IsPow2(m.windowSize)
    ensures Normalized(m).windowSize == m.windowSize
  {
    Pow2BelowUnique(m.windowSize, m.windowSize);
  }

  lemma {:induction false} Pow2BelowMonotone(a: int, b: int)
    requires a <= b
    ensures Pow2Below(a) <= Pow2Below(b)
    decreases b
  {
    if a >= 2 {
      Pow2BelowMonotone(a / 2, b / 2);
    }
  }

  /** Samples between two analyses: the window over the hop divisor, at least 1. */
  function HopSize(windowSize: int, hopDiv: int): (r: int)
    ensures r >= 1
    ensures windowSize >= 1 ==> r <= windowSize
  {
    if windowSize >= 1 then DivAtMost(windowSize, MaxI(1, hopDiv)); MaxI(1, windowSize / MaxI(1, hopDiv))
    else MaxI(1, windowSize / MaxI(1, hopDiv))
  }

  lemma DivAtMost(a: int, b: int)
    requires a >= 0 && b >= 1
    ensures a / b <= a
  {
    var q := a / b;
    assert a == q * b + a % b;
    MulAwayFromZero(q, b);
    assert q >= 0;
    if q > 0 {
      MulAwayFromZero(b - 1, q);
    }
  }

  /** Seconds between two sends: `1 / max(1, maxSendHz)`. */
  function SendInterval(maxSendHz: real): (r: real)
    ensures r > 0.0 && r <= 1.0
    ensures maxSendHz >= 1.0 ==> r * maxSendHz == 1.0
  {
    1.0 / MaxR(1.0, maxSendHz)
  }

  // ---------------------------------------------------------------------------
  // Mono mix and ring buffer
  // ---------------------------------------------------------------------------

  /** The channels of one frame summed in channel order. */
  function Sum(col: seq<real>): real
    decreases |col|
  {
    if col == [] then 0.0 else Sum(col[..|col| - 1]) + col[|col| - 1]
  }

  /** The mono sample of one frame: the channel sum times `1 / max(1, channels)`. */
  function Mono(col: seq<real>): real {
    Scale(Sum(col), 1.0 / MaxI(1, |col|) as real)
  }

  /** A frame whose channels all hold `x` mixes down to `x`. */
  lemma MonoOfEqualChannels(col: seq<real>, x: real)
    requires |col| >= 1 && forall ch :: 0 <= ch < |col| ==> col[ch] == x
    ensures Mono(col) == x
  {
    SumOfEqual(col, x);
  }

  lemma {:induction false} SumOfEqual(col: seq<real>, x: real)
    requires forall ch :: 0 <= ch < |col| ==> col[ch] == x
    ensures Sum(col) == |col| as real * x
    decreases |col|
  {
    if col != [] {
      SumOfEqual(col[..|col| - 1], x);
    }
  }

  /** The ring and its write cursor. */
  datatype Ring = Ring(window: seq<real>, pos: int)
  {
    ghost predicate Ok() { 0 <= pos < |window| }
  }

  /** One sample written at the cursor; the cursor advances and wraps to 0 at the end. */
  function RingWrite(r: Ring, x: real): (r': Ring)
    requires r.Ok()
    ensures r'.Ok() && |r'.window| == |r.window|
  {
    Ring(r.window[r.pos := x], if r.pos + 1 >= |r.window| then 0 else r.pos + 1)
  }

  /** The ring after the samples `xs`, written in order. */
  function RingRun(r: Ring, xs: seq<real>): (r': Ring)
    requires r.Ok()
    ensures r'.Ok() && |r'.window| == |r.window|
    decreases |xs|
  {
    if xs == [] then r else RingWrite(RingRun(r, xs[..|xs| - 1]), xs[|xs| - 1])
  }

  /** The cursor advances by the number of samples, modulo the window. */
  lemma {:induction false} RingRunCursor(r: Ring, xs: seq<real>)
    requires r.Ok()
    ensures RingRun(r, xs).pos == (r.pos + |xs|) % |r.window|
    decreases |xs|
  {
    if xs != [] {
      RingRunCursor(r, xs[..|xs| - 1]);
      ModStep(r.pos + |xs| - 1, |r.window|);
    }
  }

  /** The last `|window|` samples written are all in the ring, each at the slot the cursor pointed
      to when it was written. */
  lemma {:induction false} RingRunHoldsLatest(r: Ring, xs: seq<real>, i: int)
    requires r.Ok() && 0 <= i < |xs| && |xs| - i <= |r.window|
    ensures RingRun(r, xs).window[(r.pos + i) % |r.window|] == xs[i]
    decreases |xs|
  {
    var n := |r.window|;
    var k := |xs| - 1;
    RingRunCursor(r, xs[..k]);
    if i < k {
      RingRunHoldsLatest(r, xs[..k], i);
      DistinctSlots(r.pos, i, k, n);
    }
  }

  /** Two writes less than a window apart land on different slots. */
  lemma DistinctSlots(pos: int, i: int, k: int, n: int)
    requires 0 <= pos < n && 0 <= i < k && k - i < n
    ensures (pos + i) % n != (pos + k) % n
  {
    var a := pos + i;
    var q, r := a / n, a % n;
    ModUnique(a, n, q, r);
    var d := k - i;
    if r + d < n {
      ModUnique(a + d, n, q, r + d);
    } else {
      ModUnique(a + d, n, q + 1, r + d - n);
    }
  }

  /** `a mod n` and `a / n` are the only remainder and quotient. */
  lemma ModUnique(a: int, n: int, q: int, r: int)
    requires n > 0 && 0 <= r < n && a == q * n + r
    ensures a % n == r && a / n == q
  {
    var q', r' := a / n, a % n;
    assert a == q' * n + r';
    assert (q - q') * n == r' - r;
    MulAwayFromZero(q - q', n);
  }

  /** A non-zero multiple of `n` is at least `n` away from 0. */
  lemma MulAwayFromZero(d: int, n: int)
    requires n > 0
    ensures d >= 1 ==> d * n >= n
    ensures d <= -1 ==> d * n <= -n
  {
    if d >= 1 {
      assert (d - 1) * n >= 0;
    } else if d <= -1 {
      assert (-d - 1) * n >= 0;
    }
  }

  /** The cursor step `p + 1, wrapped to 0 at n` is one more modulo `n`. */
  lemma ModStep(a: int, n: int)
    requires n > 0
    ensures (if a % n + 1 >= n then 0 else a % n + 1) == (a + 1) % n
  {
    var q, r := a / n, a % n;
    if r + 1 < n {
      ModUnique(a + 1, n, q, r + 1);
    } else {
      ModUnique(a + 1, n, q + 1, 0);
    }
  }

  /** The Goertzel read order: from the cursor (the oldest sample) round to the newest. */
  function ReadOrder(r: Ring): (s: seq<real>)
    requires r.Ok()
    ensures |s| == |r.window|
  {
    r.window[r.pos..] + r.window[..r.pos]
  }

  /** Reading from the cursor visits slot `(pos + i) mod n` at step `i`... */
  lemma ReadOrderIndex(r: Ring, i: int)
    requires r.Ok() && 0 <= i < |r.window|
    ensures ReadOrder(r)[i] == r.window[(r.pos + i) % |r.window|]
  {
    var n := |r.window|;
    if r.pos + i < n {
      ModUnique(r.pos + i, n, 0, r.pos + i);
    } else {
      ModUnique(r.pos + i, n, 1, r.pos + i - n);
    }
  }

  /** ... and so every slot exactly once. */
  lemma ReadOrderVisitsAll(r: Ring)
    requires r.Ok()
    ensures multiset(ReadOrder(r)) == multiset(r.window)
  {
    assert r.window == r.window[..r.pos] + r.window[r.pos..];
  }

  // ---------------------------------------------------------------------------
  // Goertzel bank
  // ---------------------------------------------------------------------------

  /** `q0 = coeff * q1 - q2 + x; q2 = q1; q1 = q0`. */
  function GoertzelStep(q: (real, real), coeff: real, x: real): (real, real) {
    (coeff * q.0 - q.1 + x, q.0)
  }

  /** `(q1, q2)` after the samples `xs`, from `(0, 0)`. */
  function GoertzelRun(xs: seq<real>, coeff: real): (real, real)
    decreases |xs|
  {
    if xs == [] then (0.0, 0.0) else GoertzelStep(GoertzelRun(xs[..|xs| - 1], coeff), coeff, xs[|xs| - 1])
  }

  /** `q1^2 + q2^2 - coeff q1 q2`. */
  function Power(q: (real, real), coeff: real): real {
    q.0 * q.0 + q.1 * q.1 - coeff * q.0 * q.1
  }

  /** A silent window leaves the filter at rest, whatever its frequency. */
  lemma {:induction false} SilenceStaysAtRest(xs: seq<real>, coeff: real)
    requires forall i :: 0 <= i < |xs| ==> xs[i] == 0.0
    ensures GoertzelRun(xs, coeff) == (0.0, 0.0)
    decreases |xs|
  {
    if xs != [] {
      SilenceStaysAtRest(xs[..|xs| - 1], coeff);
      var q := GoertzelRun(xs[..|xs| - 1], coeff);
      assert q == (0.0, 0.0) && xs[|xs| - 1] == 0.0;
      assert coeff * 0.0 == 0.0;
      assert GoertzelStep((0.0, 0.0), coeff, 0.0) == (0.0, 0.0);
    }
  }

  /** The centre of bin `b`: `10^lerp(log10 minHz, log10 maxHz, b / max(1, binCount - 1))`. */
  function BinHz(b: int, t: FFTAnalyzeMessage, m: MathLib): real {
    m.pow(10.0, Lerp(m.log10(t.minHz), m.log10(t.maxHz), b as real * (1.0 / MaxI(1, t.binCount - 1) as real)))
  }

  /** `2 cos(2 Pi hz / sr)`. */
  function BinCoeff(b: int, t: FFTAnalyzeMessage, sampleRate: int, m: MathLib): real {
    2.0 * m.cos(FloatDiv(2.0 * Pi * BinHz(b, t, m), sampleRate as real))
  }

  /** The first bin sits at `minHz` and, with two or more bins, the last at `maxHz` (for a `pow`
      and `log10` that invert each other). */
  lemma BankSpansRange(t: FFTAnalyzeMessage, m: MathLib)
    requires forall x :: x > 0.0 ==> m.pow(10.0, m.log10(x)) == x
    requires t.minHz >= 1.0 && t.maxHz >= 1.0 && t.binCount >= 2
    ensures BinHz(0, t, m) == t.minHz
    ensures BinHz(t.binCount - 1, t, m) == t.maxHz
  {
    var k := t.binCount - 1;
    assert k as real * (1.0 / k as real) == 1.0;
  }

  /** The powers the bank sends: one per bin, each from a pass over the whole ring in read order. */
  function Spectrum(r: Ring, t: FFTAnalyzeMessage, sampleRate: int, m: MathLib): (s: seq<real>)
    requires r.Ok()
    ensures |s| == MaxI(0, t.binCount)
    ensures forall b :: 0 <= b < |s| ==>
              s[b] == Power(GoertzelRun(ReadOrder(r), BinCoeff(b, t, sampleRate, m)), BinCoeff(b, t, sampleRate, m))
  {
    seq(MaxI(0, t.binCount), b requires 0 <= b =>
      Power(GoertzelRun(ReadOrder(r), BinCoeff(b, t, sampleRate, m)), BinCoeff(b, t, sampleRate, m)))
  }

  /** With `|coeff| <= 2` the Goertzel power is never negative: it is at least `(q1 - q2)^2` or
      `(q1 + q2)^2`, by the sign of `q1 q2`. */
  lemma PowerNonNegative(q: (real, real), coeff: real)
    requires -2.0 <= coeff <= 2.0
    ensures Power(q, coeff) >= 0.0
  {
    var a, b := q.0, q.1;
    assert Power(q, coeff) == a * a + b * b - coeff * (a * b);
    CrossTermBound(coeff, a * b);
    if a * b >= 0.0 {
      SquareOfDifference(a, b);
    } else {
      SquareOfDifference(a, -b);
    }
  }

  lemma CrossTermBound(c: real, p: real)
    requires -2.0 <= c <= 2.0
    ensures p >= 0.0 ==> c * p <= 2.0 * p
    ensures p < 0.0 ==> c * p <= -2.0 * p
  {
    if p >= 0.0 {
      assert (2.0 - c) * p >= 0.0;
    } else {
      assert (c + 2.0) * -p >= 0.0;
    }
  }

  lemma SquareOfDifference(a: real, b: real)
    ensures a * a + b * b - 2.0 * (a * b) >= 0.0
  {
    var d := a - b;
    assert d * d == a * a + b * b - 2.0 * (a * b);
  }

  /** For a `cos` within [-1, 1], every power the bank sends is non-negative, so the histogram's
      logarithm of it is defined. */
  lemma SpectrumNonNegative(r: Ring, t: FFTAnalyzeMessage, sampleRate: int, m: MathLib)
    requires r.Ok() && forall x :: -1.0 <= m.cos(x) <= 1.0
    ensures forall b :: 0 <= b < |Spectrum(r, t, sampleRate, m)| ==> Spectrum(r, t, sampleRate, m)[b] >= 0.0
  {
    forall b | 0 <= b < |Spectrum(r, t, sampleRate, m)|
      ensures Spectrum(r, t, sampleRate, m)[b] >= 0.0
    {
      var c := BinCoeff(b, t, sampleRate, m);
      PowerNonNegative(GoertzelRun(ReadOrder(r), c), c);
    }
  }

  /** A silent ring gives a spectrum of zeros. */
  lemma SilentRingHasNoPower(r: Ring, t: FFTAnalyzeMessage, sampleRate: int, m: MathLib)
    requires r.Ok() && forall i :: 0 <= i < |r.window| ==> r.window[i] == 0.0
    ensures forall b :: 0 <= b < |Spectrum(r, t, sampleRate, m)| ==> Spectrum(r, t, sampleRate, m)[b] == 0.0
  {
    var xs := ReadOrder(r);
    forall i | 0 <= i < |xs|
      ensures xs[i] == 0.0
    {
      ReadOrderIndex(r, i);
    }
    forall c: real
      ensures GoertzelRun(xs, c) == (0.0, 0.0)
    {
      SilenceStaysAtRest(xs, c);
    }
  }

  // ---------------------------------------------------------------------------
  // The bin list as written: `FixedList512Bytes<float>`
  // ---------------------------------------------------------------------------

  /** Floats a `FixedList512Bytes<float>` holds: 512 bytes less the 2-byte length, aligned to 4. */
  const FixedListCapacity: int := 127

  /** `outBins.Add(power)`: fails once the list is full. */
  function AddAsWritten(list: seq<real>, x: real): (r: Option<seq<real>>)
    ensures r.Some? <==> |list| < FixedListCapacity
    ensures r.Some? ==> r.value == list + [x]
  {
    if |list| < FixedListCapacity then Some(list + [x]) else None
  }

  /** Adding the bank's powers one by one, as the source does. */
  function CollectAsWritten(powers: seq<real>): Option<seq<real>>
    decreases |powers|
  {
    if powers == [] then Some([])
    else match CollectAsWritten(powers[..|powers| - 1])
         case None => None
         case Some(list) => AddAsWritten(list, powers[|powers| - 1])
  }

  /** The list takes the powers of up to 127 bins and fails on more. */
  lemma {:induction false} CollectAsWrittenFits(powers: seq<real>)
    ensures |powers| <= FixedListCapacity ==> CollectAsWritten(powers) == Some(powers)
    ensures |powers| > FixedListCapacity ==> CollectAsWritten(powers) == None
    decreases |powers|
  {
    if powers != [] {
      var init := powers[..|powers| - 1];
      CollectAsWrittenFits(init);
      assert init + [powers[|powers| - 1]] == powers;
    }
  }

  /** The bin count the clamp allows at its top, 128, overflows the list: a message asking for
      128 bins (or more) makes every analysis pass fail on its last `Add`. */
  lemma BinCountOverflowsList(msg: FFTAnalyzeMessage, powers: seq<real>)
    requires msg.binCount >= 128 && |powers| == Normalized(msg).binCount
    ensures Normalized(msg).binCount == 128
    ensures CollectAsWritten(powers) == None
  {
    CollectAsWrittenFits(powers);
  }

  // ---------------------------------------------------------------------------
  // `SpectrumBus`: the latest frame per analyzer id
  // ---------------------------------------------------------------------------

  /** `SpectrumBus.Entry`. */
  datatype Entry = Entry(dspTime: real, binCount: int, bins: seq<real>)

  /** `Publish` on the map: a missing entry, or one of another length, is replaced by a zeroed one
      of the frame's bin count; then the first `min(binCount, |bins|)` values and the time are
      copied in. */
  function Published(entries: map<int, Entry>, frame: SpectrumFrame): (r: map<int, Entry>)
    requires frame.binCount >= 0
    ensures r.Keys == entries.Keys + {frame.analyzerId}
    ensures forall id :: id in entries && id != frame.analyzerId ==> r[id] == entries[id]
    ensures r[frame.analyzerId].dspTime == frame.dspTime
    ensures |r[frame.analyzerId].bins| == frame.binCount
    ensures var n := MinI(frame.binCount, |frame.bins|);
            r[frame.analyzerId].bins[..n] == frame.bins[..n]
    ensures var n := MinI(frame.binCount, |frame.bins|);
            r[frame.analyzerId].bins[n..]
              == if frame.analyzerId !in entries || |entries[frame.analyzerId].bins| != frame.binCount
                 then seq(frame.binCount - n, _ => 0.0)
                 else entries[frame.analyzerId].bins[n..]
  {
    var e := if frame.analyzerId !in entries || |entries[frame.analyzerId].bins| != frame.binCount
             then Entry(0.0, frame.binCount, seq(frame.binCount, _ => 0.0))
             else entries[frame.analyzerId];
    var n := MinI(frame.binCount, |frame.bins|);
    var bins := frame.bins[..n] + e.bins[n..];
    entries[frame.analyzerId := Entry(frame.dspTime, e.binCount, bins)]
  }

  /** `SpectrumBus`: a process-wide map guarded by a lock. */
  class SpectrumBus {
    var entries: map<int, Entry>

    constructor ()
      ensures entries == map[]
    {
      entries := map[];
    }

    /** `TryGetLatest(id, out bins, out dspTime)`: the latest frame's bins and time, or
        `(false, null, 0)` for an id nothing was published for. */
    function TryGetLatest(id: int): (r: (bool, Option<seq<real>>, real))
      reads this
      ensures r.0 <==> id in entries
      ensures !r.0 ==> r.1 == None && r.2 == 0.0
      ensures r.0 ==> r.1 == Some(entries[id].bins) && r.2 == entries[id].dspTime
    {
      if id in entries then (true, Some(entries[id].bins), entries[id].dspTime) else (false, None, 0.0)
    }

    /** `Publish(frame)`. */
    method Publish(frame: SpectrumFrame)
      requires frame.binCount >= 0
      modifies this
      ensures entries == Published(old(entries), frame)
      ensures var (found, bins, time) := TryGetLatest(frame.analyzerId);
              found && time == frame.dspTime && bins.Some? && |bins.value| == frame.binCount
              && (|frame.bins| >= frame.binCount ==> bins.value == frame.bins[..frame.binCount])
    {
      var e: Entry;
      if frame.analyzerId !in entries || |entries[frame.analyzerId].bins| != frame.binCount {
        e := Entry(0.0, frame.binCount, seq(frame.binCount, _ => 0.0));
      } else {
        e := entries[frame.analyzerId];
      }
      var n := MinI(frame.binCount, |frame.bins|);
      var bins := CopyPrefix(frame.bins, e.bins, n);
      assert bins == bins[..n] + bins[n..] == frame.bins[..n] + e.bins[n..];
      entries := entries[frame.analyzerId := Entry(frame.dspTime, e.binCount, bins)];
    }
  }

  /** `Array.Copy(src, dst, n)` on values: the first `n` values of `dst` replaced by those of `src`. */
  method CopyPrefix(src: seq<real>, dst: seq<real>, n: int) returns (r: seq<real>)
    requires 0 <= n <= |src| && n <= |dst|
    ensures |r| == |dst| && r[..n] == src[..n] && r[n..] == dst[n..]
  {
    r := dst;
    var i := 0;
    while i < n
      invariant 0 <= i <= n && |r| == |dst|
      invariant r == src[..i] + dst[i..]
    {
      r := r[i := src[i]];
      i := i + 1;
    }
    assert r[..n] == src[..n];
  }

  /** After a publish, the reader sees that frame's time and its bins. */
  lemma PublishedIsLatest(entries: map<int, Entry>, frame: SpectrumFrame)
    requires frame.binCount >= 0 && |frame.bins| >= frame.binCount
    ensures var e := Published(entries, frame)[frame.analyzerId];
            e.dspTime == frame.dspTime && e.bins == frame.bins[..frame.binCount]
  {
    var e := Published(entries, frame)[frame.analyzerId];
    assert |e.bins| == frame.binCount;
  }

  /** `Control.Update`: every `SpectrumFrame` in the pipe is published, in order. */
  function PublishAll(entries: map<int, Entry>, pipe: seq<Message>): map<int, Entry>
    decreases |pipe|
  {
    if pipe == [] then entries
    else
      var e := PublishAll(entries, pipe[..|pipe| - 1]);
      var last := pipe[|pipe| - 1];
      if last.SpectrumMsg? && last.spectrum.binCount >= 0 then Published(e, last.spectrum) else e
  }

  /** An id that no frame in the pipe names keeps its entry (or its absence). */
  lemma {:induction false} PublishAllKeepsOthers(entries: map<int, Entry>, pipe: seq<Message>, id: int)
    requires forall i :: 0 <= i < |pipe| && pipe[i].SpectrumMsg? ==> pipe[i].spectrum.analyzerId != id
    ensures (id in PublishAll(entries, pipe)) == (id in entries)
    ensures id in entries ==> PublishAll(entries, pipe)[id] == entries[id]
    decreases |pipe|
  {
    if pipe != [] {
      PublishAllKeepsOthers(entries, pipe[..|pipe| - 1], id);
    }
  }

  /** `Control.Update` over the bus. Frames come from the analyzer, whose bin counts are at least
      16; a negative count would make `new float[...]` throw. */
  method ControlUpdate(bus: SpectrumBus, pipe: seq<Message>)
    requires forall i :: 0 <= i < |pipe| && pipe[i].SpectrumMsg? ==> pipe[i].spectrum.binCount >= 0
    modifies bus
    ensures bus.entries == PublishAll(old(bus.entries), pipe)
  {
    var i := 0;
    while i < |pipe|
      invariant 0 <= i <= |pipe|
      invariant bus.entries == PublishAll(old(bus.entries), pipe[..i])
    {
      assert pipe[..i + 1][..i] == pipe[..i];
      if pipe[i].SpectrumMsg? {
        bus.Publish(pipe[i].spectrum);
      }
      i := i + 1;
    }
    assert pipe[..|pipe|] == pipe;
  }

  // ---------------------------------------------------------------------------
  // The realtime processor
  // ---------------------------------------------------------------------------

  /** The time stamp a fresh processor treats as "never sent". */
  const NeverSent: real := -9999.0

  class Processor {
    const analyzerId: int
    const hasUpstream: bool
    const upstream: Instance
    var isActive: bool
    var binCount: int
    var minHz: real
    var maxHz: real
    var windowSize: int
    var hopDiv: int
    var maxSendHz: real
    var lastSentDspTime: real
    /** `setup.sampleRate`; 0 until `Configure`. */
    var sampleRate: int
    /** The ring (`window`), and whether it is allocated (`window.IsCreated`). */
    var window: array<real>
    var created: bool
    var writePos: int
    var hopCounter: int

    function Settings(): FFTAnalyzeMessage
      reads this
    {
      FFTAnalyzeMessage(isActive, binCount, minHz, maxHz, windowSize, hopDiv, maxSendHz)
    }

    ghost predicate Valid()
      reads this
    {
      InRange(Settings()) && 0 <= writePos && (created ==> writePos < window.Length) && hopCounter >= 0
    }

    /** The ring a `Process` call works on: allocated, and of the current window size. */
    predicate Ready()
      reads this
    {
      created && window.Length == windowSize
    }

    ghost function RingState(): Ring
      reads this, window
    {
      Ring(window[..], writePos)
    }

    /** `Allocate(...)`: normalised settings, no ring yet, never sent. */
    constructor (id: int, upstreamExists: bool, upstreamInstance: Instance, initial: FFTAnalyzeMessage)
      ensures Valid() && !created && writePos == 0 && hopCounter == 0
      ensures analyzerId == id && hasUpstream == upstreamExists && upstream == upstreamInstance
      ensures Settings() == Normalized(initial)
      ensures lastSentDspTime == NeverSent && sampleRate == 0
    {
      analyzerId := id;
      hasUpstream := upstreamExists;
      upstream := upstreamInstance;
      isActive := initial.isActive;
      binCount := ClampI(initial.binCount, 16, 128);
      var lo := MaxR(1.0, initial.minHz);
      var w := ToPow2(ClampI(initial.windowSize, 128, 4096));
      minHz := lo;
      maxHz := MaxR(lo + 1.0, initial.maxHz);
      windowSize := w;
      hopDiv := ClampI(initial.hopDiv, 1, 8);
      maxSendHz := ClampR(initial.maxSendHz, 10.0, 120.0);
      lastSentDspTime := NeverSent;
      sampleRate := 0;
      window := new real[0];
      created := false;
      writePos := 0;
      hopCounter := 0;
      NormalizedInRange(initial);
    }

    /** Drains the pipe: every `FFTAnalyzeMessage` overwrites all settings, normalised, so the last
        one wins. The ring is not touched, so a new window size leaves it unusable until the next
        `Configure`. */
    method Update(pipe: seq<Message>)
      requires Valid()
      modifies this`isActive, this`binCount, this`minHz, this`maxHz, this`windowSize, this`hopDiv, this`maxSendHz
      ensures Valid()
      ensures Settings() == match LastOf(pipe, AsAnalyze)
                            case Some(m) => Normalized(m)
                            case None => old(Settings())
    {
      var i := 0;
      while i < |pipe|
        invariant 0 <= i <= |pipe| && Valid()
        invariant Settings() == match LastOf(pipe[..i], AsAnalyze)
                                case Some(m) => Normalized(m)
                                case None => old(Settings())
      {
        LastOfSnoc(pipe[..i], pipe[i], AsAnalyze);
        assert pipe[..i + 1] == pipe[..i] + [pipe[i]];
        if pipe[i].AnalyzeMsg? {
          Apply(pipe[i].analyze);
        }
        i := i + 1;
      }
      assert pipe[..|pipe|] == pipe;
    }

    /** The body of the drain loop for one message: every field overwritten, normalised. */
    method Apply(msg: FFTAnalyzeMessage)
      requires Valid()
      modifies this`isActive, this`binCount, this`minHz, this`maxHz, this`windowSize, this`hopDiv, this`maxSendHz
      ensures Valid() && Settings() == Normalized(msg)
    {
      ghost var n := Normalized(msg);
      NormalizedInRange(msg);
      var w := ToPow2(ClampI(msg.windowSize, 128, 4096));
      assert w == n.windowSize;
      isActive := msg.isActive;
      binCount := ClampI(msg.binCount, 16, 128);
      minHz := MaxR(1.0, msg.minHz);
      maxHz := MaxR(minHz + 1.0, msg.maxHz);
      windowSize := w;
      hopDiv := ClampI(msg.hopDiv, 1, 8);
      maxSendHz := ClampR(msg.maxSendHz, 10.0, 120.0);
      assert Settings() == n;
    }

    /** Passes the block through, mixes it into the ring, and once a hop has gathered and the send
        interval has passed, sends a spectrum of the ring to the control half. Inactive, or with
        no ring of the current size, it only passes the block through. */
    method Process(buffer: array2<real>, dspTime: real, m: MathLib) returns (frames: int, sent: Option<SpectrumFrame>)
      requires Valid()
      modifies this`writePos, this`hopCounter, this`lastSentDspTime, window, buffer
      ensures Valid() && frames == buffer.Length1
      ensures forall ch, f :: 0 <= ch < buffer.Length0 && 0 <= f < buffer.Length1 ==>
                buffer[ch, f] == Incoming(old(Columns(buffer)), hasUpstream)[f][ch]
      ensures !(isActive && Ready()) ==>
                window[..] == old(window[..]) && writePos == old(writePos) && hopCounter == old(hopCounter)
                && lastSentDspTime == old(lastSentDspTime) && sent == None
      ensures isActive && Ready() ==>
                RingState() == RingRun(Ring(old(window[..]), old(writePos)),
                                       MonoColumns(Incoming(old(Columns(buffer)), hasUpstream)))
      ensures isActive && Ready() ==> Hopped(old(hopCounter), old(lastSentDspTime), frames, dspTime, sent)
      ensures sent.Some? ==> sent.value == SpectrumFrame(analyzerId, dspTime, binCount, Spectrum(RingState(), Settings(), sampleRate, m))
    {
      frames := buffer.Length1;
      ghost var input := Incoming(Columns(buffer), hasUpstream);
      if !hasUpstream {
        Silence(buffer);
      }
      assert forall ch, f :: 0 <= ch < buffer.Length0 && 0 <= f < buffer.Length1 ==> buffer[ch, f] == input[f][ch];
      sent := None;
      if !isActive {
        return;
      }
      if !created || window.Length != windowSize {
        return;
      }
      MixToRing(buffer, input);
      sent := Analyze(frames, dspTime, m);
    }

    /** The hop and throttle rule: `frames` more samples gathered; once a hop is complete one hop
        is taken off the counter, and a spectrum is sent exactly when the send interval has also
        passed since the last one. */
    ghost predicate Hopped(hopCounter0: int, lastSent0: real, frames: int, dspTime: real, sent: Option<SpectrumFrame>)
      reads this
    {
      var gathered := hopCounter0 + frames;
      var hop := HopSize(windowSize, hopDiv);
      hopCounter == (if gathered >= hop then gathered - hop else gathered)
      && (sent.Some? <==> gathered >= hop && dspTime - lastSent0 >= SendInterval(maxSendHz))
      && lastSentDspTime == (if sent.Some? then dspTime else lastSent0)
    }

    /** Steps 3 to 5 of `Process`: the hop counter, the send throttle and the spectrum. */
    method Analyze(frames: int, dspTime: real, m: MathLib) returns (sent: Option<SpectrumFrame>)
      requires Valid() && Ready() && frames >= 0
      modifies this`hopCounter, this`lastSentDspTime
      ensures Valid() && Hopped(old(hopCounter), old(lastSentDspTime), frames, dspTime, sent)
      ensures sent.Some? ==> sent.value == SpectrumFrame(analyzerId, dspTime, binCount, Spectrum(RingState(), Settings(), sampleRate, m))
    {
      sent := None;
      hopCounter := hopCounter + frames;
      var hop := MaxI(1, windowSize / MaxI(1, hopDiv));
      if hopCounter < hop {
        return;
      }
      hopCounter := hopCounter - hop;
      var interval := 1.0 / MaxR(1.0, maxSendHz);
      if dspTime - lastSentDspTime < interval {
        return;
      }
      lastSentDspTime := dspTime;
      var bins := ComputeSpectrumGoertzel(m);
      sent := Some(SpectrumFrame(analyzerId, dspTime, binCount, bins));
    }

    /** Step 2 of `Process`: each frame's mono mix written at the cursor, which wraps at the end. */
    method MixToRing(buffer: array2<real>, ghost input: seq<seq<real>>)
      requires Valid() && Ready()
      requires |input| == buffer.Length1 && forall f :: 0 <= f < |input| ==> |input[f]| == buffer.Length0
      requires forall ch, f :: 0 <= ch < buffer.Length0 && 0 <= f < buffer.Length1 ==> buffer[ch, f] == input[f][ch]
      modifies this`writePos, window
      ensures Valid() && RingState() == RingRun(old(RingState()), MonoColumns(input))
    {
      ghost var r0 := RingState();
      ghost var mono := MonoColumns(input);
      var invCh := 1.0 / MaxI(1, buffer.Length0) as real;
      var i := 0;
      while i < buffer.Length1
        invariant 0 <= i <= buffer.Length1 && Valid() && Ready()
        invariant RingState() == RingRun(r0, mono[..i])
      {
        var s := ChannelSum(buffer, i, input[i]);
        assert Scale(s, invCh) == mono[i];
        Write(Scale(s, invCh));
        assert mono[..i + 1][..i] == mono[..i];
        i := i + 1;
      }
      assert mono[..buffer.Length1] == mono;
    }

    /** One frame's samples summed over the channels. */
    method ChannelSum(buffer: array2<real>, i: int, ghost col: seq<real>) returns (s: real)
      requires 0 <= i < buffer.Length1 && |col| == buffer.Length0
      requires forall ch :: 0 <= ch < buffer.Length0 ==> buffer[ch, i] == col[ch]
      ensures s == Sum(col)
    {
      s := 0.0;
      var ch := 0;
      while ch < buffer.Length0
        invariant 0 <= ch <= buffer.Length0
        invariant s == Sum(col[..ch])
      {
        assert col[..ch + 1][..ch] == col[..ch];
        s := s + buffer[ch, i];
        ch := ch + 1;
      }
      assert col[..buffer.Length0] == col;
    }

    /** One ring write: the sample at the cursor, and the cursor one on, wrapping at the end. */
    method Write(x: real)
      requires Valid() && Ready()
      modifies this`writePos, window
      ensures Valid() && Ready() && RingState() == RingWrite(old(RingState()), x)
    {
      window[writePos] := x;
      writePos := writePos + 1;
      if writePos >= windowSize {
        writePos := 0;
      }
    }

    /** Step 5 of `Process`: one Goertzel pass over the whole ring per bin. */
    method ComputeSpectrumGoertzel(m: MathLib) returns (bins: seq<real>)
      requires Valid() && Ready()
      ensures bins == Spectrum(RingState(), Settings(), sampleRate, m)
    {
      bins := [];
      var b := 0;
      while b < binCount
        invariant 0 <= b <= binCount
        invariant |bins| == b
        invariant forall j :: 0 <= j < b ==> bins[j] == Spectrum(RingState(), Settings(), sampleRate, m)[j]
      {
        var coeff := BinCoeff(b, Settings(), sampleRate, m);
        var power := Goertzel(coeff);
        bins := bins + [power];
        b := b + 1;
      }
    }

    /** The inner loop of the bank: `windowSize` samples read from the cursor round the ring. */
    method Goertzel(coeff: real) returns (power: real)
      requires Valid() && Ready()
      ensures power == Power(GoertzelRun(ReadOrder(RingState()), coeff), coeff)
    {
      ghost var xs := ReadOrder(RingState());
      var n := windowSize;
      var q := (0.0, 0.0);
      var readPos := writePos;
      var i := 0;
      while i < n
        invariant 0 <= i <= n && 0 <= readPos < n
        invariant readPos == if writePos + i < n then writePos + i else writePos + i - n
        invariant q == GoertzelRun(xs[..i], coeff)
      {
        var x := window[readPos];
        assert x == xs[i];
        readPos := readPos + 1;
        if readPos >= n {
          readPos := 0;
        }
        assert xs[..i + 1][..i] == xs[..i];
        q := GoertzelStep(q, coeff, x);
        i := i + 1;
      }
      assert xs[..n] == xs;
      power := Power(q, coeff);
    }

    /** `Control.Configure`: the format's sample rate, a fresh zeroed ring of the current window
        size, cursor and hop counter at 0, and "never sent". */
    method Configure(config: AudioFormat)
      requires Valid()
      modifies this`sampleRate, this`window, this`created, this`writePos, this`hopCounter, this`lastSentDspTime
      ensures Valid() && Ready() && fresh(window)
      ensures sampleRate == config.sampleRate
      ensures forall i :: 0 <= i < window.Length ==> window[i] == 0.0
      ensures writePos == 0 && hopCounter == 0 && lastSentDspTime == NeverSent
    {
      sampleRate := config.sampleRate;
      if created {
        created := false;
      }
      window := new real[windowSize](_ => 0.0);
      created := true;
      writePos := 0;
      hopCounter := 0;
      lastSentDspTime := NeverSent;
    }

    /** `Control.Dispose`: frees the ring. Unlike the filter and AM nodes it does not destroy the
        upstream instance. */
    method Dispose()
      modifies this`created
      ensures !created
    {
      if created {
        created := false;
      }
    }
  }

  /** The mono mix of every frame of a block. */
  function MonoColumns(cols: seq<seq<real>>): (r: seq<real>)
    ensures |r| == |cols|
    ensures forall f :: 0 <= f < |r| ==> r[f] == Mono(cols[f])
  {
    seq(|cols|, f requires 0 <= f < |cols| => Mono(cols[f]))
  }

  /** `Control.OnMessage`: an `FFTAnalyzeMessage` is forwarded and handled; anything else is not. */
  function OnMessage(m: Message): (r: (Response, seq<Message>))
    ensures r.0 == Handled <==> m.AnalyzeMsg?
    ensures r.0 == Handled ==> |r.1| == 1 && AsAnalyze(r.1[0]) == Some(m.analyze)
    ensures r.0 == Unhandled ==> r.1 == []
  {
    if m.AnalyzeMsg? then (Handled, [m]) else (Unhandled, [])
  }

  /** What `OnMessage` forwards is what the next `Update` applies, whatever the pipe held before. */
  lemma ForwardedMessageWins(pipe: seq<Message>, m: Message)
    ensures OnMessage(m).0 == Handled <==> m.AnalyzeMsg?
    ensures LastOf(pipe + OnMessage(m).1, AsAnalyze) == if m.AnalyzeMsg? then Some(m.analyze) else LastOf(pipe, AsAnalyze)
  {
    if m.AnalyzeMsg? {
      LastOfSnoc(pipe, m, AsAnalyze);
    } else {
      assert pipe + OnMessage(m).1 == pipe;
    }
  }
}
