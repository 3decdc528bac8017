/** `BiquadFilterNode`: an RBJ-cookbook biquad in transposed direct form II over the upstream's
    output, per channel for the first eight channels, blended with the dry signal by a de-click
    envelope (`x + (y - x) * env`). */
module BiquadFilterNode {
  import opened Common
  import opened Envelope
  import opened Messages
  import opened Audio

  /** Channels with their own filter state; higher channels pass through unfiltered. */
  const MaxChannels: int := 8

  // ---------------------------------------------------------------------------
  // `ChannelState`: eight floats addressed by channel index
  // ---------------------------------------------------------------------------

  /** `ClearAll` (and `default`): every slot 0, so `Get` then reads 0 at every index. */
  function Cleared(): (r: seq<real>)
    ensures |r| == MaxChannels
    ensures forall i :: Get(r, i) == 0.0
  {
    seq(MaxChannels, _ => 0.0)
  }

  /** `Get(index)`: the slot, or 0 for an index outside 0..7. */
  function Get(z: seq<real>, index: int): (r: real)
    requires |z| == MaxChannels
    ensures !(0 <= index < MaxChannels) ==> r == 0.0
  {
    if 0 <= index < MaxChannels then z[index] else 0.0
  }

  /** `Set(index, value)`: only that slot changes; an index outside 0..7 changes nothing. */
  function Set(z: seq<real>, index: int, v: real): (r: seq<real>)
    requires |z| == MaxChannels
    ensures |r| == MaxChannels
    ensures forall j :: 0 <= j < MaxChannels ==> Get(r, j) == if j == index then v else Get(z, j)
  {
    if 0 <= index < MaxChannels then z[index := v] else z
  }

  // ---------------------------------------------------------------------------
  // Coefficient design (`ComputeCoefficients`)
  // ---------------------------------------------------------------------------

  /** The cookbook numerator and denominator before normalisation. */
  datatype Sections = Sections(b0: real, b1: real, b2: real, a0: real, a1: real, a2: real)

  /** The normalised DF2T coefficients `c = b / a0`, `d = a / a0`. */
  datatype Coeffs = Coeffs(c0: real, c1: real, c2: real, d1: real, d2: real)

  /** The cookbook sections of each mode from `sin(omega)`, `cos(omega)`, `alpha` and `A`; an
      unknown mode has none (the source returns early and keeps the old coefficients). The sums
      `b0 + b1 + b2` and `a0 + a1 + a2` are the gains at 0 Hz: the low-pass, notch and peak
      designs pass DC at unit gain, the high-pass and band-pass designs block it. */
  function CookbookSections(mode: FilterMode, s: real, c: real, alpha: real, a: real): (r: Option<Sections>)
    ensures r.None? <==> mode.OtherMode?
    ensures r.Some? && (mode.LowPass? || mode.Notch? || mode.Peak?) ==>
              r.value.b0 + r.value.b1 + r.value.b2 == r.value.a0 + r.value.a1 + r.value.a2
    ensures r.Some? && (mode.HighPass? || mode.BandPass?) ==> r.value.b0 + r.value.b1 + r.value.b2 == 0.0
    ensures r.Some? && !mode.Peak? ==> r.value.a0 == 1.0 + alpha && r.value.a2 == 1.0 - alpha
    ensures r.Some? ==> r.value.a1 == -2.0 * c
  {
    match mode
    case LowPass => Some(Sections((1.0 - c) * 0.5, 1.0 - c, (1.0 - c) * 0.5, 1.0 + alpha, -2.0 * c, 1.0 - alpha))
    case HighPass => Some(Sections((1.0 + c) * 0.5, -(1.0 + c), (1.0 + c) * 0.5, 1.0 + alpha, -2.0 * c, 1.0 - alpha))
    case BandPass => Some(Sections(s * 0.5, 0.0, -s * 0.5, 1.0 + alpha, -2.0 * c, 1.0 - alpha))
    case Notch => Some(Sections(1.0, -2.0 * c, 1.0, 1.0 + alpha, -2.0 * c, 1.0 - alpha))
    case Peak =>
      Some(Sections(1.0 + alpha * a, -2.0 * c, 1.0 - alpha * a, 1.0 + FloatDiv(alpha, a), -2.0 * c, 1.0 - FloatDiv(alpha, a)))
    case OtherMode(_) => None
  }

  /** `invA0 = 1 / a0`, then every coefficient times `invA0`. */
  function Normalize(r: Sections): Coeffs {
    var inv := FloatDiv(1.0, r.a0);
    Coeffs(r.b0 * inv, r.b1 * inv, r.b2 * inv, r.a1 * inv, r.a2 * inv)
  }

  /** Normalisation keeps the DC gain: unit-gain sections give `c0 + c1 + c2 == 1 + d1 + d2`,
      DC-blocking sections give `c0 + c1 + c2 == 0`. */
  lemma NormalizeKeepsDcGain(r: Sections)
    requires r.a0 != 0.0
    ensures r.b0 + r.b1 + r.b2 == r.a0 + r.a1 + r.a2 ==>
              Normalize(r).c0 + Normalize(r).c1 + Normalize(r).c2 == 1.0 + Normalize(r).d1 + Normalize(r).d2
    ensures r.b0 + r.b1 + r.b2 == 0.0 ==> Normalize(r).c0 + Normalize(r).c1 + Normalize(r).c2 == 0.0
  {
    var inv := FloatDiv(1.0, r.a0);
    assert r.a0 * inv == 1.0;
    SumScaled(r.b0, r.b1, r.b2, inv);
    SumScaled(r.a0, r.a1, r.a2, inv);
  }

  lemma SumScaled(x: real, y: real, z: real, k: real)
    ensures x * k + y * k + z * k == (x + y + z) * k
  {}

  /** A designed section, once normalised, keeps its mode's DC gain: unit gain for the low-pass,
      notch and peak designs, zero for the high-pass and band-pass designs. */
  lemma DesignedDcGain(mode: FilterMode, s: real, c: real, alpha: real, a: real)
    requires CookbookSections(mode, s, c, alpha, a).Some?
    requires CookbookSections(mode, s, c, alpha, a).value.a0 != 0.0
    ensures var k := Normalize(CookbookSections(mode, s, c, alpha, a).value);
            (mode.LowPass? || mode.Notch? || mode.Peak?) ==> k.c0 + k.c1 + k.c2 == 1.0 + k.d1 + k.d2
    ensures var k := Normalize(CookbookSections(mode, s, c, alpha, a).value);
            (mode.HighPass? || mode.BandPass?) ==> k.c0 + k.c1 + k.c2 == 0.0
  {
    NormalizeKeepsDcGain(CookbookSections(mode, s, c, alpha, a).value);
  }

  /** The angular frequency: the rate floored at 1 Hz, the cutoff clamped to [1 Hz, 0.49 * rate]
      by `math.clamp` (whose lower bound wins for rates below 3 Hz). */
  function Omega(frequency: real, rate: int): real {
    var sr := MaxR(1.0, rate as real);
    var f := MathClamp(frequency, 1.0, 0.49 * sr);
    2.0 * Pi * f / sr
  }

  /** At any rate of at least 3 Hz the cutoff lies strictly inside (0, Nyquist). */
  lemma OmegaBelowNyquist(frequency: real, rate: int)
    requires rate >= 3
    ensures 0.0 < Omega(frequency, rate) <= 0.98 * Pi
  {
    var sr := rate as real;
    var f := MathClamp(frequency, 1.0, 0.49 * sr);
    assert 1.0 <= f <= 0.49 * sr;
    assert f / sr <= 0.49 by {
      assert f <= 0.49 * sr;
    }
    assert 2.0 * Pi * f / sr == 2.0 * Pi * (f / sr);
  }

  /** `ComputeCoefficients(sampleRate)` as a value: `None` for an unknown mode. */
  function Design(mode: FilterMode, frequency: real, q: real, gainDb: real, rate: int, m: MathLib): Option<Coeffs> {
    var omega := Omega(frequency, rate);
    var qq := MaxR(0.001, q);
    var s := m.sin(omega);
    var alpha := s / (2.0 * qq);
    match CookbookSections(mode, s, m.cos(omega), alpha, m.pow(10.0, gainDb / 40.0))
    case Some(r) => Some(Normalize(r))
    case None => None
  }

  // ---------------------------------------------------------------------------
  // DF2T section and dry/wet blend
  // ---------------------------------------------------------------------------

  /** One DF2T step: `y = c0 x + s1; s1 = c1 x - d1 y + s2; s2 = c2 x - d2 y`. */
  function Tap(k: Coeffs, x: real, s1: real, s2: real): (real, real, real) {
    var y := k.c0 * x + s1;
    (y, k.c1 * x - k.d1 * y + s2, k.c2 * x - k.d2 * y)
  }

  /** With unit DC gain (`c0 + c1 + c2 == 1 + d1 + d2`), a constant input `x` at the state
      `s2 = c2 x - d2 x`, `s1 = c1 x - d1 x + s2` comes out unchanged and leaves the state where
      it was: the steady state of a low-pass, notch or peak section under a constant input. */
  lemma UnitGainPassesDc(k: Coeffs, x: real, s1: real, s2: real)
    requires k.c0 + k.c1 + k.c2 == 1.0 + k.d1 + k.d2
    requires s2 == k.c2 * x - k.d2 * x && s1 == k.c1 * x - k.d1 * x + s2
    ensures Tap(k, x, s1, s2) == (x, s1, s2)
  {
    SumTimes(k.c0, k.c1 - k.d1, k.c2 - k.d2, x, 1.0);
    var y := k.c0 * x + s1;
    assert y == x;
    MulEq(k.d1, y, x);
    MulEq(k.d2, y, x);
    assert Tap(k, x, s1, s2).0 == x;
    assert Tap(k, x, s1, s2).1 == s1;
    assert Tap(k, x, s1, s2).2 == s2;
  }

  /** With zero DC gain (`c0 + c1 + c2 == 0`), a constant input `x` at the state
      `s1 = c1 x + c2 x`, `s2 = c2 x` comes out as silence and leaves the state where it was: the
      steady state of a high-pass or band-pass section under a constant input. */
  lemma ZeroGainBlocksDc(k: Coeffs, x: real, s1: real, s2: real)
    requires k.c0 + k.c1 + k.c2 == 0.0
    requires s1 == k.c1 * x + k.c2 * x && s2 == k.c2 * x
    ensures Tap(k, x, s1, s2) == (0.0, s1, s2)
  {
    SumTimes(k.c0, k.c1, k.c2, x, 0.0);
    var y := k.c0 * x + s1;
    assert y == 0.0;
    MulEq(k.d1, y, 0.0);
    MulEq(k.d2, y, 0.0);
    assert Tap(k, x, s1, s2).0 == 0.0;
    assert Tap(k, x, s1, s2).1 == s1;
    assert Tap(k, x, s1, s2).2 == s2;
  }

  lemma SumTimes(a: real, b: real, c: real, x: real, t: real)
    requires a + b + c == t
    ensures a * x + b * x + c * x == t * x
  {}

  lemma MulEq(a: real, y: real, x: real)
    requires y == x
    ensures a * y == a * x
  {}

  // ---------------------------------------------------------------------------
  // Per-frame run
  // ---------------------------------------------------------------------------

  /** Envelope and both state rows between two frames. */
  datatype FState = FState(env: real, z1: seq<real>, z2: seq<real>)
  {
    predicate Ok() { |z1| == MaxChannels && |z2| == MaxChannels }
  }

  /** What one `Process` call runs with. */
  datatype FDrive = FDrive(k: Coeffs, target: real, attack: int, release: int)
  {
    predicate Ok() { attack >= 1 && release >= 1 }
  }

  /** The state rows after the channels below `n` of one frame `col` went through their sections. */
  function Z1After(z1: seq<real>, z2: seq<real>, k: Coeffs, col: seq<real>, n: int): (r: seq<real>)
    requires |z1| == MaxChannels && |z2| == MaxChannels
    ensures |r| == MaxChannels
  {
    seq(MaxChannels, i requires 0 <= i < MaxChannels =>
      if i < n && i < |col| then Tap(k, col[i], z1[i], z2[i]).1 else z1[i])
  }

  function Z2After(z1: seq<real>, z2: seq<real>, k: Coeffs, col: seq<real>, n: int): (r: seq<real>)
    requires |z1| == MaxChannels && |z2| == MaxChannels
    ensures |r| == MaxChannels
  {
    seq(MaxChannels, i requires 0 <= i < MaxChannels =>
      if i < n && i < |col| then Tap(k, col[i], z1[i], z2[i]).2 else z2[i])
  }

  /** One more channel: its two slots take the section's new state, nothing else moves. */
  lemma AfterOneMore(z1: seq<real>, z2: seq<real>, k: Coeffs, col: seq<real>, n: int)
    requires |z1| == MaxChannels && |z2| == MaxChannels && 0 <= n < |col|
    ensures n < MaxChannels ==>
              Z1After(z1, z2, k, col, n + 1) == Set(Z1After(z1, z2, k, col, n), n, Tap(k, col[n], z1[n], z2[n]).1)
              && Z2After(z1, z2, k, col, n + 1) == Set(Z2After(z1, z2, k, col, n), n, Tap(k, col[n], z1[n], z2[n]).2)
    ensures n >= MaxChannels ==>
              Z1After(z1, z2, k, col, n + 1) == Z1After(z1, z2, k, col, n)
              && Z2After(z1, z2, k, col, n + 1) == Z2After(z1, z2, k, col, n)
  {
    if n < MaxChannels {
      var a := Set(Z1After(z1, z2, k, col, n), n, Tap(k, col[n], z1[n], z2[n]).1);
      assert forall i :: 0 <= i < MaxChannels ==> Z1After(z1, z2, k, col, n + 1)[i] == Get(a, i);
      var b := Set(Z2After(z1, z2, k, col, n), n, Tap(k, col[n], z1[n], z2[n]).2);
      assert forall i :: 0 <= i < MaxChannels ==> Z2After(z1, z2, k, col, n + 1)[i] == Get(b, i);
    }
  }

  function FrameEnv(st: FState, p: FDrive): real
    requires p.Ok()
  {
    Step(st.env, p.target, p.attack, p.release)
  }

  /** The sample written to channel `ch` for input `x`, given the state before the frame. */
  function ChannelOut(st: FState, p: FDrive, x: real, ch: int): real
    requires st.Ok() && p.Ok()
  {
    if ch >= MaxChannels then x
    else Mix(x, Tap(p.k, x, Get(st.z1, ch), Get(st.z2, ch)).0, FrameEnv(st, p))
  }

  /** The state after one frame whose input column is `col`. */
  function FrameState(st: FState, p: FDrive, col: seq<real>): (r: FState)
    requires st.Ok() && p.Ok()
    ensures r.Ok()
  {
    FState(FrameEnv(st, p), Z1After(st.z1, st.z2, p.k, col, |col|), Z2After(st.z1, st.z2, p.k, col, |col|))
  }

  /** The state after the first `n` frames of `cols`. */
  function FRun(st: FState, p: FDrive, cols: seq<seq<real>>, n: nat): (r: FState)
    requires st.Ok() && p.Ok() && n <= |cols|
    ensures r.Ok()
  {
    if n == 0 then st else FrameState(FRun(st, p, cols, n - 1), p, cols[n - 1])
  }

  /** Sample `ch` of frame `f` once the frames below `done` have been filtered. */
  function PartlyFiltered(st: FState, p: FDrive, cols: seq<seq<real>>, done: nat, ch: int, f: nat): real
    requires st.Ok() && p.Ok() && done <= |cols| && f < |cols| && 0 <= ch < |cols[f]|
  {
    if f < done then ChannelOut(FRun(st, p, cols, f), p, cols[f][ch], ch) else cols[f][ch]
  }

  /** An inactive filter whose envelope has closed stays closed, so every frame is the dry input. */
  lemma {:induction false} ClosedStaysDry(st: FState, p: FDrive, cols: seq<seq<real>>, n: nat, x: real, ch: int)
    requires st.Ok() && p.Ok() && n <= |cols| && st.env == 0.0 && p.target == 0.0
    ensures FRun(st, p, cols, n).env == 0.0
    ensures ChannelOut(FRun(st, p, cols, n), p, x, ch) == x
  {
    if n > 0 {
      ClosedStaysDry(st, p, cols, n - 1, x, ch);
    }
  }

  /** Channels from the ninth on are never filtered. */
  lemma HighChannelsPassThrough(st: FState, p: FDrive, x: real, ch: int)
    requires st.Ok() && p.Ok() && ch >= MaxChannels
    ensures ChannelOut(st, p, x, ch) == x
  {}

  /** `EnsureState(channels)` on the state: both rows cleared when the clamped channel count changes. */
  function Prepared(st: FState, channelCount: int, channels: int): FState {
    if channelCount == MinI(channels, MaxChannels) then st else st.(z1 := Cleared(), z2 := Cleared())
  }

  class Processor {
    const hasUpstream: bool
    const upstream: Instance
    var mode: FilterMode
    var frequency: real
    var q: real
    var gainDb: real
    var isActive: bool
    var c0: real
    var c1: real
    var c2: real
    var d1: real
    var d2: real
    var z1: seq<real>
    var z2: seq<real>
    var channelCount: int
    var env: real
    var target: real
    var attackSamples: int
    var releaseSamples: int
    /** `setup.sampleRate`; 0 until `Configure`. */
    var sampleRate: int

    ghost predicate Valid()
      reads this
    {
      attackSamples >= 1 && releaseSamples >= 1 && 0.0 <= env <= 1.0
      && |z1| == MaxChannels && |z2| == MaxChannels && 0 <= channelCount <= MaxChannels
    }

    function Coefficients(): Coeffs
      reads this
    {
      Coeffs(c0, c1, c2, d1, d2)
    }

    function State(): FState
      reads this
    {
      FState(env, z1, z2)
    }

    /** The parameters a `FilterMessage` sets. */
    function Settings(): FilterMessage
      reads this
    {
      FilterMessage(mode, frequency, q, gainDb, isActive)
    }

    function Params(): FDrive
      reads this
    {
      FDrive(Coefficients(), if isActive then 1.0 else 0.0, attackSamples, releaseSamples)
    }

    /** `Allocate(context, hasUpstream, upstream, mode, frequency, q, gainDb, isActive)`:
        coefficients zero until the first design, cleared state, envelope at its target. */
    constructor (hasUpstreamInstance: bool, upstreamInstance: Instance, initialMode: FilterMode,
                 initialFrequency: real, initialQ: real, initialGainDb: real, active: bool)
      ensures Valid()
      ensures hasUpstream == hasUpstreamInstance && upstream == upstreamInstance
      ensures mode == initialMode && frequency == initialFrequency && q == initialQ
      ensures gainDb == initialGainDb && isActive == active
      ensures Coefficients() == Coeffs(0.0, 0.0, 0.0, 0.0, 0.0)
      ensures State() == FState(if active then 1.0 else 0.0, Cleared(), Cleared()) && target == env
      ensures channelCount == 0 && attackSamples == 1 && releaseSamples == 1 && sampleRate == 0
    {
      hasUpstream := hasUpstreamInstance;
      upstream := upstreamInstance;
      mode := initialMode;
      frequency := initialFrequency;
      q := initialQ;
      gainDb := initialGainDb;
      isActive := active;
      c0, c1, c2 := 0.0, 0.0, 0.0;
      d1, d2 := 0.0, 0.0;
      z1 := Cleared();
      z2 := Cleared();
      channelCount := 0;
      env := if active then 1.0 else 0.0;
      target := env;
      attackSamples := 1;
      releaseSamples := 1;
      sampleRate := 0;
    }

    /** Recomputes the coefficients for the current parameters; an unknown mode keeps the old ones. */
    method ComputeCoefficients(rate: int, m: MathLib)
      modifies this`c0, this`c1, this`c2, this`d1, this`d2
      ensures Coefficients() == Design(mode, frequency, q, gainDb, rate, m).GetOr(old(Coefficients()))
    {
      var omega := Omega(frequency, rate);
      var qq := MaxR(0.001, q);
      var s := m.sin(omega);
      var c := m.cos(omega);
      var alpha := s / (2.0 * qq);
      var a := m.pow(10.0, gainDb / 40.0);
      var sections := CookbookSections(mode, s, c, alpha, a);
      if sections.None? {
        return;
      }
      var k := Normalize(sections.value);
      c0, c1, c2, d1, d2 := k.c0, k.c1, k.c2, k.d1, k.d2;
    }

    /** `Control.Configure`: 2 ms attack and 10 ms release in samples, then a fresh design. */
    method Configure(configSampleRate: int, m: MathLib)
      requires Valid()
      modifies this`sampleRate, this`attackSamples, this`releaseSamples
      modifies this`c0, this`c1, this`c2, this`d1, this`d2
      ensures Valid() && sampleRate == configSampleRate
      ensures attackSamples == MaxI(1, RoundToInt(2.0 * 0.001 * configSampleRate as real))
      ensures releaseSamples == MaxI(1, RoundToInt(10.0 * 0.001 * configSampleRate as real))
      ensures Coefficients() == Design(mode, frequency, q, gainDb, configSampleRate, m).GetOr(old(Coefficients()))
    {
      sampleRate := configSampleRate;
      attackSamples := MaxI(1, RoundToInt(2.0 * 0.001 * configSampleRate as real));
      releaseSamples := MaxI(1, RoundToInt(10.0 * 0.001 * configSampleRate as real));
      ComputeCoefficients(configSampleRate, m);
    }

    /** `Control.Dispose`: the nested upstream instance is destroyed with the filter. */
    method Dispose(context: Context)
      modifies context`destroyed
      ensures context.destroyed ==
                if hasUpstream && upstream.Handle? then old(context.destroyed) + {upstream.id} else old(context.destroyed)
    {
      if hasUpstream {
        context.Destroy(upstream);
      }
    }

    /** Drains the pipe: the last `FilterMessage` sets the parameters, and the coefficients are
        redesigned once, for the new parameters, if any arrived. */
    method Update(pipe: seq<Message>, m: MathLib)
      modifies this`mode, this`frequency, this`q, this`gainDb, this`isActive
      modifies this`c0, this`c1, this`c2, this`d1, this`d2
      ensures Settings() == LastOf(pipe, AsFilter).GetOr(old(Settings()))
      ensures Coefficients() == if LastOf(pipe, AsFilter).None? then old(Coefficients())
                                else Design(mode, frequency, q, gainDb, sampleRate, m).GetOr(old(Coefficients()))
    {
      var dirty := DrainSettings(pipe);
      if dirty {
        ComputeCoefficients(sampleRate, m);
      }
    }

    /** The drain loop of `Update`: reports whether any `FilterMessage` arrived. */
    method DrainSettings(pipe: seq<Message>) returns (dirty: bool)
      modifies this`mode, this`frequency, this`q, this`gainDb, this`isActive
      ensures dirty == LastOf(pipe, AsFilter).Some?
      ensures Settings() == LastOf(pipe, AsFilter).GetOr(old(Settings()))
    {
      dirty := false;
      var i := 0;
      while i < |pipe|
        invariant 0 <= i <= |pipe|
        invariant dirty <==> LastOf(pipe[..i], AsFilter).Some?
        invariant Settings() == LastOf(pipe[..i], AsFilter).GetOr(old(Settings()))
      {
        LastOfSnoc(pipe[..i], pipe[i], AsFilter);
        assert pipe[..i + 1] == pipe[..i] + [pipe[i]];
        if pipe[i].FilterMsg? {
          var msg := pipe[i].filter;
          mode := msg.mode;
          frequency := msg.frequency;
          q := msg.q;
          gainDb := msg.gainDb;
          isActive := msg.isActive;
          dirty := true;
        }
        i := i + 1;
      }
      assert pipe[..|pipe|] == pipe;
    }

    /** `EnsureState(channels)`: the clamped channel count is recorded, and both state rows are
        cleared when it changed. */
    method EnsureState(channels: int)
      requires Valid() && channels >= 0
      modifies this`channelCount, this`z1, this`z2
      ensures Valid() && channelCount == MinI(channels, MaxChannels)
      ensures State() == Prepared(old(State()), old(channelCount), channels)
    {
      var clamped := MinI(channels, MaxChannels);
      if channelCount == clamped {
        return;
      }
      channelCount := clamped;
      z1 := Cleared();
      z2 := Cleared();
    }

    /** Filters the block in place: the upstream's output (or silence, without an upstream) runs
        through `FRun` frame by frame. */
    method Process(buffer: array2<real>) returns (frames: int)
      requires Valid()
      modifies this`env, this`target, this`z1, this`z2, this`channelCount, buffer
      ensures Valid() && frames == buffer.Length1
      ensures channelCount == MinI(buffer.Length0, MaxChannels) && target == Params().target
      ensures State() == FRun(Prepared(old(State()), old(channelCount), buffer.Length0), Params(),
                              Incoming(old(Columns(buffer)), hasUpstream), frames)
      ensures forall ch, f :: 0 <= ch < buffer.Length0 && 0 <= f < buffer.Length1 ==>
                buffer[ch, f] == ChannelOut(FRun(Prepared(old(State()), old(channelCount), buffer.Length0), Params(),
                                                 Incoming(old(Columns(buffer)), hasUpstream), f),
                                            Params(), Incoming(old(Columns(buffer)), hasUpstream)[f][ch], ch)
    {
      frames := buffer.Length1;
      ghost var input := Incoming(Columns(buffer), hasUpstream);
      if !hasUpstream {
        Silence(buffer);
      }
      EnsureState(buffer.Length0);
      target := if isActive then 1.0 else 0.0;
      FilterBlock(buffer, input);
    }

    /** The frame loop of `Process`, over a block that already holds `input`. */
    method FilterBlock(buffer: array2<real>, ghost input: seq<seq<real>>)
      requires Valid() && target == Params().target
      requires |input| == buffer.Length1 && forall f :: 0 <= f < |input| ==> |input[f]| == buffer.Length0
      requires forall ch, f :: 0 <= ch < buffer.Length0 && 0 <= f < buffer.Length1 ==> buffer[ch, f] == input[f][ch]
      modifies this`env, this`z1, this`z2, buffer
      ensures Valid() && State() == FRun(old(State()), Params(), input, buffer.Length1)
      ensures forall ch, f :: 0 <= ch < buffer.Length0 && 0 <= f < buffer.Length1 ==>
                buffer[ch, f] == ChannelOut(FRun(old(State()), Params(), input, f), Params(), input[f][ch], ch)
    {
      ghost var p, s0 := Params(), State();
      var frame := 0;
      while frame < buffer.Length1
        invariant 0 <= frame <= buffer.Length1
        invariant Valid() && Params() == p
        invariant State() == FRun(s0, p, input, frame)
        invariant forall ch, f :: 0 <= ch < buffer.Length0 && 0 <= f < buffer.Length1 ==>
                    buffer[ch, f] == PartlyFiltered(s0, p, input, frame, ch, f)
      {
        assert Column(buffer, frame) == input[frame];
        RenderFrame(buffer, frame);
        assert State() == FRun(s0, p, input, frame + 1);
        frame := frame + 1;
      }
    }

    /** One pass of the frame loop: envelope step, then each channel of the column through its
        section (channels from the ninth on are written back unchanged). */
    method RenderFrame(buffer: array2<real>, frame: int)
      requires Valid() && 0 <= frame < buffer.Length1 && target == Params().target
      modifies this`env, this`z1, this`z2, buffer
      ensures Valid() && Params() == old(Params())
      ensures State() == FrameState(old(State()), Params(), old(Column(buffer, frame)))
      ensures forall c, f :: 0 <= c < buffer.Length0 && 0 <= f < buffer.Length1 ==>
                buffer[c, f] == if f == frame then ChannelOut(old(State()), Params(), old(buffer[c, f]), c)
                                else old(buffer[c, f])
    {
      ghost var st, p := State(), Params();
      ghost var col := Column(buffer, frame);
      env := Step(env, target, attackSamples, releaseSamples);
      var ch := 0;
      while ch < buffer.Length0
        invariant 0 <= ch <= buffer.Length0
        invariant Valid() && Params() == p && env == FrameEnv(st, p)
        invariant z1 == Z1After(st.z1, st.z2, p.k, col, ch) && z2 == Z2After(st.z1, st.z2, p.k, col, ch)
        invariant forall c, f :: 0 <= c < buffer.Length0 && 0 <= f < buffer.Length1 ==>
                    buffer[c, f] == if f == frame && c < ch then ChannelOut(st, p, col[c], c) else old(buffer[c, f])
      {
        AfterOneMore(st.z1, st.z2, p.k, col, ch);
        var x := buffer[ch, frame];
        if ch >= MaxChannels {
          buffer[ch, frame] := x;
        } else {
          var out := FilterSample(ch, x);
          buffer[ch, frame] := out;
        }
        ch := ch + 1;
      }
      assert Z1After(st.z1, st.z2, p.k, col, buffer.Length0) == FrameState(st, p, col).z1;
    }

    /** The body of the channel loop for a channel below eight: one DF2T step on that channel's
        state slots, and the envelope blend of dry and filtered sample. */
    method FilterSample(ch: int, x: real) returns (out: real)
      requires 0 <= ch < MaxChannels && |z1| == MaxChannels && |z2| == MaxChannels
      modifies this`z1, this`z2
      ensures var t := Tap(Coefficients(), x, old(z1[ch]), old(z2[ch]));
              z1 == old(z1)[ch := t.1] && z2 == old(z2)[ch := t.2] && out == Mix(x, t.0, env)
    {
      var t := Tap(Coefficients(), x, Get(z1, ch), Get(z2, ch));
      z1 := Set(z1, ch, t.1);
      z2 := Set(z2, ch, t.2);
      out := x + (t.0 - x) * env;
    }

  }

  /** `Control.OnMessage`: a `FilterMessage` is forwarded and handled; anything else is not. */
  function OnMessage(m: Message): (r: (Response, seq<Message>))
    ensures r.0 == Handled <==> m.FilterMsg?
    ensures r.0 == Handled ==> |r.1| == 1 && AsFilter(r.1[0]) == Some(m.filter)
    ensures r.0 == Unhandled ==> r.1 == []
  {
    if m.FilterMsg? then (Handled, [m]) else (Unhandled, [])
  }

  /** What `OnMessage` forwards is what the next `Update` applies, whatever the pipe held before. */
  lemma ForwardedMessageWins(pipe: seq<Message>, m: Message)
    ensures OnMessage(m).0 == Handled <==> m.FilterMsg?
    ensures LastOf(pipe + OnMessage(m).1, AsFilter) == if m.FilterMsg? then Some(m.filter) else LastOf(pipe, AsFilter)
  {
    if m.FilterMsg? {
      LastOfSnoc(pipe, m, AsFilter);
    } else {
      assert pipe + OnMessage(m).1 == pipe;
    }
  }
}
