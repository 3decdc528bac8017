/** The message structs that controllers send to node instances and that node control
    halves forward to their realtime processors through the pipe, plus the enums they carry.
    A pipe element is a `Message`; `TryGetData(out T m)` is one of the `As…` selectors below. */
module Messages {
  import opened Common

  /** `NoiseWaveformNode.NoiseType`; a serialized value outside the declared members is `OtherNoise`. */
  datatype NoiseType = White | Pink | Red | OtherNoise(code: int)

  /** `BiquadFilterNode.FilterMode`; a value outside the declared members is `OtherMode`. */
  datatype FilterMode = LowPass | HighPass | BandPass | Notch | Peak | OtherMode(code: int)

  datatype SineMessage = SineMessage(frequency: real, isActive: bool)
  datatype SquareWaveMessage = SquareWaveMessage(freq: real, ratio: real, isActive: bool)
  datatype TriangleWaveMessage = TriangleWaveMessage(value: real, isActive: bool)
  /** The TriWave generator's own message. */
  datatype FrequencyData = FrequencyData(value: real, isActive: bool)
  /** `Seed` is an `int`; it is held here as its 32-bit two's-complement pattern, so the
      unchecked `(uint)seed` cast is the identity on it. */
  datatype NoiseMessage = NoiseMessage(noiseType: NoiseType, gain: real, isActive: bool, seed: bv32, reseed: bool)
  datatype FilterMessage = FilterMessage(mode: FilterMode, frequency: real, q: real, gainDb: real, isActive: bool)
  datatype AmMessage = AmMessage(isActive: bool, depth: real, bpm: real, releaseMs: real, phaseOffset01: real)
  datatype FFTAnalyzeMessage = FFTAnalyzeMessage(
    isActive: bool, binCount: int, minHz: real, maxHz: real, windowSize: int, hopDiv: int, maxSendHz: real)
  /** One analyzer result, sent from the realtime side back to the analyzer's control half. */
  datatype SpectrumFrame = SpectrumFrame(analyzerId: int, dspTime: real, binCount: int, bins: seq<real>)

  datatype Message =
    | SineMsg(sine: SineMessage)
    | SquareMsg(square: SquareWaveMessage)
    | TriangleMsg(triangle: TriangleWaveMessage)
    | FrequencyMsg(frequencyData: FrequencyData)
    | NoiseMsg(noise: NoiseMessage)
    | FilterMsg(filter: FilterMessage)
    | AmMsg(am: AmMessage)
    | AnalyzeMsg(analyze: FFTAnalyzeMessage)
    | SpectrumMsg(spectrum: SpectrumFrame)

  function AsSine(m: Message): Option<SineMessage> {
    if m.SineMsg? then Some(m.sine) else None
  }

  function AsSquare(m: Message): Option<SquareWaveMessage> {
    if m.SquareMsg? then Some(m.square) else None
  }

  function AsTriangle(m: Message): Option<TriangleWaveMessage> {
    if m.TriangleMsg? then Some(m.triangle) else None
  }

  function AsFrequencyData(m: Message): Option<FrequencyData> {
    if m.FrequencyMsg? then Some(m.frequencyData) else None
  }

  function AsNoise(m: Message): Option<NoiseMessage> {
    if m.NoiseMsg? then Some(m.noise) else None
  }

  function AsAm(m: Message): Option<AmMessage> {
    if m.AmMsg? then Some(m.am) else None
  }

  function AsSpectrum(m: Message): Option<SpectrumFrame> {
    if m.SpectrumMsg? then Some(m.spectrum) else None
  }

  function AsFilter(m: Message): Option<FilterMessage> {
    if m.FilterMsg? then Some(m.filter) else None
  }

  function AsAnalyze(m: Message): Option<FFTAnalyzeMessage> {
    if m.AnalyzeMsg? then Some(m.analyze) else None
  }
}
