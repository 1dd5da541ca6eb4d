/**
 * Descriptors of the signal-processing blocks the WBFM chain instantiates
 * (apps/demodulators/WBFM.py, lines 88-171). A descriptor carries the
 * parameters the block is built with; what the block does to samples is not
 * part of this model.
 */
module Blocks {
  import opened Wrappers
  import opened Rates

  /** Item type of a stream: gr_complex or float. */
  datatype StreamKind = Complex | Float

  datatype Window = Hamming

  /** firdes.low_pass(gain, sampling_freq, cutoff, transition, window), as parameters. */
  datatype LowPass = LowPass(gain: real, sampleRate: real, cutoff: real, transition: real, window: Window)

  /** Sample format of the WAV file sink. */
  datatype WavFormat = Pcm16 | Pcm08

  /** Container format of a file sink; this block only ever writes WAV. */
  datatype FileContainer = ContainerWav

  datatype Block =
    | FreqXlatingFir(decim: nat, taps: LowPass, centerFreq: real, sampleRate: real)
    | Fir(kind: StreamKind, decim: nat, taps: LowPass)
    | PwrSquelch(kind: StreamKind, thresholdDb: real, alpha: real, ramp: nat, gate: bool)
    | QuadratureDemod(gain: real)
    | PfbArbResampler(ratio: real, fltSize: nat)
    | WavFileSink(channels: nat, fileRate: int, container: FileContainer, format: WavFormat, append: bool)
    | NullSink(kind: StreamKind)
  {
    /** Item type the block consumes. */
    function Accepts(): StreamKind
    {
      match this
      case FreqXlatingFir(_, _, _, _) => Complex
      case Fir(k, _, _) => k
      case PwrSquelch(k, _, _, _, _) => k
      case QuadratureDemod(_) => Complex
      case PfbArbResampler(_, _) => Float
      case WavFileSink(_, _, _, _, _) => Float
      case NullSink(k) => k
    }

    /** Item type the block produces; sinks produce nothing. */
    function Produces(): Option<StreamKind>
    {
      match this
      case QuadratureDemod(_) => Some(Float)
      case WavFileSink(_, _, _, _, _) => None
      case NullSink(_) => None
      case _ => Some(Accepts())
    }

    /** A gating power squelch stops the sample flow while closed. */
    predicate Blocking()
    {
      PwrSquelch? && gate
    }

    /** Factor by which the block scales the sample rate of the stream it passes on. */
    function RateFactor(): real
    {
      match this
      case FreqXlatingFir(d, _, _, _) => if d == 0 then 0.0 else 1.0 / d as real
      case Fir(_, d, _) => if d == 0 then 0.0 else 1.0 / d as real
      case PfbArbResampler(r, _) => r
      case _ => 1.0
    }
  }

  /** Lines 89-91: taps shared by the first two decimators, designed at unit rate (rate-independent). */
  const NORMALIZED_TAPS := LowPass(1.0, 1.0, 0.090, 0.010, Hamming)

  /** Lines 106-107: 12.5 kHz channel filter designed at samp_rate / 25. */
  function ChannelTaps(sampRate: nat): (t: LowPass)
    ensures t.sampleRate == ChannelRate(sampRate)
    ensures sampRate >= ONE_MSPS ==> t.cutoff + t.transition < t.sampleRate / 2.0
  {
    LowPass(1.0, ChannelRate(sampRate), 12_500.0, 1_000.0, Hamming)
  }

  /** Lines 123-125: 3.5 kHz audio filter designed at samp_rate / (decims[1] * 25). */
  function AudioTaps(sampRate: nat): (t: LowPass)
    requires sampRate >= ONE_MSPS
    ensures t.sampleRate == IfRate(sampRate)
    ensures t.cutoff + t.transition < t.sampleRate / 2.0
  {
    IfRateBand(sampRate);
    LowPass(1.0, IfRate(sampRate), 3_500.0, 500.0, Hamming)
  }

  /**
   * Applied to a stream at `inputRate`, the filter's stop band starts at or
   * below the Nyquist frequency of the stream decimated by `decim`. The stop
   * band is taken to begin at `cutoff + transition`, scaled from the design
   * rate to the rate the filter is fed; this is the model's own convention
   * for a windowed low-pass design, not a promise of the tap generator.
   */
  ghost predicate StopsBeforeNyquist(taps: LowPass, inputRate: real, decim: nat)
  {
    && taps.sampleRate > 0.0
    && decim > 0
    && (taps.cutoff + taps.transition) * (inputRate / taps.sampleRate) <= inputRate / (2 * decim) as real
  }

  /** A filter designed at the rate it is fed stops before Nyquist when twice its stop-band edge, times the decimation, fits in that rate. */
  lemma StopsBeforeNyquistAtDesignRate(taps: LowPass, decim: nat)
    requires taps.sampleRate > 0.0 && decim > 0
    requires (taps.cutoff + taps.transition) * (2 * decim) as real <= taps.sampleRate
    ensures StopsBeforeNyquist(taps, taps.sampleRate, decim)
  {
    var r, k := taps.sampleRate, (2 * decim) as real;
    assert r / r == 1.0;
    assert r / k - (taps.cutoff + taps.transition) == (r - (taps.cutoff + taps.transition) * k) / k;
  }

  /** Every decimating filter of the chain removes what would alias after its decimation. */
  lemma DecimatorsDoNotAlias(sampRate: nat)
    requires sampRate >= ONE_MSPS
    ensures StopsBeforeNyquist(NORMALIZED_TAPS, sampRate as real, FIXED_DECIM)
    ensures StopsBeforeNyquist(NORMALIZED_TAPS, XlateRate(sampRate), FIXED_DECIM)
    ensures StopsBeforeNyquist(ChannelTaps(sampRate), ChannelRate(sampRate), SecondDecim(sampRate))
    ensures StopsBeforeNyquist(AudioTaps(sampRate), IfRate(sampRate), FIXED_DECIM)
  {
    var d := SecondDecim(sampRate);
    assert (13_500 * 2 * d) as real <= ChannelRate(sampRate);
    StopsBeforeNyquistAtDesignRate(ChannelTaps(sampRate), d);
    IfRateBand(sampRate);
    StopsBeforeNyquistAtDesignRate(AudioTaps(sampRate), FIXED_DECIM);
  }

  /**
   * Lines 154-159: a depth of 8 bits selects 8-bit PCM; 16 bits and every
   * other depth select 16-bit PCM.
   */
  function WavFormatFor(audioBps: int): (f: WavFormat)
    ensures f == Pcm08 <==> audioBps == 8
    ensures f == Pcm16 <==> audioBps != 8
  {
    if audioBps == 16 then Pcm16
    else if audioBps == 8 then Pcm08
    else Pcm16
  }

  /**
   * Lines 153-171: with recording on, a one-channel WAV sink at the audio
   * rate; otherwise a float null sink.
   */
  function SinkFor(record: bool, audioRate: int, audioBps: int): (b: Block)
    ensures b.WavFileSink? <==> record
    ensures b.Accepts() == Float && b.Produces() == None
    ensures record ==> b.channels == 1 && b.fileRate == audioRate && b.container == ContainerWav && b.format == WavFormatFor(audioBps) && !b.append
  {
    if record then WavFileSink(1, audioRate, ContainerWav, WavFormatFor(audioBps), false)
    else NullSink(Float)
  }
}
