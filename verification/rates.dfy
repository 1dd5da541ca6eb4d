/**
 * Sample-rate arithmetic of the WBFM chain (apps/demodulators/WBFM.py, lines 86-135).
 *
 * Rates are `real`, that is exact rational arithmetic; the input rate is a
 * non-negative integer. The chain decimates by 5 (frequency-translating FIR),
 * 5 (FIR), d1 = int(samp_rate / 1E6) (channel FIR) and 5 (audio FIR), then
 * resamples by an arbitrary ratio to the audio rate.
 */
module Rates {

  /** The divisor of line 86: one mega-sample per second. */
  const ONE_MSPS: nat := 1_000_000

  /** decims[0]: the fixed factor of both RF stages and of the audio stage. */
  const FIXED_DECIM: nat := 5

  /** decims[1] = int(samp_rate / 1E6): floor division on a non-negative rate. */
  function SecondDecim(sampRate: nat): (d: nat)
    ensures d * ONE_MSPS <= sampRate < (d + 1) * ONE_MSPS
    ensures d >= 1 <==> sampRate >= ONE_MSPS
  {
    sampRate / ONE_MSPS
  }

  /** Rate leaving the frequency-translating FIR (first decimation by 5). */
  function XlateRate(sampRate: nat): real
  {
    sampRate as real / FIXED_DECIM as real
  }

  /** samp_rate / decims[0]**2: rate leaving the second FIR, at which the channel filter is designed. */
  function ChannelRate(sampRate: nat): (r: real)
    ensures r >= 0.0
    ensures r * (FIXED_DECIM * FIXED_DECIM) as real == sampRate as real
  {
    sampRate as real / (FIXED_DECIM * FIXED_DECIM) as real
  }

  /** samp_rate / (decims[1] * decims[0]**2): the IF rate seen by the squelch and the demodulator. */
  function IfRate(sampRate: nat): (r: real)
    requires sampRate >= ONE_MSPS
    ensures r > 0.0
    ensures r * (SecondDecim(sampRate) * FIXED_DECIM * FIXED_DECIM) as real == sampRate as real
  {
    sampRate as real / (SecondDecim(sampRate) * FIXED_DECIM * FIXED_DECIM) as real
  }

  /** samp_rate / (decims[1] * decims[0]**3): the rate leaving the audio FIR. */
  function AudioDecimRate(sampRate: nat): (r: real)
    requires sampRate >= ONE_MSPS
    ensures r > 0.0
    ensures r * (SecondDecim(sampRate) * FIXED_DECIM * FIXED_DECIM * FIXED_DECIM) as real == sampRate as real
  {
    sampRate as real / (SecondDecim(sampRate) * FIXED_DECIM * FIXED_DECIM * FIXED_DECIM) as real
  }

  /** audio_rate / (samp_rate / (decims[1] * decims[0]**3)): the polyphase resampler's ratio. */
  function ResampRatio(sampRate: nat, audioRate: int): (r: real)
    requires sampRate >= ONE_MSPS
    ensures r > 0.0 <==> audioRate > 0
    ensures r == 0.0 <==> audioRate == 0
  {
    audioRate as real / AudioDecimRate(sampRate)
  }

  /** Dividing by a product of positive factors is dividing by each in turn. */
  lemma DivideInTurn(x: real, a: real, b: real)
    requires a > 0.0 && b > 0.0
    ensures x / (a * b) == (x / a) / b
  {
    var q := x / (a * b);
    assert q * (a * b) == x;
    assert (q * b) * a == x;
    assert q * b == x / a;
  }

  /** The rates computed directly in the source are the stage-by-stage quotients of the decimation plan. */
  lemma StagesCompose(sampRate: nat)
    requires sampRate >= ONE_MSPS
    ensures ChannelRate(sampRate) == XlateRate(sampRate) / FIXED_DECIM as real
    ensures IfRate(sampRate) == ChannelRate(sampRate) / SecondDecim(sampRate) as real
    ensures AudioDecimRate(sampRate) == IfRate(sampRate) / FIXED_DECIM as real
  {
    var r, d := sampRate as real, SecondDecim(sampRate) as real;
    assert (SecondDecim(sampRate) * FIXED_DECIM * FIXED_DECIM) as real == 25.0 * d;
    assert (SecondDecim(sampRate) * FIXED_DECIM * FIXED_DECIM * FIXED_DECIM) as real == (25.0 * d) * 5.0;
    DivideInTurn(r, 25.0, d);
    DivideInTurn(r, 25.0 * d, 5.0);
  }

  /** Dividing by a positive factor is scaling by its reciprocal. */
  lemma DivisionAsScaling(x: real, d: real)
    requires d > 0.0
    ensures x / d == x * (1.0 / d)
  {
  }

  /** For a positive denominator, `lo <= n / q < hi` follows from `lo * q <= n < hi * q`. */
  lemma QuotientBetween(n: real, q: real, lo: real, hi: real)
    requires q > 0.0
    requires lo * q <= n < hi * q
    ensures lo <= n / q < hi
  {
    assert n / q - lo == (n - lo * q) / q;
    assert n / q - hi == (n - hi * q) / q;
  }

  /** For every input rate of at least 1 Msps, the IF rate lies in [40 ksps, 80 ksps). */
  lemma IfRateBand(sampRate: nat)
    requires sampRate >= ONE_MSPS
    ensures 40_000.0 <= IfRate(sampRate) < 80_000.0
  {
    var d := SecondDecim(sampRate);
    assert (d + 1) * ONE_MSPS <= 2 * d * ONE_MSPS;
    var q := (d * 25) as real;
    assert 40_000.0 * q == (d * ONE_MSPS) as real;
    assert 80_000.0 * q == (2 * d * ONE_MSPS) as real;
    QuotientBetween(sampRate as real, q, 40_000.0, 80_000.0);
  }

  /** For every input rate of at least 1 Msps, the audio-decimated rate lies in [8 ksps, 16 ksps). */
  lemma AudioDecimRateBand(sampRate: nat)
    requires sampRate >= ONE_MSPS
    ensures 8_000.0 <= AudioDecimRate(sampRate) < 16_000.0
  {
    IfRateBand(sampRate);
    StagesCompose(sampRate);
  }

  /** The resampler turns the audio-decimated rate into exactly the configured audio rate. */
  lemma OutputRateIsAudioRate(sampRate: nat, audioRate: int)
    requires sampRate >= ONE_MSPS
    ensures AudioDecimRate(sampRate) * ResampRatio(sampRate, audioRate) == audioRate as real
  {
    AudioDecimRateBand(sampRate);
  }

  /** The output rate does not depend on the input rate. */
  lemma OutputRateIndependentOfInput(rate1: nat, rate2: nat, audioRate: int)
    requires rate1 >= ONE_MSPS && rate2 >= ONE_MSPS
    ensures AudioDecimRate(rate1) * ResampRatio(rate1, audioRate)
         == AudioDecimRate(rate2) * ResampRatio(rate2, audioRate)
  {
    OutputRateIsAudioRate(rate1, audioRate);
    OutputRateIsAudioRate(rate2, audioRate);
  }

  /** For a positive audio rate the resampling ratio lies in (audio_rate/16000, audio_rate/8000]. */
  lemma ResampRatioBounds(sampRate: nat, audioRate: int)
    requires sampRate >= ONE_MSPS && audioRate > 0
    ensures audioRate as real / 16_000.0 < ResampRatio(sampRate, audioRate) <= audioRate as real / 8_000.0
  {
    var x := AudioDecimRate(sampRate);
    var a := audioRate as real;
    AudioDecimRateBand(sampRate);
    assert a / x - a / 16_000.0 == a * (16_000.0 - x) / (16_000.0 * x);
    assert a / 8_000.0 - a / x == a * (x - 8_000.0) / (8_000.0 * x);
  }
}
