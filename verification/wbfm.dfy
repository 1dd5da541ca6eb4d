/**
 * The WBFM tuner/demodulator/recorder block (apps/demodulators/WBFM.py,
 * class TunerDemodWBFM): construction of the chain and the two control-plane
 * setters, as a class whose fields the source updates in place.
 */
module Wbfm {
  import opened Wrappers
  import opened Rates
  import opened Blocks
  import opened Flowgraph
  import opened Ctcss

  /** Construction fails when int(samp_rate / 1E6) is 0: the rate divisions by decims[1] raise ZeroDivisionError. */
  datatype ConfigError = ZeroDecimation

  /** Gain of the quadrature demodulator at `volumeDb`; `dbToLinear` stands for 10**(v/20). */
  function VolumeGain(baseGain: real, volumeDb: real, dbToLinear: real -> real): (g: real)
    ensures baseGain != 0.0 ==> g / baseGain == dbToLinear(volumeDb)
    ensures baseGain > 0.0 && dbToLinear(volumeDb) > 0.0 ==> g > 0.0
  {
    baseGain * dbToLinear(volumeDb)
  }

  /** A volume of 0 dB restores the base gain. */
  lemma VolumeZeroRestoresBase(baseGain: real, dbToLinear: real -> real)
    requires dbToLinear(0.0) == 1.0
    ensures VolumeGain(baseGain, 0.0, dbToLinear) == baseGain
  {
  }

  /** A volume of 20 dB multiplies the base gain by ten. */
  lemma VolumeTwentyDbTimesTen(baseGain: real, dbToLinear: real -> real)
    requires dbToLinear(20.0) == 10.0
    ensures VolumeGain(baseGain, 20.0, dbToLinear) == 10.0 * baseGain
  {
  }

  class TunerDemodWbfm {
    /** Baseband center frequency of the translating filter, in Hz. */
    var centerFreq: real
    /** Base gain of the demodulator; never changed after construction. */
    var quadDemodGain: real
    var fileName: Option<string>
    var record: bool
    /** Held by the base tuner class. */
    var audioRate: int
    var audioBps: int
    var ctcssIndex: int
    var ctcssTone: real

    var xlate: Block
    var decimFir: Block
    var channelFir: Block
    var softSquelch: Block
    var demod: Block
    var audioFir: Block
    var resampler: Block
    var hardSquelch: Block
    var sink: Block

    /** The connections made so far, in order. */
    var edges: seq<Edge>

    /** The block at a node; `None` for the block's own ports. */
    function BlockAt(n: Node): Option<Block>
      reads this
    {
      match n
      case Self => None
      case Xlate => Some(xlate)
      case DecimFir => Some(decimFir)
      case ChannelFir => Some(channelFir)
      case SoftSquelch => Some(softSquelch)
      case Demod => Some(demod)
      case AudioFir => Some(audioFir)
      case Resampler => Some(resampler)
      case HardSquelch => Some(hardSquelch)
      case Sink => Some(sink)
    }

    /** The full chain is wired and the demodulator is a quadrature demodulator. */
    ghost predicate Valid()
      reads this
    {
      && edges == ChainEdges()
      && demod.QuadratureDemod?
    }

    /** The gain the demodulator currently runs at. */
    function DemodGain(): real
      reads this
      requires Valid()
    {
      demod.gain
    }

    /** self.connect(src, dst): appends one edge. */
    method Connect(src: Node, dst: Node)
      modifies this`edges
      ensures edges == old(edges) + [Edge(src, dst)]
    {
      edges := edges + [Edge(src, dst)];
    }

    /**
     * Lines 76-171 once the second decimation factor is at least 1: sets the
     * defaults, builds each block, then connects the demodulation path and the
     * recording branch.
     */
    constructor (sampRate: nat, audioRate: int, record: bool, audioBps: int)
      requires SecondDecim(sampRate) >= 1
      ensures Valid()
      ensures this.audioRate == audioRate && this.audioBps == audioBps && this.record == record
      ensures centerFreq == 0.0 && quadDemodGain == BASE_DEMOD_GAIN && fileName == None
      ensures DemodGain() == quadDemodGain
      ensures forall n :: BlockAt(n) == ChainBlock(sampRate, audioRate, record, audioBps, n)
    {
      this.audioRate := audioRate;
      this.audioBps := audioBps;
      centerFreq := 0.0;
      var squelchDb := SOFT_SQUELCH_DB;
      quadDemodGain := BASE_DEMOD_GAIN;
      fileName := None;
      this.record := record;
      var decims := (FIXED_DECIM, SecondDecim(sampRate));
      var taps0 := NORMALIZED_TAPS;
      xlate := FreqXlatingFir(decims.0, taps0, 0.0, sampRate as real);
      decimFir := Fir(Complex, decims.0, taps0);
      var taps1 := ChannelTaps(sampRate);
      channelFir := Fir(Complex, decims.1, taps1);
      softSquelch := PwrSquelch(Complex, squelchDb, SQUELCH_ALPHA, 0, false);
      demod := QuadratureDemod(BASE_DEMOD_GAIN);
      var taps2 := AudioTaps(sampRate);
      audioFir := Fir(Float, decims.0, taps2);
      resampler := PfbArbResampler(ResampRatio(sampRate, audioRate), RESAMPLER_FLT_SIZE);
      hardSquelch := PwrSquelch(Float, HARD_SQUELCH_DB, SQUELCH_ALPHA, 0, true);
      if record {
        sink := WavFileSink(1, audioRate, ContainerWav, WavFormatFor(audioBps), false);
      } else {
        sink := NullSink(Float);
      }
      edges := [];
      new;
      ConnectChain();
      forall n
        ensures BlockAt(n) == ChainBlock(sampRate, audioRate, record, audioBps, n)
      {
        match n
        case Self =>
        case Xlate =>
        case DecimFir =>
        case ChannelFir =>
        case SoftSquelch =>
        case Demod =>
        case AudioFir =>
        case Resampler =>
        case HardSquelch =>
        case Sink =>
      }
    }

    /** Lines 138-146 and 166-171: the connect calls, in order. */
    method ConnectChain()
      requires edges == []
      modifies this`edges
      ensures edges == ChainEdges()
    {
      Connect(Self, Xlate);
      Connect(Xlate, DecimFir);
      Connect(DecimFir, ChannelFir);
      Connect(ChannelFir, SoftSquelch);
      Connect(SoftSquelch, Demod);
      Connect(Demod, AudioFir);
      Connect(AudioFir, Resampler);
      Connect(Resampler, Self);
      Connect(Resampler, HardSquelch);
      Connect(HardSquelch, Sink);
    }

    /**
     * Lines 173-180: the demodulator's gain becomes the fixed base gain scaled
     * by the volume, so successive calls do not compound.
     */
    method SetVolume(volumeDb: real, dbToLinear: real -> real)
      requires Valid()
      modifies this`demod
      ensures Valid()
      ensures quadDemodGain == old(quadDemodGain)
      ensures DemodGain() == VolumeGain(quadDemodGain, volumeDb, dbToLinear)
    {
      var gain := quadDemodGain * dbToLinear(volumeDb);
      demod := demod.(gain := gain);
    }

    /**
     * Lines 182-192: an absent tone fails and leaves the CTCSS state as it
     * was; a present one always stores index 0 and returns the table's first
     * entry.
     */
    method SetCtcssTone(tone: real, table: seq<real>) returns (r: Result<real, ToneError>)
      modifies this`ctcssIndex, this`ctcssTone
      ensures r.Failure? <==> tone !in table
      ensures r.Failure? ==> ctcssIndex == old(ctcssIndex) && ctcssTone == old(ctcssTone)
      ensures r.Success? ==> r.value == ctcssTone == table[0] && ctcssIndex == 0
      ensures r.Success? ==> (ctcssIndex, ctcssTone) == SelectTone(table, tone).value
    {
      var found := IndexOf(table, tone);
      if found.None? {
        return Failure(ToneNotInTable);
      }
      ctcssIndex := found.value;
      if BitNot(ctcssIndex) != 0 {
        ctcssIndex := 0;
      }
      ctcssTone := table[ctcssIndex];
      r := Success(ctcssTone);
    }
  }

  /**
   * Construction as the source performs it: below 1 Msps the second
   * decimation factor is 0 and construction fails; otherwise the chain is
   * built and wired.
   */
  method Build(sampRate: nat, audioRate: int, record: bool, audioBps: int)
    returns (r: Result<TunerDemodWbfm, ConfigError>)
    ensures r.Failure? <==> sampRate < ONE_MSPS
    ensures r.Success? ==> fresh(r.value) && r.value.Valid() && r.value.edges == ChainEdges()
    ensures r.Success? ==> r.value.record == record && r.value.DemodGain() == BASE_DEMOD_GAIN
    ensures r.Success? ==>
      && r.value.quadDemodGain == BASE_DEMOD_GAIN && r.value.centerFreq == 0.0
      && r.value.fileName == None && r.value.audioRate == audioRate && r.value.audioBps == audioBps
    ensures r.Success? ==>
      forall n :: r.value.BlockAt(n) == ChainBlock(sampRate, audioRate, record, audioBps, n)
  {
    if SecondDecim(sampRate) == 0 {
      return Failure(ZeroDecimation);
    }
    var tuner := new TunerDemodWbfm(sampRate, audioRate, record, audioBps);
    r := Success(tuner);
  }

  /** Two volume changes in a row: the gain follows the last one, and 0 dB restores the base gain. */
  method VolumeDoesNotCompound(tuner: TunerDemodWbfm, dbToLinear: real -> real)
    requires tuner.Valid()
    requires dbToLinear(0.0) == 1.0
    modifies tuner`demod
    ensures tuner.Valid()
    ensures tuner.DemodGain() == tuner.quadDemodGain
  {
    tuner.SetVolume(20.0, dbToLinear);
    tuner.SetVolume(0.0, dbToLinear);
    VolumeZeroRestoresBase(tuner.quadDemodGain, dbToLinear);
  }
}
