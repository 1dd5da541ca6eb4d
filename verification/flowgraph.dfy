/**
 * The flowgraph that the WBFM hierarchical block wires up
 * (apps/demodulators/WBFM.py, lines 79-171): which block sits at each node,
 * and the edges in the order the `connect` calls add them.
 */
module Flowgraph {
  import opened Wrappers
  import opened Rates
  import opened Blocks

  /** The block's own ports (`Self`: complex input, float output) and the blocks it instantiates. */
  datatype Node = Self | Xlate | DecimFir | ChannelFir | SoftSquelch | Demod | AudioFir | Resampler | HardSquelch | Sink

  datatype Edge = Edge(src: Node, dst: Node)

  /** Line 80: threshold of the non-blocking squelch on the IF. */
  const SOFT_SQUELCH_DB: real := -60.0
  /** Line 150: threshold of the blocking squelch in front of the sink. */
  const HARD_SQUELCH_DB: real := -200.0
  /** Lines 115 and 150: smoothing constant of both squelches. */
  const SQUELCH_ALPHA: real := 0.1
  /** Line 81: the quadrature demodulator's gain at 0 dB volume. */
  const BASE_DEMOD_GAIN: real := 0.050
  /** Line 135: filter-bank size of the polyphase resampler. */
  const RESAMPLER_FLT_SIZE: nat := 32

  /** Lines 138-146: the demodulation path, from the block's input back to its output. */
  const DEMOD_PATH: seq<Node> :=
    [Self, Xlate, DecimFir, ChannelFir, SoftSquelch, Demod, AudioFir, Resampler, Self]

  /** Lines 166-167 and 170-171: the branch wired whatever `record` is. */
  const RECORD_BRANCH: seq<Edge> := [Edge(Resampler, HardSquelch), Edge(HardSquelch, Sink)]

  /** The edges joining consecutive nodes of a path. */
  function PathEdges(p: seq<Node>): (es: seq<Edge>)
    ensures |es| == if p == [] then 0 else |p| - 1
    ensures forall i | 0 <= i < |es| :: es[i] == Edge(p[i], p[i + 1])
  {
    if |p| < 2 then [] else [Edge(p[0], p[1])] + PathEdges(p[1..])
  }

  /** Lines 138-146 and 166-171: every edge of the flowgraph, in the order the constructor connects them. */
  function ChainEdges(): (es: seq<Edge>)
    ensures |es| == 10
    ensures forall i | 0 <= i < |es| :: es[i].src != es[i].dst
  {
    [ Edge(Self, Xlate), Edge(Xlate, DecimFir), Edge(DecimFir, ChannelFir),
      Edge(ChannelFir, SoftSquelch), Edge(SoftSquelch, Demod), Edge(Demod, AudioFir),
      Edge(AudioFir, Resampler), Edge(Resampler, Self),
      Edge(Resampler, HardSquelch), Edge(HardSquelch, Sink) ]
  }

  /** The descriptor the constructor builds for each node; `Self` has none. */
  function ChainBlock(sampRate: nat, audioRate: int, record: bool, audioBps: int, n: Node): (b: Option<Block>)
    requires sampRate >= ONE_MSPS
    ensures b.None? <==> n == Self
  {
    match n
    case Self => None
    case Xlate => Some(FreqXlatingFir(FIXED_DECIM, NORMALIZED_TAPS, 0.0, sampRate as real))
    case DecimFir => Some(Fir(Complex, FIXED_DECIM, NORMALIZED_TAPS))
    case ChannelFir => Some(Fir(Complex, SecondDecim(sampRate), ChannelTaps(sampRate)))
    case SoftSquelch => Some(PwrSquelch(Complex, SOFT_SQUELCH_DB, SQUELCH_ALPHA, 0, false))
    case Demod => Some(QuadratureDemod(BASE_DEMOD_GAIN))
    case AudioFir => Some(Fir(Float, FIXED_DECIM, AudioTaps(sampRate)))
    case Resampler => Some(PfbArbResampler(ResampRatio(sampRate, audioRate), RESAMPLER_FLT_SIZE))
    case HardSquelch => Some(PwrSquelch(Float, HARD_SQUELCH_DB, SQUELCH_ALPHA, 0, true))
    case Sink => Some(SinkFor(record, audioRate, audioBps))
  }

  /** Item type leaving a node; `None` stands for the block's own complex input port. */
  function Leaving(b: Option<Block>): Option<StreamKind>
  {
    match b
    case None => Some(Complex)
    case Some(blk) => blk.Produces()
  }

  /** Item type entering a node; `None` stands for the block's own float output port. */
  function Entering(b: Option<Block>): StreamKind
  {
    match b
    case None => Float
    case Some(blk) => blk.Accepts()
  }

  /** An edge joins a producer to a consumer of the same item type. */
  predicate EdgeTyped(src: Option<Block>, dst: Option<Block>)
  {
    Leaving(src) == Some(Entering(dst))
  }

  /** Rate of the stream arriving at a node (for `Self`: at the block's output port). */
  function ArrivingRate(sampRate: nat, audioRate: int, n: Node): real
    requires sampRate >= ONE_MSPS
  {
    match n
    case Xlate => sampRate as real
    case DecimFir => XlateRate(sampRate)
    case ChannelFir => ChannelRate(sampRate)
    case SoftSquelch => IfRate(sampRate)
    case Demod => IfRate(sampRate)
    case AudioFir => IfRate(sampRate)
    case Resampler => AudioDecimRate(sampRate)
    case _ => audioRate as real
  }

  /**
   * The first eight connections form one unbroken path from the block's input
   * through every stage of the demodulator back to its output; the last two
   * are the recording branch.
   */
  lemma ChainFollowsDemodPath()
    ensures ChainEdges() == PathEdges(DEMOD_PATH) + RECORD_BRANCH
  {
    var main := PathEdges(DEMOD_PATH);
    forall i | 0 <= i < 8
      ensures main[i] == ChainEdges()[i]
    {
      assert main[i] == Edge(DEMOD_PATH[i], DEMOD_PATH[i + 1]);
    }
  }

  /** Every edge joins a producer and a consumer of the same item type. */
  lemma ChainWellTyped(sampRate: nat, audioRate: int, record: bool, audioBps: int)
    requires sampRate >= ONE_MSPS
    ensures forall e | e in ChainEdges() ::
      EdgeTyped(ChainBlock(sampRate, audioRate, record, audioBps, e.src),
                ChainBlock(sampRate, audioRate, record, audioBps, e.dst))
  {
    var es := ChainEdges();
    forall i | 0 <= i < |es|
      ensures EdgeTyped(ChainBlock(sampRate, audioRate, record, audioBps, es[i].src),
                        ChainBlock(sampRate, audioRate, record, audioBps, es[i].dst))
    {
    }
  }

  /**
   * The block's output is taken straight from the resampler, and the sink is
   * reached only through the blocking squelch, which the resampler feeds.
   */
  lemma OutputAndSinkFeeds()
    ensures Edge(Resampler, Self) in ChainEdges()
    ensures Edge(Resampler, HardSquelch) in ChainEdges()
    ensures Edge(HardSquelch, Sink) in ChainEdges()
    ensures forall e | e in ChainEdges() && e.dst == Self :: e.src == Resampler
    ensures forall e | e in ChainEdges() && e.dst == HardSquelch :: e.src == Resampler
    ensures forall e | e in ChainEdges() :: e.src == HardSquelch <==> e.dst == Sink
  {
    var es := ChainEdges();
    assert es[7] == Edge(Resampler, Self) && es[8] == Edge(Resampler, HardSquelch);
    assert es[9] == Edge(HardSquelch, Sink);
    forall i | 0 <= i < |es|
      ensures es[i].dst == Self ==> es[i].src == Resampler
      ensures es[i].dst == HardSquelch ==> es[i].src == Resampler
      ensures es[i].src == HardSquelch <==> es[i].dst == Sink
    {
    }
  }

  /**
   * No block on the path to the output can stop the sample flow; the squelch
   * in front of the sink does.
   */
  lemma OnlySinkBranchBlocks(sampRate: nat, audioRate: int, record: bool, audioBps: int)
    requires sampRate >= ONE_MSPS
    ensures forall n | n in DEMOD_PATH && n != Self ::
      !ChainBlock(sampRate, audioRate, record, audioBps, n).value.Blocking()
    ensures ChainBlock(sampRate, audioRate, record, audioBps, HardSquelch).value.Blocking()
    ensures HardSquelch !in DEMOD_PATH
  {
  }

  /** The rate arriving at the edge's destination is the source's arriving rate scaled by the source block. */
  predicate ScalesAcross(sampRate: nat, audioRate: int, record: bool, audioBps: int, e: Edge)
    requires sampRate >= ONE_MSPS && e.src != Self
  {
    ArrivingRate(sampRate, audioRate, e.dst)
      == ArrivingRate(sampRate, audioRate, e.src)
         * ChainBlock(sampRate, audioRate, record, audioBps, e.src).value.RateFactor()
  }

  /** The two fixed-factor RF decimators, the squelch, the demodulator and the audio decimator scale the rate as their descriptors say. */
  lemma FixedStageRateFactors(sampRate: nat, audioRate: int, record: bool, audioBps: int)
    requires sampRate >= ONE_MSPS
    ensures ScalesAcross(sampRate, audioRate, record, audioBps, Edge(Xlate, DecimFir))
    ensures ScalesAcross(sampRate, audioRate, record, audioBps, Edge(DecimFir, ChannelFir))
    ensures ScalesAcross(sampRate, audioRate, record, audioBps, Edge(SoftSquelch, Demod))
    ensures ScalesAcross(sampRate, audioRate, record, audioBps, Edge(Demod, AudioFir))
    ensures ScalesAcross(sampRate, audioRate, record, audioBps, Edge(AudioFir, Resampler))
  {
    RfStageRateFactors(sampRate, audioRate, record, audioBps);
    IfStageRateFactors(sampRate, audioRate, record, audioBps);
  }

  /** The two /5 decimators ahead of the channel filter. */
  lemma RfStageRateFactors(sampRate: nat, audioRate: int, record: bool, audioBps: int)
    requires sampRate >= ONE_MSPS
    ensures ScalesAcross(sampRate, audioRate, record, audioBps, Edge(Xlate, DecimFir))
    ensures ScalesAcross(sampRate, audioRate, record, audioBps, Edge(DecimFir, ChannelFir))
  {
    StagesCompose(sampRate);
  }

  /** The squelch, the demodulator and the /5 audio decimator. */
  lemma IfStageRateFactors(sampRate: nat, audioRate: int, record: bool, audioBps: int)
    requires sampRate >= ONE_MSPS
    ensures ScalesAcross(sampRate, audioRate, record, audioBps, Edge(SoftSquelch, Demod))
    ensures ScalesAcross(sampRate, audioRate, record, audioBps, Edge(Demod, AudioFir))
    ensures ScalesAcross(sampRate, audioRate, record, audioBps, Edge(AudioFir, Resampler))
  {
    StagesCompose(sampRate);
  }

  /** The channel filter divides the rate by the rate-dependent factor int(samp_rate / 1E6). */
  lemma ChannelStageRateFactor(sampRate: nat, audioRate: int, record: bool, audioBps: int)
    requires sampRate >= ONE_MSPS
    ensures ScalesAcross(sampRate, audioRate, record, audioBps, Edge(ChannelFir, SoftSquelch))
  {
    StagesCompose(sampRate);
    var d := SecondDecim(sampRate);
    DivisionAsScaling(ChannelRate(sampRate), d as real);
    var factor := ChainBlock(sampRate, audioRate, record, audioBps, ChannelFir).value.RateFactor();
    assert factor == 1.0 / d as real;
    assert IfRate(sampRate) == ChannelRate(sampRate) * factor;
  }

  /** The resampler turns the audio-decimated rate into the audio rate seen by the output, the squelch and the sink. */
  lemma ResamplerRateFactors(sampRate: nat, audioRate: int, record: bool, audioBps: int)
    requires sampRate >= ONE_MSPS
    ensures ScalesAcross(sampRate, audioRate, record, audioBps, Edge(Resampler, Self))
    ensures ScalesAcross(sampRate, audioRate, record, audioBps, Edge(Resampler, HardSquelch))
    ensures ScalesAcross(sampRate, audioRate, record, audioBps, Edge(HardSquelch, Sink))
  {
    OutputRateIsAudioRate(sampRate, audioRate);
    assert ChainBlock(sampRate, audioRate, record, audioBps, Resampler).value.RateFactor()
        == ResampRatio(sampRate, audioRate);
  }

  /**
   * Along every edge, the rate arriving at the destination is the rate
   * arriving at the source scaled by the source block's rate factor; so the
   * output port and the sink see exactly the audio rate, the two rate-dependent
   * filters are designed at the rate they are fed, and the WAV sink is
   * configured at the rate it receives.
   */
  // The first ensures is the substance: `ArrivingRate` is a table written
  // node by node, and scaling across every edge is what ties that table to
  // the wiring at both ends. The remaining clauses read off its entries.
  lemma RatesFollowWiring(sampRate: nat, audioRate: int, record: bool, audioBps: int)
    requires sampRate >= ONE_MSPS
    ensures forall e | e in ChainEdges() && e.src != Self ::
      ScalesAcross(sampRate, audioRate, record, audioBps, e)
    ensures ArrivingRate(sampRate, audioRate, Self) == audioRate as real
    ensures ArrivingRate(sampRate, audioRate, Sink) == audioRate as real
    ensures ChannelTaps(sampRate).sampleRate == ArrivingRate(sampRate, audioRate, ChannelFir)
    ensures AudioTaps(sampRate).sampleRate == ArrivingRate(sampRate, audioRate, AudioFir)
    ensures record ==>
      ChainBlock(sampRate, audioRate, record, audioBps, Sink).value.fileRate as real
        == ArrivingRate(sampRate, audioRate, Sink)
  {
    FixedStageRateFactors(sampRate, audioRate, record, audioBps);
    ChannelStageRateFactor(sampRate, audioRate, record, audioBps);
    ResamplerRateFactors(sampRate, audioRate, record, audioBps);
    var es := ChainEdges();
    forall i | 0 <= i < |es| && es[i].src != Self
      ensures ScalesAcross(sampRate, audioRate, record, audioBps, es[i])
    {
    }
  }
}
