TestResult.DisplayName,TestResult.Outcome,TestResult.Duration,TestResult.ResourceCount,RandomSeed
Flowgraph.ChainFollowsDemodPath (correctness),Passed,00:00:00.6231902,783664,3
Flowgraph.ChainWellTyped (correctness),Passed,00:00:00.2307064,339888,3
Wbfm.TunerDemodWbfm._ctor (correctness),Passed,00:00:00.2069463,205063,3
Flowgraph.ChannelStageRateFactor (correctness),Passed,00:00:00.1475378,370829,3
Flowgraph.ChainBlock (well-formedness),Passed,00:00:00.1331476,85289,3
Flowgraph.RatesFollowWiring (correctness),Passed,00:00:00.1304351,299208,3
Wbfm.TunerDemodWbfm._ctor (well-formedness),Passed,00:00:00.1227912,100829,3
Wbfm.TunerDemodWbfm.ConnectChain (correctness),Passed,00:00:00.1174764,279126,3
Blocks.DecimatorsDoNotAlias (correctness),Passed,00:00:00.1085217,131323,3
Flowgraph.RfStageRateFactors (well-formedness),Passed,00:00:00.1018638,78392,3
Ctcss.IndexOf (well-formedness),Passed,00:00:00.1004183,53263,3
Ctcss.BitNot (well-formedness),Passed,00:00:00.0957512,6156,3
Flowgraph.OutputAndSinkFeeds (correctness),Passed,00:00:00.0935819,125699,3
Flowgraph.OnlySinkBranchBlocks (well-formedness),Passed,00:00:00.0931109,80013,3
Flowgraph.ArrivingRate (well-formedness),Passed,00:00:00.0922944,19955,3
Wbfm.Build (well-formedness),Passed,00:00:00.0845420,117318,3
Wbfm.VolumeGain (well-formedness),Passed,00:00:00.0810013,15056,3
Flowgraph.RatesFollowWiring (well-formedness),Passed,00:00:00.0802644,112458,3
Flowgraph.IfStageRateFactors (correctness),Passed,00:00:00.0792538,497421,3
Wbfm.VolumeDoesNotCompound (correctness),Passed,00:00:00.0772956,78060,3
Wbfm.VolumeZeroRestoresBase (correctness),Passed,00:00:00.0759846,14388,3
Flowgraph.ResamplerRateFactors (correctness),Passed,00:00:00.0758209,190232,3
Flowgraph.ResamplerRateFactors (well-formedness),Passed,00:00:00.0754561,81128,3
Wbfm.Build (correctness),Passed,00:00:00.0746122,124077,3
Flowgraph.IfStageRateFactors (well-formedness),Passed,00:00:00.0715413,81273,3
Wbfm.VolumeDoesNotCompound (well-formedness),Passed,00:00:00.0704930,61418,3
Blocks.DecimatorsDoNotAlias (well-formedness),Passed,00:00:00.0690018,22388,3
Flowgraph.FixedStageRateFactors (well-formedness),Passed,00:00:00.0685432,86743,3
Flowgraph.OnlySinkBranchBlocks (correctness),Passed,00:00:00.0665260,108849,3
Flowgraph.RfStageRateFactors (correctness),Passed,00:00:00.0649426,256723,3
Flowgraph.ChainWellTyped (well-formedness),Passed,00:00:00.0588323,79650,3
Flowgraph.ChannelStageRateFactor (well-formedness),Passed,00:00:00.0575564,76916,3
Flowgraph.ScalesAcross (well-formedness),Passed,00:00:00.0574896,78302,3
Wbfm.TunerDemodWbfm.SetCtcssTone (correctness),Passed,00:00:00.0545869,46891,3
Rates.StagesCompose (correctness),Passed,00:00:00.0545160,50542,3
Rates.StagesCompose (well-formedness),Passed,00:00:00.0519176,14386,3
Wbfm.TunerDemodWbfm.SetVolume (well-formedness),Passed,00:00:00.0496332,61035,3
Wbfm.TunerDemodWbfm.SetVolume (correctness),Passed,00:00:00.0429831,72167,3
Flowgraph.FixedStageRateFactors (correctness),Passed,00:00:00.0413396,68294,3
Flowgraph.ChainEdges (well-formedness),Passed,00:00:00.0348028,37680,3
Wbfm.TunerDemodWbfm.Valid (well-formedness),Passed,00:00:00.0309514,46061,3
Blocks.SinkFor (well-formedness),Passed,00:00:00.0299259,49161,3
Flowgraph.PathEdges (well-formedness),Passed,00:00:00.0286187,41656,3
Blocks.Block.RateFactor (well-formedness),Passed,00:00:00.0285799,23226,3
Wbfm.TunerDemodWbfm.SetCtcssTone (well-formedness),Passed,00:00:00.0285447,41914,3
Ctcss.SelectTone (well-formedness),Passed,00:00:00.0284193,37335,3
Wbfm.TunerDemodWbfm.DemodGain (well-formedness),Passed,00:00:00.0283448,49933,3
Ctcss.SelectToneSubstitutesFirst (correctness),Passed,00:00:00.0256304,45351,3
Blocks.ChannelTaps (well-formedness),Passed,00:00:00.0249411,18810,3
Blocks.Block.Blocking (well-formedness),Passed,00:00:00.0241238,19772,3
Rates.ResampRatioBounds (correctness),Passed,00:00:00.0240422,51448,3
Ctcss.SelectToneReturnsRequestIff (correctness),Passed,00:00:00.0236430,28840,3
Blocks.StopsBeforeNyquist (well-formedness),Passed,00:00:00.0218264,7748,3
Wbfm.TunerDemodWbfm.BlockAt (well-formedness),Passed,00:00:00.0209805,34826,3
Wbfm.TunerDemodWbfm.Connect (well-formedness),Passed,00:00:00.0201553,19798,3
Wbfm.TunerDemodWbfm.ConnectChain (well-formedness),Passed,00:00:00.0192240,23955,3
Ctcss.SelectToneReturnsRequestIff (well-formedness),Passed,00:00:00.0189609,28544,3
Ctcss.SelectedToneInTable (well-formedness),Passed,00:00:00.0185319,26381,3
Rates.IfRateBand (correctness),Passed,00:00:00.0182649,44781,3
Ctcss.SelectedToneInTable (correctness),Passed,00:00:00.0180882,29291,3
Wbfm.TunerDemodWbfm.Connect (correctness),Passed,00:00:00.0171988,20638,3
Rates.OutputRateIndependentOfInput (well-formedness),Passed,00:00:00.0168199,10150,3
Wbfm.VolumeTwentyDbTimesTen (correctness),Passed,00:00:00.0166099,14590,3
Blocks.AudioTaps (well-formedness),Passed,00:00:00.0159278,17826,3
Rates.OutputRateIsAudioRate (correctness),Passed,00:00:00.0156496,19712,3
Rates.IfRateBand (well-formedness),Passed,00:00:00.0154084,8095,3
Rates.AudioDecimRateBand (correctness),Passed,00:00:00.0151987,16921,3
Rates.ResampRatioBounds (well-formedness),Passed,00:00:00.0148506,10475,3
Rates.ResampRatio (well-formedness),Passed,00:00:00.0147921,18936,3
Blocks.StopsBeforeNyquistAtDesignRate (correctness),Passed,00:00:00.0147079,20392,3
Rates.ChannelRate (well-formedness),Passed,00:00:00.0146013,8993,3
Rates.AudioDecimRate (well-formedness),Passed,00:00:00.0143746,17454,3
Rates.OutputRateIsAudioRate (well-formedness),Passed,00:00:00.0139944,9375,3
Rates.AudioDecimRateBand (well-formedness),Passed,00:00:00.0136770,8149,3
Blocks.WavFormatFor (well-formedness),Passed,00:00:00.0125310,8599,3
Rates.IfRate (well-formedness),Passed,00:00:00.0116272,16856,3
Rates.OutputRateIndependentOfInput (correctness),Passed,00:00:00.0114453,14150,3
Rates.SecondDecim (well-formedness),Passed,00:00:00.0110853,10257,3
Rates.XlateRate (well-formedness),Passed,00:00:00.0098208,4899,3
Rates.DivideInTurn (correctness),Passed,00:00:00.0095779,6709,3
Rates.FIXED_DECIM (well-formedness),Passed,00:00:00.0093697,3751,3
Rates.ONE_MSPS (well-formedness),Passed,00:00:00.0093256,3751,3
Rates.QuotientBetween (well-formedness),Passed,00:00:00.0080170,4035,3
Rates.DivisionAsScaling (correctness),Passed,00:00:00.0078268,3607,3
Rates.DivideInTurn (well-formedness),Passed,00:00:00.0074210,3812,3
Rates.QuotientBetween (correctness),Passed,00:00:00.0068190,9335,3
Flowgraph.RESAMPLER_FLT_SIZE (well-formedness),Passed,00:00:00.0064757,3751,3
Rates.DivisionAsScaling (well-formedness),Passed,00:00:00.0061540,3341,3
