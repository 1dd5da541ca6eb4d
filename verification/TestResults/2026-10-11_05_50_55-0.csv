TestResult.DisplayName,TestResult.Outcome,TestResult.Duration,TestResult.ResourceCount,RandomSeed
Flowgraph.ChainFollowsDemodPath (correctness),Passed,00:00:00.3804599,583278,2
Flowgraph.ChainWellTyped (correctness),Passed,00:00:00.2397349,363130,2
Wbfm.TunerDemodWbfm._ctor (correctness),Passed,00:00:00.2116636,209680,2
Flowgraph.RatesFollowWiring (correctness),Passed,00:00:00.1974293,346561,2
Flowgraph.ChainBlock (well-formedness),Passed,00:00:00.1648898,85293,2
Wbfm.TunerDemodWbfm._ctor (well-formedness),Passed,00:00:00.1386743,100881,2
Flowgraph.RfStageRateFactors (correctness),Passed,00:00:00.1365438,270466,2
Flowgraph.IfStageRateFactors (correctness),Passed,00:00:00.1253809,399053,2
Wbfm.TunerDemodWbfm.ConnectChain (correctness),Passed,00:00:00.1204277,250541,2
Ctcss.IndexOf (well-formedness),Passed,00:00:00.1129696,53253,2
Flowgraph.ChannelStageRateFactor (correctness),Passed,00:00:00.1038013,357913,2
Ctcss.BitNot (well-formedness),Passed,00:00:00.1036410,6155,2
Flowgraph.RfStageRateFactors (well-formedness),Passed,00:00:00.1014233,78367,2
Flowgraph.RatesFollowWiring (well-formedness),Passed,00:00:00.0989421,112410,2
Flowgraph.OutputAndSinkFeeds (correctness),Passed,00:00:00.0975359,142936,2
Flowgraph.OnlySinkBranchBlocks (correctness),Passed,00:00:00.0927887,108612,2
Flowgraph.ArrivingRate (well-formedness),Passed,00:00:00.0917614,19953,2
Flowgraph.ResamplerRateFactors (correctness),Passed,00:00:00.0900316,189419,2
Flowgraph.OnlySinkBranchBlocks (well-formedness),Passed,00:00:00.0875267,80010,2
Blocks.DecimatorsDoNotAlias (well-formedness),Passed,00:00:00.0862598,22403,2
Wbfm.VolumeZeroRestoresBase (correctness),Passed,00:00:00.0804423,14388,2
Wbfm.Build (correctness),Passed,00:00:00.0804272,124127,2
Wbfm.VolumeGain (well-formedness),Passed,00:00:00.0776363,15062,2
Flowgraph.FixedStageRateFactors (correctness),Passed,00:00:00.0774345,68312,2
Wbfm.VolumeDoesNotCompound (correctness),Passed,00:00:00.0769126,77993,2
Wbfm.TunerDemodWbfm.SetVolume (correctness),Passed,00:00:00.0766485,72191,2
Flowgraph.FixedStageRateFactors (well-formedness),Passed,00:00:00.0726116,86729,2
Flowgraph.ScalesAcross (well-formedness),Passed,00:00:00.0724833,78263,2
Rates.StagesCompose (correctness),Passed,00:00:00.0678734,51799,2
Wbfm.Build (well-formedness),Passed,00:00:00.0673102,117311,2
Flowgraph.ChainWellTyped (well-formedness),Passed,00:00:00.0662456,79643,2
Flowgraph.IfStageRateFactors (well-formedness),Passed,00:00:00.0656527,81256,2
Rates.StagesCompose (well-formedness),Passed,00:00:00.0650867,14416,2
Wbfm.TunerDemodWbfm.SetCtcssTone (correctness),Passed,00:00:00.0588786,46886,2
Blocks.DecimatorsDoNotAlias (correctness),Passed,00:00:00.0561465,131958,2
Wbfm.TunerDemodWbfm.SetVolume (well-formedness),Passed,00:00:00.0559099,61042,2
Flowgraph.ChannelStageRateFactor (well-formedness),Passed,00:00:00.0549487,76878,2
Flowgraph.ResamplerRateFactors (well-formedness),Passed,00:00:00.0537749,81112,2
Wbfm.VolumeDoesNotCompound (well-formedness),Passed,00:00:00.0432055,61432,2
Blocks.SinkFor (well-formedness),Passed,00:00:00.0431477,49138,2
Ctcss.SelectToneReturnsRequestIff (correctness),Passed,00:00:00.0378191,28842,2
Wbfm.TunerDemodWbfm.DemodGain (well-formedness),Passed,00:00:00.0363071,49874,2
Flowgraph.PathEdges (well-formedness),Passed,00:00:00.0362541,42153,2
Wbfm.TunerDemodWbfm.Valid (well-formedness),Passed,00:00:00.0344083,46028,2
Ctcss.SelectToneReturnsRequestIff (well-formedness),Passed,00:00:00.0330998,28546,2
Ctcss.SelectedToneInTable (well-formedness),Passed,00:00:00.0317450,26383,2
Wbfm.TunerDemodWbfm.SetCtcssTone (well-formedness),Passed,00:00:00.0298429,41900,2
Ctcss.SelectedToneInTable (correctness),Passed,00:00:00.0293604,29293,2
Ctcss.SelectTone (well-formedness),Passed,00:00:00.0290146,37326,2
Flowgraph.ChainEdges (well-formedness),Passed,00:00:00.0276355,37456,2
Wbfm.TunerDemodWbfm.BlockAt (well-formedness),Passed,00:00:00.0271363,34825,2
Blocks.Block.RateFactor (well-formedness),Passed,00:00:00.0268554,23225,2
Ctcss.SelectToneSubstitutesFirst (correctness),Passed,00:00:00.0263489,44001,2
Wbfm.TunerDemodWbfm.Connect (correctness),Passed,00:00:00.0255402,20632,2
Blocks.Block.Blocking (well-formedness),Passed,00:00:00.0252196,19771,2
Rates.ResampRatioBounds (correctness),Passed,00:00:00.0241943,51494,2
Wbfm.TunerDemodWbfm.Connect (well-formedness),Passed,00:00:00.0238456,19788,2
Blocks.AudioTaps (well-formedness),Passed,00:00:00.0222893,17827,2
Blocks.StopsBeforeNyquistAtDesignRate (correctness),Passed,00:00:00.0191615,20393,2
Wbfm.TunerDemodWbfm.ConnectChain (well-formedness),Passed,00:00:00.0188095,23956,2
Rates.IfRateBand (well-formedness),Passed,00:00:00.0185128,8093,2
Blocks.WavFormatFor (well-formedness),Passed,00:00:00.0185014,8597,2
Rates.IfRate (well-formedness),Passed,00:00:00.0180702,16853,2
Wbfm.VolumeTwentyDbTimesTen (correctness),Passed,00:00:00.0165302,14626,2
Rates.ResampRatioBounds (well-formedness),Passed,00:00:00.0153856,10475,2
Rates.OutputRateIndependentOfInput (correctness),Passed,00:00:00.0153196,14193,2
Rates.IfRateBand (correctness),Passed,00:00:00.0152351,45493,2
Rates.OutputRateIsAudioRate (correctness),Passed,00:00:00.0151836,19884,2
Rates.AudioDecimRate (well-formedness),Passed,00:00:00.0151096,17453,2
Rates.SecondDecim (well-formedness),Passed,00:00:00.0150451,10257,2
Rates.AudioDecimRateBand (correctness),Passed,00:00:00.0147636,16912,2
Blocks.ChannelTaps (well-formedness),Passed,00:00:00.0147467,18884,2
Rates.DivideInTurn (correctness),Passed,00:00:00.0139969,6709,2
Rates.ChannelRate (well-formedness),Passed,00:00:00.0121789,8993,2
Blocks.StopsBeforeNyquist (well-formedness),Passed,00:00:00.0112320,7748,2
Rates.OutputRateIndependentOfInput (well-formedness),Passed,00:00:00.0111188,10149,2
Rates.FIXED_DECIM (well-formedness),Passed,00:00:00.0106241,3754,2
Rates.QuotientBetween (well-formedness),Passed,00:00:00.0104767,4035,2
Rates.ONE_MSPS (well-formedness),Passed,00:00:00.0102673,3754,2
Rates.DivisionAsScaling (correctness),Passed,00:00:00.0102137,3607,2
Rates.ResampRatio (well-formedness),Passed,00:00:00.0101292,18935,2
Rates.QuotientBetween (correctness),Passed,00:00:00.0099767,9335,2
Rates.DivideInTurn (well-formedness),Passed,00:00:00.0099204,3812,2
Rates.XlateRate (well-formedness),Passed,00:00:00.0097864,4899,2
Rates.DivisionAsScaling (well-formedness),Passed,00:00:00.0089079,3341,2
Rates.AudioDecimRateBand (well-formedness),Passed,00:00:00.0087320,8147,2
Rates.OutputRateIsAudioRate (well-formedness),Passed,00:00:00.0083704,9374,2
Flowgraph.RESAMPLER_FLT_SIZE (well-formedness),Passed,00:00:00.0063978,3753,2
