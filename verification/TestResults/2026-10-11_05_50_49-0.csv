TestResult.DisplayName,TestResult.Outcome,TestResult.Duration,TestResult.ResourceCount,RandomSeed
Flowgraph.ChainFollowsDemodPath (correctness),Passed,00:00:00.4638389,719665,1
Flowgraph.ChainWellTyped (correctness),Passed,00:00:00.1804529,340576,1
Wbfm.TunerDemodWbfm.ConnectChain (correctness),Passed,00:00:00.1622901,299687,1
Wbfm.TunerDemodWbfm._ctor (correctness),Passed,00:00:00.1589100,205788,1
Flowgraph.RatesFollowWiring (correctness),Passed,00:00:00.1442468,312153,1
Flowgraph.ChainBlock (well-formedness),Passed,00:00:00.1309248,85337,1
Flowgraph.ResamplerRateFactors (correctness),Passed,00:00:00.1280436,211511,1
Flowgraph.IfStageRateFactors (correctness),Passed,00:00:00.1203296,598785,1
Wbfm.TunerDemodWbfm._ctor (well-formedness),Passed,00:00:00.1140729,100823,1
Ctcss.IndexOf (well-formedness),Passed,00:00:00.1033579,53145,1
Flowgraph.ChannelStageRateFactor (correctness),Passed,00:00:00.1012338,358300,1
Flowgraph.RfStageRateFactors (well-formedness),Passed,00:00:00.0942077,78409,1
Ctcss.BitNot (well-formedness),Passed,00:00:00.0938593,6155,1
Flowgraph.FixedStageRateFactors (well-formedness),Passed,00:00:00.0917956,86784,1
Blocks.DecimatorsDoNotAlias (correctness),Passed,00:00:00.0848438,131249,1
Flowgraph.ArrivingRate (well-formedness),Passed,00:00:00.0826117,19951,1
Wbfm.VolumeGain (well-formedness),Passed,00:00:00.0815555,15076,1
Flowgraph.OnlySinkBranchBlocks (well-formedness),Passed,00:00:00.0765342,80018,1
Wbfm.VolumeZeroRestoresBase (correctness),Passed,00:00:00.0760181,14388,1
Flowgraph.OutputAndSinkFeeds (correctness),Passed,00:00:00.0756723,128139,1
Flowgraph.ScalesAcross (well-formedness),Passed,00:00:00.0693649,78302,1
Flowgraph.RatesFollowWiring (well-formedness),Passed,00:00:00.0690646,112394,1
Flowgraph.OnlySinkBranchBlocks (correctness),Passed,00:00:00.0659840,109487,1
Rates.StagesCompose (correctness),Passed,00:00:00.0649650,78766,1
Flowgraph.ChannelStageRateFactor (well-formedness),Passed,00:00:00.0639193,76921,1
Wbfm.VolumeDoesNotCompound (correctness),Passed,00:00:00.0638691,77957,1
Flowgraph.RfStageRateFactors (correctness),Passed,00:00:00.0627108,258675,1
Flowgraph.ResamplerRateFactors (well-formedness),Passed,00:00:00.0623268,81157,1
Flowgraph.IfStageRateFactors (well-formedness),Passed,00:00:00.0613341,81296,1
Wbfm.VolumeDoesNotCompound (well-formedness),Passed,00:00:00.0604068,61418,1
Wbfm.Build (well-formedness),Passed,00:00:00.0575919,117323,1
Flowgraph.FixedStageRateFactors (correctness),Passed,00:00:00.0563134,68302,1
Wbfm.Build (correctness),Passed,00:00:00.0540474,124054,1
Wbfm.TunerDemodWbfm.SetVolume (correctness),Passed,00:00:00.0540102,72185,1
Wbfm.TunerDemodWbfm.SetCtcssTone (well-formedness),Passed,00:00:00.0535133,41909,1
Flowgraph.ChainWellTyped (well-formedness),Passed,00:00:00.0520743,79625,1
Wbfm.TunerDemodWbfm.SetCtcssTone (correctness),Passed,00:00:00.0482266,48057,1
Wbfm.TunerDemodWbfm.SetVolume (well-formedness),Passed,00:00:00.0426746,61034,1
Wbfm.TunerDemodWbfm.Valid (well-formedness),Passed,00:00:00.0393645,46065,1
Blocks.SinkFor (well-formedness),Passed,00:00:00.0348237,49143,1
Flowgraph.PathEdges (well-formedness),Passed,00:00:00.0339879,42201,1
Wbfm.TunerDemodWbfm.DemodGain (well-formedness),Passed,00:00:00.0322954,49867,1
Wbfm.TunerDemodWbfm.BlockAt (well-formedness),Passed,00:00:00.0311476,34836,1
Ctcss.SelectTone (well-formedness),Passed,00:00:00.0283322,37328,1
Ctcss.SelectedToneInTable (well-formedness),Passed,00:00:00.0277508,26386,1
Ctcss.SelectToneSubstitutesFirst (correctness),Passed,00:00:00.0272759,44131,1
Ctcss.SelectedToneInTable (correctness),Passed,00:00:00.0268389,29283,1
Ctcss.SelectToneReturnsRequestIff (correctness),Passed,00:00:00.0246006,28843,1
Blocks.Block.RateFactor (well-formedness),Passed,00:00:00.0227412,23225,1
Ctcss.SelectToneReturnsRequestIff (well-formedness),Passed,00:00:00.0221794,28549,1
Flowgraph.ChainEdges (well-formedness),Passed,00:00:00.0220659,37251,1
Blocks.StopsBeforeNyquistAtDesignRate (correctness),Passed,00:00:00.0213417,20394,1
Blocks.AudioTaps (well-formedness),Passed,00:00:00.0209557,17825,1
Wbfm.TunerDemodWbfm.ConnectChain (well-formedness),Passed,00:00:00.0206616,23958,1
Rates.ResampRatioBounds (correctness),Passed,00:00:00.0205451,52609,1
Wbfm.TunerDemodWbfm.Connect (correctness),Passed,00:00:00.0191873,20632,1
Wbfm.TunerDemodWbfm.Connect (well-formedness),Passed,00:00:00.0185802,19786,1
Blocks.DecimatorsDoNotAlias (well-formedness),Passed,00:00:00.0182548,22401,1
Blocks.Block.Blocking (well-formedness),Passed,00:00:00.0179441,19773,1
Rates.AudioDecimRateBand (correctness),Passed,00:00:00.0165638,16914,1
Rates.IfRateBand (correctness),Passed,00:00:00.0158001,45374,1
Rates.QuotientBetween (correctness),Passed,00:00:00.0151754,9335,1
Rates.OutputRateIsAudioRate (correctness),Passed,00:00:00.0146669,19860,1
Rates.AudioDecimRate (well-formedness),Passed,00:00:00.0145564,13549,1
Blocks.ChannelTaps (well-formedness),Passed,00:00:00.0144540,18811,1
Wbfm.VolumeTwentyDbTimesTen (correctness),Passed,00:00:00.0144264,14626,1
Rates.AudioDecimRateBand (well-formedness),Passed,00:00:00.0135751,8147,1
Rates.ResampRatio (well-formedness),Passed,00:00:00.0131171,18934,1
Rates.OutputRateIsAudioRate (well-formedness),Passed,00:00:00.0121893,9373,1
Rates.DivisionAsScaling (correctness),Passed,00:00:00.0120413,3607,1
Rates.XlateRate (well-formedness),Passed,00:00:00.0120183,4899,1
Rates.DivisionAsScaling (well-formedness),Passed,00:00:00.0120132,3341,1
Rates.FIXED_DECIM (well-formedness),Passed,00:00:00.0115222,3753,1
Rates.IfRate (well-formedness),Passed,00:00:00.0115098,13258,1
Rates.ChannelRate (well-formedness),Passed,00:00:00.0108406,8993,1
Rates.QuotientBetween (well-formedness),Passed,00:00:00.0107222,4035,1
Rates.DivideInTurn (correctness),Passed,00:00:00.0105156,6709,1
Rates.ONE_MSPS (well-formedness),Passed,00:00:00.0104640,3753,1
Rates.StagesCompose (well-formedness),Passed,00:00:00.0103797,14386,1
Rates.OutputRateIndependentOfInput (correctness),Passed,00:00:00.0098776,14197,1
Rates.ResampRatioBounds (well-formedness),Passed,00:00:00.0093620,10472,1
Blocks.StopsBeforeNyquist (well-formedness),Passed,00:00:00.0089813,7748,1
Blocks.WavFormatFor (well-formedness),Passed,00:00:00.0083629,8594,1
Rates.SecondDecim (well-formedness),Passed,00:00:00.0082621,10256,1
Rates.OutputRateIndependentOfInput (well-formedness),Passed,00:00:00.0081616,10148,1
Rates.IfRateBand (well-formedness),Passed,00:00:00.0080946,8093,1
Flowgraph.RESAMPLER_FLT_SIZE (well-formedness),Passed,00:00:00.0080686,3753,1
Rates.DivideInTurn (well-formedness),Passed,00:00:00.0079250,3812,1
