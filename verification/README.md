# Wideband-FM channel chain — a Dafny model

This project models the core of `TunerDemodWBFM`. That class is one channel of a multi-channel
software radio receiver. It takes complex baseband samples at `samp_rate` and tunes and decimates
them to one FM channel. It applies a non-blocking power squelch and demodulates the channel. It
then decimates and resamples the audio to a fixed `audio_rate`. A blocking squelch feeds a WAV
sink when `record` is set, or a null sink otherwise.

The model covers three parts:

- **Construction-time arithmetic** (module `Rates`). This is the decimation plan
  `(5, int(samp_rate/1E6))`, the rate at every stage, and the resampler ratio. Rates are Dafny
  `real` values, so the arithmetic is exact and rational. `samp_rate` is a `nat`.
- **Block descriptors and the flowgraph** (modules `Blocks` and `Flowgraph`). Each GNU Radio
  block is an opaque descriptor that carries the parameters it is built with. The graph is the
  sequence of edges in the order the `connect` calls add them.
- **The object** (module `Wbfm`). The class `TunerDemodWbfm` holds the fields the source
  assigns. The constructor builds every block and issues the ten connections one at a time.
  `Build` is construction as the caller sees it: it fails when the second decimation factor is 0.
  The class also has the two control-plane setters, `SetVolume` and `SetCtcssTone`. Module
  `Ctcss` gives the pure specification of the tone lookup, including its `~index` step.

Proved properties:

- For every input rate of at least 1 Msps, the IF rate lies in [40 k, 80 k) and the
  audio-decimated rate lies in [8 k, 16 k).
- The output rate is exactly `audio_rate`, whatever the input rate.
- Every edge of the graph joins producer and consumer of the same item type.
- The rate scales along every edge as the source block's descriptor says.
- Every decimating filter stops before the Nyquist frequency of its decimated output. Here the
  stop band is taken to begin at cutoff + transition. That is this model's convention; the tap
  generator does not promise it.
- Only the recording branch can stall the stream.
- The block's output comes straight from the resampler.
- `set_ctcss_tone` always stores index 0 and `table[0]`.
- `set_volume` never compounds.

## Model

| member | source | states |
|---|---|---|
| `Rates.SecondDecim` | apps/demodulators/WBFM.py:86 | decims[1] is the floor of samp_rate/1E6, i.e. `d·10⁶ ≤ samp_rate < (d+1)·10⁶`. It is at least 1 exactly when samp_rate ≥ 1 Msps, and 0 below that |
| `Rates.ChannelRate` | apps/demodulators/WBFM.py:107 | The rate after the two /5 stages, `samp_rate/decims[0]**2`. It is non-negative, and multiplying it by 25 gives back samp_rate exactly |
| `Rates.IfRate` | apps/demodulators/WBFM.py:124 | The IF rate `samp_rate/(decims[1]·decims[0]**2)`. For samp_rate ≥ 1 Msps it is positive, and multiplying it by 25·d1 gives back samp_rate exactly |
| `Rates.AudioDecimRate` | apps/demodulators/WBFM.py:133 | The rate leaving the audio decimator, `samp_rate/(decims[1]·decims[0]**3)`. For samp_rate ≥ 1 Msps it is positive, and multiplying it by 125·d1 gives back samp_rate exactly |
| `Rates.ResampRatio` | apps/demodulators/WBFM.py:133 | The resampler ratio `audio_rate/(samp_rate/(decims[1]·decims[0]**3))`. It is positive exactly when audio_rate is, and zero exactly when audio_rate is zero |
| `Rates.StagesCompose` | apps/demodulators/WBFM.py:107-133 | The rates the source computes directly (`samp_rate/25`, `samp_rate/(d1·25)`, `samp_rate/(d1·125)`) equal the stage-by-stage quotients of the plan: /5, /d1, /5 |
| `Rates.IfRateBand` | apps/demodulators/WBFM.py:103-124 | For every samp_rate ≥ 1 Msps, the IF rate `samp_rate/(25·d1)` lies in [40000, 80000) |
| `Rates.AudioDecimRateBand` | apps/demodulators/WBFM.py:127-133 | For every samp_rate ≥ 1 Msps, the rate after the audio decimator `samp_rate/(125·d1)` lies in [8000, 16000) |
| `Rates.OutputRateIsAudioRate` | apps/demodulators/WBFM.py:131-135 | The resampler ratio times the audio-decimated rate equals `audio_rate` exactly |
| `Rates.OutputRateIndependentOfInput` | apps/demodulators/WBFM.py:36-37 | Any two input rates ≥ 1 Msps give the same output rate |
| `Rates.ResampRatioBounds` | apps/demodulators/WBFM.py:131-133 | For a positive audio rate, the resampling ratio lies in (audio_rate/16000, audio_rate/8000] |
| `Blocks.ChannelTaps` | apps/demodulators/WBFM.py:105-107 | The channel filter is designed at `samp_rate/25`. For samp_rate ≥ 1 Msps its 12.5 kHz cutoff plus 1 kHz transition lies below half that design rate |
| `Blocks.AudioTaps` | apps/demodulators/WBFM.py:122-125 | The audio filter is designed at the IF rate. Its 3.5 kHz cutoff plus 500 Hz transition lies below half that rate |
| `Blocks.DecimatorsDoNotAlias` | apps/demodulators/WBFM.py:88-129 | For samp_rate ≥ 1 Msps, the stop-band edge of each filter (taken as cutoff + transition) is at or below the Nyquist frequency after its decimation. This covers the unit-rate taps in both /5 stages, the 12.5 kHz/1 kHz channel filter at /d1 and the 3.5 kHz/500 Hz audio filter at /5 |
| `Blocks.WavFormatFor` | apps/demodulators/WBFM.py:154-159 | 8-bit PCM exactly when audio_bps is 8. 16-bit PCM for 16 and for every other value |
| `Blocks.SinkFor` | apps/demodulators/WBFM.py:153-171 | The sink is a WAV sink exactly when `record` holds: one channel, at audio_rate, in the WAV container, in the chosen format, not appending. Otherwise it is a float null sink. Either way it accepts floats and produces nothing |
| `Flowgraph.PathEdges` | apps/demodulators/WBFM.py:138-146 | The edges of a path: edge i joins node i to node i+1, and there is one edge fewer than nodes |
| `Flowgraph.ChainEdges` | apps/demodulators/WBFM.py:138-171 | The edges the constructor adds, in connect order: ten of them, none of which joins a node to itself. `ChainFollowsDemodPath` gives their exact shape |
| `Flowgraph.ChainBlock` | apps/demodulators/WBFM.py:79-171 | Every node except the block's own ports carries a descriptor |
| `Flowgraph.ChainFollowsDemodPath` | apps/demodulators/WBFM.py:138-171 | The ten connections are, in order, the unbroken path input → translating FIR → FIR → FIR → soft squelch → demod → audio FIR → resampler → output, followed by resampler → hard squelch → sink |
| `Flowgraph.ChainWellTyped` | apps/demodulators/WBFM.py:72-171 | Every edge joins a producer and a consumer of the same item type (complex up to the demodulator, float after it) |
| `Flowgraph.OutputAndSinkFeeds` | apps/demodulators/WBFM.py:146-171 | The output is fed only by the resampler. The blocking squelch is fed only by the resampler, whatever `record` is. The sink is fed only by the blocking squelch, and the blocking squelch feeds only the sink |
| `Flowgraph.OnlySinkBranchBlocks` | apps/demodulators/WBFM.py:113-150 | No block on the path to the output stops the flow: the −60 dB squelch has gate=False. The −200 dB squelch in front of the sink does stop it (gate=True) and is not on that path |
| `Flowgraph.FixedStageRateFactors` | apps/demodulators/WBFM.py:93-129 | Across the two /5 RF stages, the squelch, the demodulator and the audio /5 stage, the rate arriving downstream is the upstream rate times the block's factor |
| `Flowgraph.ChannelStageRateFactor` | apps/demodulators/WBFM.py:109-111 | Across the channel FIR, the rate is divided by its descriptor's decimation int(samp_rate/1E6) |
| `Flowgraph.ResamplerRateFactors` | apps/demodulators/WBFM.py:131-171 | The resampler's ratio turns the audio-decimated rate into audio_rate at the output, the blocking squelch and the sink |
| `Flowgraph.RatesFollowWiring` | apps/demodulators/WBFM.py:86-171 | Along every edge, the rate scales by the source block's factor. The output and the sink see audio_rate. The channel and audio taps are designed at the rate they are fed. The WAV sink is configured at the rate it receives |
| `Ctcss.IndexOf` | apps/demodulators/WBFM.py:188 | `list.index`: no result exactly when the tone is absent (where Python raises). Otherwise the first position that holds the tone |
| `Ctcss.BitNot` | apps/demodulators/WBFM.py:189 | Python `~i` is 0 only for i = −1, and negative for every i ≥ 0 |
| `Ctcss.SelectTone` | apps/demodulators/WBFM.py:188-192 | Fails exactly when the tone is absent. Otherwise it always yields index 0 and `table[0]` |
| `Ctcss.SelectedToneInTable` | apps/demodulators/WBFM.py:188-192 | The stored tone is a table member, and the stored index is in range |
| `Ctcss.SelectToneReturnsRequestIff` | apps/demodulators/WBFM.py:188-192 | For a present tone, the returned tone equals the requested one exactly when it is the table's first entry |
| `Ctcss.SelectToneSubstitutesFirst` | apps/demodulators/WBFM.py:188-192 | A request for 71.9 in [67.0, 71.9] is found at index 1, yet 67.0 is stored at index 0 |
| `Wbfm.VolumeGain` | apps/demodulators/WBFM.py:179 | The gain for a volume in dB. Divided by a non-zero base gain it is exactly the volume's linear factor, so it does not depend on any earlier gain. It is positive when the base gain and the factor are both positive |
| `Wbfm.VolumeZeroRestoresBase` | apps/demodulators/WBFM.py:179-180 | If dbToLinear(0) = 1, then 0 dB gives back the base gain |
| `Wbfm.VolumeTwentyDbTimesTen` | apps/demodulators/WBFM.py:179-180 | If dbToLinear(20) = 10, then 20 dB multiplies the base gain by ten |
| `Wbfm.TunerDemodWbfm.Connect` | apps/demodulators/WBFM.py:138 | `connect` appends exactly one edge |
| `Wbfm.TunerDemodWbfm.ConnectChain` | apps/demodulators/WBFM.py:138-171 | Starting from no edges, the connect calls leave exactly the chain's ten edges |
| `Wbfm.TunerDemodWbfm.constructor` | apps/demodulators/WBFM.py:69-171 | The defaults: centre frequency 0, base gain 0.050, no file name, and the given `record`, audio rate and depth. Every node holds the descriptor `ChainBlock` gives, the edges are the chain, and the demodulator runs at the base gain |
| `Wbfm.TunerDemodWbfm.SetVolume` | apps/demodulators/WBFM.py:173-180 | Only the demodulator changes. Its gain becomes base gain × dbToLinear(volume), computed from the unchanged `quadDemodGain`, never from the previous gain |
| `Wbfm.TunerDemodWbfm.SetCtcssTone` | apps/demodulators/WBFM.py:182-192 | An absent tone fails and leaves index and tone as they were. A present one sets index 0 and tone `table[0]`, returns that tone, and agrees with `SelectTone` |
| `Wbfm.Build` | apps/demodulators/WBFM.py:69-171 | Construction fails exactly when samp_rate < 1 Msps (d1 = 0). Otherwise it yields a fresh, valid object wired as the chain, with every descriptor as `ChainBlock` gives and the demodulator at base gain. It has the constructor's defaults: centre frequency 0, `quad_demod_gain` 0.050, no file name, and the given `record`, audio rate and depth |
| `Wbfm.VolumeDoesNotCompound` | apps/demodulators/WBFM.py:173-180 | After `set_volume(20)` then `set_volume(0)`, the gain is the base gain again |

## Left out

- GNU Radio block internals are not modelled. This covers how `firdes.low_pass` computes taps, FIR
  filtering, frequency translation, squelch gating dynamics, quadrature demodulation and the
  polyphase filter bank. Each block is a descriptor of its parameters only. The proofs about rates
  and anti-aliasing use the parameters, not the taps.
- Streaming, the flowgraph scheduler and concurrent setter calls are left out. They are runtime
  behaviour of the framework, not logic of this file.
- The base class `BaseTuner` is not part of this model. The model only keeps the `audio_rate` and
  `audio_bps` values the base class stores. The constructor leaves `ctcss_index`/`ctcss_tone`
  unconstrained, since their initial values come from the base class. `min_recording`, the
  classifier and `notify_scanner` are passed to the base class and are not modelled.
- The WAV sink's placeholder path `/dev/null` and the file name are left out (file I/O). The file
  name is only kept as `None`.
- Floating point is not modelled. `int(samp_rate/1E6)` is exact floor division on a non-negative
  integer.
- `10**(volume_db/20.0)` is not computed. It is passed to `SetVolume` as the parameter
  `dbToLinear`. Properties that need `dbToLinear(0) = 1` or `dbToLinear(20) = 10` take that as a
  precondition.
- Negative sample rates are excluded by the type `nat`.
- The contents of the CTCSS tone table are not modelled. The table is a `seq<real>` parameter.
- CTCSS filtering, the tone-blocking high-pass filter and the CTCSS level described in the
  docstring are not built by this file's code, so they are not modelled.
- The hierarchical block's I/O signatures are kept only as item types: the block's own input
  port produces complex items and its output port accepts floats.
- Where construction fails is not modelled. For samp_rate below 1 Msps the source raises at
  line 124 at the latest (division by `decims[1] * 25 = 0`). `Build` returns the failure before
  building anything. No partly built object is observable either way.

## Notes on the code as written

- The docstring (lines 26-35) describes two decimation stages of 4 and a ratio
  `samp_rate/(...)`. The code decimates by 5, 5, `int(samp_rate/1E6)` and 5, and uses the ratio
  `audio_rate / (samp_rate/(decims[1]·125))`. The model follows the code.
- In `set_ctcss_tone`, `~index` is non-zero for every index `list.index` can return. So the
  reset to index 0 always happens, and the stored and returned tone is always the table's first
  entry, not the requested one. An absent tone makes `list.index` raise before that step. The
  model keeps this behaviour as written. `SelectToneReturnsRequestIff` and
  `SelectToneSubstitutesFirst` state what it means.
- An input rate below 1 Msps is not rejected with a dedicated error. It ends in a division by
  zero. The model represents this as the failure `ZeroDecimation`.
