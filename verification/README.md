# ECG preprocessing and feature extraction, modelled in Dafny

This project models the signal-processing core of an ECG classification
project (PTB-XL records). It covers two Python packages:

- `src/preprocessing`: Butterworth filtering and baseline-drift removal,
  per-channel normalisation (min-max, z-score, robust), z-score outlier
  detection, windowing, and the per-channel quality metrics. It also covers the
  folder, file-name and good-channel-count logic of `salvar_dados_processados`.
- `src/feature_extraction`: the time-domain and frequency-domain feature
  dictionaries, and their merge.

A signal is a value (`Signals.Signal`): either one-dimensional or a rectangular
samples × channels array. Each preprocessing function first reshapes a 1-D
signal to n × 1. The four column-filling functions (`aplicar_filtro`,
`normalizar_sinal`, `detectar_outliers`, `aplicar_janelamento`) are methods.
Each allocates a new `array2` (its contract says the result is `fresh`, as
`np.zeros_like` and `.copy()` are) and fills it channel by channel in a loop, as
the source does (`Signals.WriteColumn` is `out[:, i] = v`).
`verificar_qualidade_sinal` is a method that builds its dictionary in a loop.
The feature extractors are pure functions.

Numbers are Dafny reals. The IEEE values the source relies on (NaN from 0/0,
±inf) are an explicit `Numeric.Float` datatype with IEEE division
(`Numeric.Divide`). Every exception the modelled code raises, and the ones
`signal.butter` and `signal.filtfilt` raise on the requests it passes them, is
an `Err` of `Numeric.Result`.

The following are parameters, not computed:
- library numerics: `np.sqrt`, `np.log10`, `scipy.stats.skew` and `kurtosis`
  (`Numeric.Numerics`). `Numeric.Sound` states the one fact the proofs use: sqrt
  is a non-negative square root;
- the values `filtfilt` computes with the Butterworth coefficients (a function
  of the design and the column). What the two scipy calls refuse is modelled:
  `signal.butter` refuses a negative order, a normalised cutoff outside the open
  interval (0, 1) and a bandpass whose low edge is not below its high one, and
  `signal.filtfilt` refuses a channel of at most padlen = 3 · (number of
  coefficients) samples;
- the window coefficients;
- the FFT magnitudes.

Behaviour of the code worth knowing:
- a 1-D input comes back as an n × 1 array;
- saturation uses a strict `>`;
- a zero total magnitude gives a NaN centroid;
- the frequency features do not apply a window;
- the Nyquist warning of `aplicar_filtro` is always followed by `signal.butter`
  refusing the same cutoff (`Filtering.WarningThenRejected`);
- the frequency-domain function raises at line 58 (see Findings).

The order of the stages in `pipeline_preprocessamento` is: drift removal, then
the 0.5–45 Hz bandpass, then z-score, then quality. The model has the stages
but not the pipeline, which starts with a file load.

## Model

| member | source | states |
|---|---|---|
| Signals.Signal.Reshaped | src/preprocessing/__init__.py:31-32 | a 1-D signal becomes one column with the same samples; a 2-D one is unchanged (same shape, same cells, same columns) |
| Signals.Signal.Column | src/preprocessing/__init__.py:55 | `sinal[:, j]` has one entry per sample, entry k being cell (k, j) |
| Signals.WriteColumn | src/preprocessing/__init__.py:55 | `out[:, j] = v` sets every cell of column j to v and leaves every other cell as it was |
| Filtering.Normalize | src/preprocessing/__init__.py:39-41 | each normalised cutoff times the Nyquist frequency gives back the cutoff; a zero Nyquist frequency raises ZeroDivisionError |
| Filtering.FilterDesign | src/preprocessing/__init__.py:34-47 | bandpass without exactly two cutoffs, lowpass/highpass without any, and unknown types raise their own errors; otherwise the design keeps order and type, has 2 (bandpass) or 1 normalised cutoffs, and warns exactly when one is ≥ 1 |
| Filtering.CutoffValuesNeverRaise | src/preprocessing/__init__.py:34-47 | lines 34-47 accept or refuse a request by the number of cutoffs alone, never by their values: a cutoff at or above Nyquist only warns there |
| Filtering.WarnsIffAboveNyquist | src/preprocessing/__init__.py:46-47 | for fs > 0 the warning fires exactly when some used cutoff is ≥ fs / 2 |
| Filtering.PadLen | src/preprocessing/__init__.py:55 | filtfilt's default padlen, three times the coefficient count, is at least 3 (N + 1) for order N, and at least 3 (2N + 1) for a bandpass |
| Filtering.FilterPlan | src/preprocessing/__init__.py:29-57 | a request passes exactly when lines 34-47 accept it, signal.butter accepts the design and, if there is a channel, it has more than padlen samples; each failure carries its own error |
| Filtering.WarningThenRejected | src/preprocessing/__init__.py:46-49 | whenever the Nyquist warning is issued, signal.butter then refuses the request, whatever the signal |
| Filtering.DefaultBandpassAccepted | src/preprocessing/__init__.py:29-30 | the default 4th-order 0.5–45 Hz bandpass passes exactly when fs > 90 and every channel has more than 27 samples |
| Filtering.BaselineDriftAccepted | src/preprocessing/__init__.py:96-97 | at fs > 0 the drift filter passes exactly when 0 < freq_corte < fs / 2 and every channel has more than 15 samples |
| Filtering.AplicarFiltro | src/preprocessing/__init__.py:29-57 | fails exactly as FilterPlan says, with its error; otherwise the result is a new array of the reshaped shape and column j is filtfilt of input column j alone |
| Filtering.RemoverBaselineDrift | src/preprocessing/__init__.py:96-97 | fails exactly for fs == 0 (ZeroDivisionError), a normalised cutoff outside (0, 1) (butter), or a channel of at most 15 samples (filtfilt); otherwise column j of a new array is input column j through a 4th-order highpass at freq_corte / (fs / 2) |
| Normalization.NormalizarSinal | src/preprocessing/__init__.py:60-93 | an unknown method raises exactly when there is at least one channel; min-max raises on zero samples; otherwise the result is a new array of the reshaped shape and column j is the chosen normalisation of input column j alone |
| Normalization.NormalizedChannel | src/preprocessing/__init__.py:66-89 | the branch the method selects gives one value per sample of the channel; the lemmas below state what the values are |
| Normalization.MinMaxChannel | src/preprocessing/__init__.py:67-73 | the min-max branch gives one value per sample (its range: MinMaxInUnitRange, MinMaxConstant) |
| Normalization.ZScoreChannel | src/preprocessing/__init__.py:75-81 | the z-score branch gives one value per sample, none for an empty channel (its moments: ZScoreMeanZero, ZScoreUnitVariance) |
| Normalization.RobustChannel | src/preprocessing/__init__.py:83-89 | the robust branch gives one value per sample, none for an empty channel (RobustConstant) |
| Normalization.NormalizeChannelStep | src/preprocessing/__init__.py:66-91 | one step of the channel loop raises exactly for an unknown method name or for min-max on an empty channel, and otherwise yields the chosen normalisation of that channel, whose properties the lemmas below state |
| Normalization.MinMaxInUnitRange | src/preprocessing/__init__.py:67-73 | a non-constant channel maps into [0, 1], its minimum samples to 0 and its maximum samples to 1 |
| Normalization.RescaleInUnitRange | src/preprocessing/__init__.py:73 | rescaling by a range containing every sample lands in [0, 1] with the ends going to 0 and 1 |
| Normalization.MinMaxConstant | src/preprocessing/__init__.py:70-71 | the max − min == 0 guard returns a constant channel unchanged |
| Normalization.ZScoreConstant | src/preprocessing/__init__.py:78-79 | the std == 0 guard only subtracts the mean, so a constant channel becomes all zeros |
| Normalization.ZScoreMeanZero | src/preprocessing/__init__.py:75-81 | the z-scored channel has mean 0 in both branches |
| Normalization.ZScoreUnitVariance | src/preprocessing/__init__.py:80-81 | with std ≠ 0 the z-scored channel has variance 1 |
| Normalization.RobustConstant | src/preprocessing/__init__.py:83-87 | a constant channel has MAD 0, so robust normalisation only subtracts the median and gives all zeros |
| SeqStats.Median | src/preprocessing/__init__.py:84 | np.median (middle element, or mean of the two middle ones, of the sorted data) lies between min and max |
| SeqStats.Mad | src/preprocessing/__init__.py:85 | the median absolute deviation is non-negative |
| Outliers.ZScores | src/preprocessing/__init__.py:106 | one absolute z-score per sample, never negative and never −inf (NaN where 0 / 0) |
| Outliers.OutlierMask | src/preprocessing/__init__.py:106-107 | one flag per sample, none for an empty channel; which samples are flagged is stated by OutlierIff |
| Outliers.DetectarOutliers | src/preprocessing/__init__.py:100-109 | the mask is a new array of the reshaped shape and column j is the z-score test of input column j alone |
| Outliers.OutlierIff | src/preprocessing/__init__.py:106-107 | with std ≠ 0 a sample is flagged exactly when its distance from the mean is strictly more than threshold × std |
| Outliers.ZeroStdNoOutliers | src/preprocessing/__init__.py:106-107 | with std == 0 every z-score is NaN and nothing is flagged, whatever the threshold |
| Outliers.ConstantNoOutliers | src/preprocessing/__init__.py:106-107 | a constant channel has no outliers |
| Outliers.OutlierCountBound | src/preprocessing/__init__.py:106-107 | Chebyshev: with threshold t > 0 at most len / t² samples of a channel are flagged |
| Windowing.ParseWindowKind | src/preprocessing/__init__.py:118-127 | an unknown name raises ValueError; 'kaiser' always uses beta 8.6 |
| Windowing.ParseWindowKindAccepts | src/preprocessing/__init__.py:118-127 | exactly the four names are accepted, and each selects the window of that name |
| Windowing.AplicarJanelamento | src/preprocessing/__init__.py:112-133 | an unknown window raises before any channel is looked at; otherwise the result is a new array in which sample k of every channel is multiplied by coefficient k of the one window |
| Quality.ChannelKeyInjective | src/preprocessing/__init__.py:144 | different channels get different `canal_i` keys |
| Quality.ChannelKeysMembers | src/preprocessing/__init__.py:142-144 | the key set after m channels holds exactly `canal_0` .. `canal_{m-1}` |
| Quality.ChannelKeysCount | src/preprocessing/__init__.py:142-144 | m channels give m distinct keys |
| Quality.KeyedMapKeys | src/preprocessing/__init__.py:142-146 | a dictionary filled by storing one value under `canal_i` for each i in order has exactly the keys of those channels |
| Quality.KeyedMapValue | src/preprocessing/__init__.py:142-152 | in that dictionary the key of channel i holds the value stored for channel i: no later key overwrites it |
| Quality.QualityReportKeys | src/preprocessing/__init__.py:136-154 | the returned dictionary has one key per channel and exactly the channel count of entries |
| Quality.QualityReportValue | src/preprocessing/__init__.py:142-152 | the key `canal_i` holds the metrics of column i of the signal, computed from that column alone |
| Quality.VerificarQualidadeSinal | src/preprocessing/__init__.py:136-154 | raises exactly when there is a channel with no samples; otherwise the loop over the channels returns the dictionary whose keys and entries the two lemmas above describe |
| Quality.SaturatedCountZero | src/preprocessing/__init__.py:148-149 | no sample is flagged as saturated exactly when the channel is all zero |
| Quality.AmplitudeBounds | src/preprocessing/__init__.py:148 | the maximum amplitude is ≥ 0, and 0 exactly for an all-zero channel |
| Quality.SaturacaoBounds | src/preprocessing/__init__.py:149 | the saturation share is in [0, 1]: 0 for an all-zero channel, otherwise ≥ 1 / len because the largest sample counts (strict >) |
| Quality.SignChangesBounds | src/preprocessing/__init__.py:150 | at most len − 1 sign changes, and none on a constant channel |
| SeqStats.RmsBounds | src/preprocessing/__init__.py:151 | the RMS is ≥ 0, and 0 exactly for an all-zero channel |
| Quality.Snr | src/preprocessing/__init__.py:147 | a single sample gives a NaN SNR (np.std of the empty np.diff) |
| Quality.ChannelMetrics | src/preprocessing/__init__.py:146-152 | the five metrics of one channel: the maximum amplitude is ≥ 0, the saturated share is in [0, 1], at most len − 1 sign changes, and a NaN SNR for one sample |
| Quality.SnrDefined | src/preprocessing/__init__.py:147 | with ≥ 2 samples the SNR is never NaN (the denominator is ≥ 1e-10), and it is −inf exactly for a constant channel |
| Persistence.ShardNumber | src/preprocessing/__init__.py:186 | the floor quotient puts id in the block 1000·k + 1 .. 1000·k + 1000 of its shard k |
| Persistence.ShardIff | src/preprocessing/__init__.py:186 | an id is in shard k exactly when it lies in k's block of 1000 |
| Persistence.FirstFolder | src/preprocessing/__init__.py:186-187 | ids 1 .. 1000 go to `records000` |
| Persistence.FolderNameRoundTrip | src/preprocessing/__init__.py:187 | the folder is `records` plus the shard padded to at least 3 characters, and reads back as the shard, so no digit is cut off |
| Persistence.SameFolderIff | src/preprocessing/__init__.py:186-187 | two ids share a folder exactly when they share a shard |
| Persistence.FileNameRoundTrip | src/preprocessing/__init__.py:197-198 | both file names are the id padded to at least 5 characters, then a 14-character suffix; the padded part reads back as the id |
| Persistence.Join | src/preprocessing/__init__.py:190 | POSIX os.path.join: the result ends with the second part and, unless that is absolute, starts with the first, with a '/' in between when needed |
| Persistence.OutputPathsShape | src/preprocessing/__init__.py:186-198 | each returned path is output_dir's join with the folder, then '/', then the file name |
| Persistence.OutputPathsDistinct | src/preprocessing/__init__.py:197-198 | the signal path and the metadata path differ |
| Persistence.OutputPathsInjective | src/preprocessing/__init__.py:186-198 | within one output directory two ids never share a signal path |
| Persistence.QualityEntry | src/preprocessing/__init__.py:146-152 | a channel's metric dictionary holds its SNR under 'snr_estimado' |
| Persistence.QualityDict | src/preprocessing/__init__.py:146 | the quality dictionary has the same keys, each with that channel's metric dictionary |
| Persistence.GoodChannel | src/preprocessing/__init__.py:241-242 | a channel is good only if its key exists; a missing snr_estimado (default 0), a NaN or a −inf SNR is not good, a +inf one is |
| Persistence.CountGood | src/preprocessing/__init__.py:240-242 | the generator sum never exceeds max(n_channels, 0) |
| Persistence.CanaisComBoaQualidade | src/preprocessing/__init__.py:228-243 | the entry exists exactly for a 2-D signal; it is 0 without 'qualidade' and at most n_channels (0 when missing) |
| Persistence.CountGoodAll | src/preprocessing/__init__.py:240-242 | all n channels are counted exactly when every one is present with snr ≥ 15 |
| Persistence.CountGoodNone | src/preprocessing/__init__.py:240-242 | the count is 0 exactly when no channel below n is good (a missing snr counts as 0) |
| Persistence.CountGoodStable | src/preprocessing/__init__.py:240-242 | channels that are not good add nothing to the count |
| Persistence.CountGoodOfQuality | src/preprocessing/__init__.py:240-242 | on the dictionary verificar_qualidade_sinal builds for m channels, the key for channel i exists exactly when i < m, channel i is good exactly when its SNR is ≥ 15, and the count is ≤ m whatever n_channels says |
| Decimal.FormatIntRoundTrip | src/preprocessing/__init__.py:197 | `f"{n:0Wd}"` reads back as n |
| Decimal.FormatIntInjective | src/preprocessing/__init__.py:197 | different numbers never share a formatted text |
| Decimal.FormatIntLength | src/preprocessing/__init__.py:187 | the text is at least W long and ends with all the digits of \|n\|, so nothing is truncated |
| TimeFeatures.SignBitChanged | src/feature_extraction/__init__.py:31 | np.diff of the sign bits marks exactly the neighbours whose sign bits differ |
| TimeFeatures.ExtractTimeDomainFeatures | src/feature_extraction/__init__.py:11-33 | an empty signal raises (at np.min) and every other signal yields the ten entries |
| TimeFeatures.TimeFeaturesOrder | src/feature_extraction/__init__.py:22-27 | min ≤ mean ≤ max, range = max − min ≥ 0, variance ≥ 0 and 0 exactly when the range is 0 |
| TimeFeatures.TimeFeaturesRoots | src/feature_extraction/__init__.py:23-28 | std is the non-negative square root of the variance; rms ≥ 0 and 0 exactly for an all-zero signal |
| TimeFeatures.RangeZeroIffConstant | src/feature_extraction/__init__.py:27 | the range is 0 exactly for a constant signal |
| TimeFeatures.ZeroCrossingsBounds | src/feature_extraction/__init__.py:31 | at most len − 1 crossings; none exactly when every sample has the first one's sign bit, so none for a non-negative signal |
| FrequencyFeatures.FftFreq | src/feature_extraction/__init__.py:49 | np.fft.fftfreq has n bins; for fs > 0 exactly the first (n + 1) // 2 are non-negative |
| FrequencyFeatures.HalfSpectrum | src/feature_extraction/__init__.py:47-54 | magnitudes and frequencies are cut to len // 2 entries, the k-th frequency being k·fs / len |
| FrequencyFeatures.HalfSpectrumFrequencies | src/feature_extraction/__init__.py:49-54 | for fs > 0 the kept frequencies are non-negative, strictly increasing and below fs / 2 |
| FrequencyFeatures.CumSum | src/feature_extraction/__init__.py:59 | entry k of np.cumsum is the sum of the first k + 1 values |
| FrequencyFeatures.FirstAtLeast | src/feature_extraction/__init__.py:59 | `np.where(s >= t)[0][0]` is the first index at or above t, and raises IndexError exactly when there is none |
| FrequencyFeatures.ArgMax | src/feature_extraction/__init__.py:61 | np.argmax is the first index of the largest value and raises exactly on an empty array |
| FrequencyFeatures.ExtractFrequencyDomainFeatures | src/feature_extraction/__init__.py:35-63 | as written: raises on an empty signal, on fs == 0, and otherwise always raises UnboundLocalError at the bandwidth entry |
| FrequencyFeatures.UnboundFeaturesExample | src/feature_extraction/__init__.py:58 | on [1.0, 2.0] at 1 Hz the function as written raises where the corrected one returns |
| FrequencyFeatures.SpectralFeatures | src/feature_extraction/__init__.py:56-62 | on the half spectrum the five entries exist exactly when it is non-empty; otherwise the rolloff raises IndexError |
| FrequencyFeatures.CorrectedFrequencyDomainFeatures | src/feature_extraction/__init__.py:35-63 | with line 58 corrected: raises on an empty signal, on fs == 0, and on a one-sample signal (empty half spectrum); returns otherwise |
| FrequencyFeatures.RolloffExists | src/feature_extraction/__init__.py:59 | for non-negative magnitudes the 85 % rolloff index exists exactly when the half spectrum is non-empty |
| FrequencyFeatures.RolloffAndDominant | src/feature_extraction/__init__.py:59-61 | the rolloff is the first bin whose cumulative magnitude reaches 85 % of the total; the dominant frequency is the first bin of largest magnitude |
| FrequencyFeatures.FluxBounds | src/feature_extraction/__init__.py:60 | the spectral flux is ≥ 0, and 0 exactly when the kept magnitudes are all equal |
| FrequencyFeatures.SpectralCentroid | src/feature_extraction/__init__.py:57 | the centroid is a number exactly when the total magnitude is not 0 |
| FrequencyFeatures.SpectralBandwidth | src/feature_extraction/__init__.py:58 | the corrected bandwidth is a number only for a numeric centroid and a non-zero total magnitude, is NaN after a NaN centroid, and is ≥ 0 with a real square root |
| FrequencyFeatures.CentroidWithin | src/feature_extraction/__init__.py:57 | with a positive total the centroid is a number between the lowest and highest frequency; with a zero total it is NaN |
| FrequencyFeatures.WeightedSumBounds | src/feature_extraction/__init__.py:57 | with non-negative weights, lo·Σm ≤ Σ f·m ≤ hi·Σm |
| FrequencyFeatures.CorrectedCentroidRange | src/feature_extraction/__init__.py:57 | when the kept magnitudes do not all vanish, the corrected centroid lies in [0, fs / 2] |
| AllFeatures.TimeMap | src/feature_extraction/__init__.py:21-32 | the time dictionary has exactly the ten key names |
| AllFeatures.FrequencyMap | src/feature_extraction/__init__.py:56-62 | the frequency dictionary has exactly the five key names |
| AllFeatures.Merge | src/feature_extraction/__init__.py:79 | `{**a, **b}` has the keys of both, b's entries win, and a's are kept elsewhere |
| AllFeatures.ExtractAllFeatures | src/feature_extraction/__init__.py:65-80 | as written: an empty signal raises in the time features, and every other call raises in the frequency features, so it never returns |
| AllFeatures.CorrectedAllFeatures | src/feature_extraction/__init__.py:65-80 | with the corrected frequency function it returns exactly for ≥ 2 samples and fs ≠ 0, with the error of the first failing stage otherwise |
| AllFeatures.MergedFeatures | src/feature_extraction/__init__.py:76-80 | the merged dictionary has all fifteen keys, and each entry is the one its own extractor computed: nothing is overridden |
| AllFeatures.KeysDisjoint | src/feature_extraction/__init__.py:21-32 | no time-domain key is a frequency-domain key |
| AllFeatures.KeysCount | src/feature_extraction/__init__.py:56-62 | there are 10 and 5 distinct key names, 15 together |

## Left out

- The file I/O is not modelled:
  - `load_signal_data` (wfdb reading);
  - `os.makedirs`, `np.savez_compressed`, `json.dump`;
  - `datetime.now()`.
  These are file system and clock access. The paths are modelled, not the writes.
- `pipeline_preprocessamento` is not modelled. It starts with a file load and
  only chains the modelled stages.
- The global statistics of `salvar_dados_processados` are not modelled. These
  are mean, std, min, max and RMS of the whole array, and the `duracao_segundos`
  division. This includes np.min raising on a zero-size 2-D array before the
  count is reached. `Persistence.CanaisComBoaQualidade` takes the 2-D test as
  an input.
- The numerics of `signal.butter`/`filtfilt`, the scipy window coefficients, the
  FFT, `skew`/`kurtosis`, and the `sqrt`/`log10` values are parameters. Floating
  point is not modelled.
- Filtering.AplicarFiltro: of scipy's own checks only the order, cutoff-range,
  band-order and padlen ones are modelled; a non-integer order or a cutoff that
  is not a number is not.
- Real arithmetic stands for float64. Rounding, overflow and -0.0 are not
  modelled (np.signbit(-0.0) is true). NaN and ±inf appear only where the code
  produces them from finite inputs.
- `np.zeros_like(sinal)` keeps an integer input's dtype, so the filtered or
  normalised values of an integer array would be truncated. Signals are
  modelled as real arrays only.
- The feature extractors assume one-dimensional data. For 2-D input numpy would
  flatten or reduce along axes, which is not modelled.
- Dictionary key order is not modelled; maps are unordered.
- `normalizar_sinal` compares the method name at every step of the channel
  loop. The model classifies the name once before the loop (`ChoiceOf`); the
  comparison has no side effect and gives the same outcome at every step.
- `metadata.get('n_channels', 0)` with a non-integer value (range would raise
  TypeError) is not modelled; n_channels is an optional integer.
- `src/classification` and `src/__init__.py` are not part of this model.

## Findings

| source | as written | input that shows it | evidently intended | confidence | as-written member | corrected member |
|---|---|---|---|---|---|---|
| src/feature_extraction/__init__.py:58 | the bandwidth entry reads `features.get('spectral_centroid', 0)` inside the literal that is being assigned to `features`, so the local name is unbound and every call that gets past the FFT raises UnboundLocalError; `extract_all_features` therefore never returns | data = [1.0, 2.0], fs = 1.0 | the bandwidth is taken about the centroid computed on line 57 | high (not executed) | FrequencyFeatures.ExtractFrequencyDomainFeatures (with FrequencyFeatures.UnboundFeaturesExample and AllFeatures.ExtractAllFeatures) | FrequencyFeatures.CorrectedFrequencyDomainFeatures (with AllFeatures.CorrectedAllFeatures) |
