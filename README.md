# UrbanSound8K preparation core, modelled in Dafny

This project models the core of `dataset_prep.py`, the script that prepares the
UrbanSound8K corpus for Edge Impulse. The core lives in the class
`UrbanSoundPreprocessor` and has three parts.

- **Length normaliser** (`pad_or_truncate`). Every clip becomes exactly
  `int(AUDIO_LENGTH * TARGET_SR)` samples, which is 64000 for 4.0 s at 16 kHz.
  A longer clip keeps its centre window. A shorter clip is padded with zeros
  at the end. A clip of exactly that length is returned unchanged.
  Module `LengthNormalizer`, a pure function with lemmas.
- **Train/test preparation** (`prepare_for_edge_impulse`). The corpus is split
  by fold: records of the test fold go to testing, all others to training.
  Two loops then visit each partition in order. For every record whose clip
  loads, a loop writes the normalised clip and appends a metadata row named
  `<class>.<slice_file_name>`. A record that raises is reported and skipped.
  Module `DatasetSplitter`, methods with loops.
- **Mixed test set** (`create_mixed_audio_testset`). Each of `num_samples`
  iterations does four things. It draws `num_classes_per_mix` distinct
  classes. It adds one weighted, normalised clip per class into a zero
  buffer of the fixed length. It names the result
  `mixed_{i:04d}_{'_'.join(labels)}.wav`. It appends a row holding the
  comma-joined labels and their count. Module `MixtureSynthesizer`: a
  `while` loop, and an inner loop that updates an `array<real>` buffer in
  place.

Helper modules:

- `Wrappers` holds `Option` and `Result`.
- `Seqs` holds boolean-mask selection (`Filter`), `Distinct` and `Unique`
  (pandas `unique()`, in order of first appearance).
- `Text` holds `str.join`, `str.split`, `str(n)` and the `04d` format, plus
  the parsing that inverts them.
- `Corpus` holds the metadata record and the class set.

Inputs that the program gets from I/O or randomness are parameters here:

- **Loading.** The audio load is a function `Loader = CorpusRecord -> Option<seq<real>>`.
  `None` stands for any exception raised inside the per-record `try` block.
- **Random draws.** Each mixture gets a `Draw` value holding its classes,
  the record drawn for each class and the gain for each record. The
  predicate `DrawFits` states what `np.random.choice(..., replace=False)`,
  `class_samples.sample(1)` and `np.random.uniform(0.4, 1.0)` guarantee.

Points about the code that are easy to misread:

- The target sample count is a truncating `int(...)`, not a rounding.
- The splitter's skip covers the whole `try` block (load, normalise, write).
- The mixture loop catches nothing, so a failing load ends the whole run.
- Peak normalisation has no guard against an all-silent buffer.

## Model

| member | source | states |
|---|---|---|
| LengthNormalizer.Truncate | dataset_prep.py:49 | `int(x)` truncates toward zero: the result is the integer within one of `x` on the side of zero |
| LengthNormalizer.TargetSamples | dataset_prep.py:49 | for a non-negative length the count is the whole number of samples in that many seconds at 16000 Hz: non-negative, at most the exact product and less than one sample below it |
| LengthNormalizer.ClipSamplesValue | dataset_prep.py:29-30 | the configured 4.0 s at 16000 Hz give exactly 64000 samples per clip |
| LengthNormalizer.PadOrTruncate | dataset_prep.py:47-60 | the output has exactly `targetSamples` samples for every input length, 0 and far longer inputs included |
| LengthNormalizer.CentredTruncation | dataset_prep.py:51-54 | for a longer clip, output[i] == audio[h + i] for the unique head drop `h` whose tail drop is `h` or `h + 1`: the window is centred, with the odd sample dropped at the tail |
| LengthNormalizer.TruncationBalanced | dataset_prep.py:51-54 | the window starting at `(len - target) // 2` is a balanced one and is the output |
| LengthNormalizer.PaddingAtTail | dataset_prep.py:55-58 | for a shorter clip the input is a prefix of the output and every appended sample is zero; nothing is added at the head |
| LengthNormalizer.ExactLengthUnchanged | dataset_prep.py:51-60 | a clip of exactly the target length is returned unchanged |
| LengthNormalizer.Idempotent | dataset_prep.py:47-60 | normalising twice equals normalising once |
| LengthNormalizer.SamplesComeFromInput | dataset_prep.py:47-60 | every output sample is an input sample or a padding zero |
| Seqs.Filter | dataset_prep.py:216-217 | a mask selection keeps only selected elements, all taken from the input, never more than the input |
| Seqs.FilterIsSubsequence | dataset_prep.py:216-217 | a mask selection keeps the input order (it is a subsequence) |
| Seqs.FilterCount | dataset_prep.py:216-217 | a mask selection holds each selected element exactly as often as the input, and no other element |
| Seqs.FilterComplement | dataset_prep.py:216-217 | two complementary masks together hold every element exactly as often as the input |
| Seqs.FilterKeepsAll | dataset_prep.py:225-268 | a mask keeps the whole input exactly when every element passes it |
| Seqs.Unique | dataset_prep.py:295 | `unique()` has no duplicate and holds exactly the elements of its input |
| Corpus.Classes | dataset_prep.py:295 | `metadata['class'].unique()`: the class column without duplicates, in order of first appearance, no longer than the corpus |
| Corpus.ClassesExact | dataset_prep.py:295 | the class set is duplicate-free, no larger than the corpus, and holds a label exactly when some record carries it |
| Text.Join | dataset_prep.py:332-338 | `sep.join(parts)` for a one-character separator (definition); the first piece is a prefix of the result |
| Text.SplitJoin | dataset_prep.py:338 | splitting the comma-joined labels gives the label list back when it is non-empty and no label holds a comma |
| Text.JoinSplit | dataset_prep.py:231 | helper for `RowFilenameRoundTrip`: joining the pieces of any split gives the string back, so a slice name that holds dots survives the split of the output name |
| Text.Pad4Format | dataset_prep.py:332 | `{i:04d}` is all digits and parses back to `i`; it is four wide below 10000 and as wide as `str(i)` from there on; from 1000 on it is `str(i)` unchanged, and below 1000 it starts with a filling zero |
| Text.Decimal | dataset_prep.py:332 | `str(n)` of a non-negative integer: at least one character, all digits, `"0"` exactly for 0 and no leading zero otherwise |

| Text.ParseDecimalOfDecimal | dataset_prep.py:332 | parsing the decimal digits of `n` gives `n` |
| DatasetSplitter.InTrain | dataset_prep.py:216 | the training mask `fold != test_fold` (definition) |
| DatasetSplitter.InTest | dataset_prep.py:217 | the testing mask `fold == test_fold` (definition) |
| DatasetSplitter.TrainRecords | dataset_prep.py:216 | `train_data`: the corpus under the training mask (definition; its properties are `SplitIsPartition` and `SplitCoversCorpus`) |
| DatasetSplitter.TestRecords | dataset_prep.py:217 | `test_data`: the corpus under the testing mask (definition; its properties are `SplitIsPartition` and `SplitCoversCorpus`) |
| DatasetSplitter.OutputFilename | dataset_prep.py:231 | the output name is the class name, then a '.' at position `len(class)`, then the slice file name, and nothing else |
| DatasetSplitter.MakeRow | dataset_prep.py:237-243 | the row takes its file name from `OutputFilename` and copies class, classID, fold (as `original_fold`) and salience from its record (definition; its properties are `RowFilenameRoundTrip`) |
| DatasetSplitter.EmitRows | dataset_prep.py:224-268 | the rows are those of the partition's records that load, in order, each built from its record, and each written clip is the 64000-sample normalisation of its audio |
| DatasetSplitter.PrepareForEdgeImpulse | dataset_prep.py:199-281 | with the test fold defaulting to 10, training rows come from the loading non-test-fold records and testing rows from the loading test-fold records, in corpus order; every row's original fold matches its side; no side has more rows than records |
| DatasetSplitter.SplitCoversCorpus | dataset_prep.py:216-217 | train and test together hold every record exactly as often as the corpus: nothing lost, nothing duplicated |
| DatasetSplitter.SplitIsPartition | dataset_prep.py:216-217 | a record is in test iff its fold is the test fold and in train iff it is not; the parts are disjoint and each keeps corpus order |
| DatasetSplitter.SkipPolicy | dataset_prep.py:225-268 | a record gets a row iff its load succeeds, in order; there are never more rows than records, and exactly as many iff every load succeeds |
| DatasetSplitter.RowFilenameRoundTrip | dataset_prep.py:231-243 | a row copies class, classID, fold and salience; its file name splits at the first '.' into the class label and the original slice name |
| DatasetSplitter.ThreeRecordScenario | dataset_prep.py:216-268 | with fold 2 held out and every asset loading, records (fold 1 dog, fold 1 car, fold 2 dog) give the training records dog, car and the testing record dog |
| DatasetSplitter.ThreeRecordFilenames | dataset_prep.py:231 | the rows of that scenario are named `dog_bark.d1.wav`, `car_horn.c1.wav` and `dog_bark.d2.wav` |

| MixtureSynthesizer.DrawFits | dataset_prep.py:303-319 | what the random draws guarantee (definition): `arity` distinct classes, for each a record of that class from the corpus, and a gain in [0.4, 1.0) |
| MixtureSynthesizer.MixedSample | dataset_prep.py:305-320 | sample `t` of the buffer after `k` clips: zero for no clip, else the previous value plus the `k`-th gain times the `k`-th normalised clip's sample (definition) |
| MixtureSynthesizer.MixedBuffer | dataset_prep.py:305-320 | the buffer after every drawn clip is added: 64000 samples, each the weighted sum `MixedSample` of the normalised clips |
| MixtureSynthesizer.AddScaled | dataset_prep.py:320 | `mixed_audio += weight * audio` in place: every sample gains `weight` times the clip's sample at the same position |
| MixtureSynthesizer.MixDraw | dataset_prep.py:305-322 | one mixture succeeds iff every drawn record loads; it then has the drawn classes as labels, in order, and a 64000-sample buffer equal to the weighted sum of the normalised clips; otherwise it gives the position of the first drawn record whose load fails, every earlier one having loaded |
| MixtureSynthesizer.CreateMixedAudioTestset | dataset_prep.py:283-356 | with 100 mixtures of 2 classes by default, a run succeeds iff the class draw is possible and every load succeeds; it then gives exactly `num_samples` rows, row i named for i and its drawn labels, with `num_classes == arity`, distinct labels and a 64000-sample buffer; otherwise it reports the population error (exactly when mixtures are asked for and `arity` exceeds the class count) or the first failing load of the run: the mixture index, every earlier mixture loading in full, and the position in that mixture of the first drawn record that fails, every earlier one having loaded |
| MixtureSynthesizer.MixtureRecordFor | dataset_prep.py:336-341 | the row of mixture `i`: its file name, the comma-joined labels, their count and the labels themselves (definition; its properties are `RecordLabels`) |
| MixtureSynthesizer.MixtureFilename | dataset_prep.py:332 | `mixed_{i:04d}_{'_'.join(labels)}.wav` (definition; its properties are `FilenameEncodesIndex`) |
| MixtureSynthesizer.RecordLabels | dataset_prep.py:301-341 | a row has `num_classes == len(classes) == arity`, distinct labels that are classes of the corpus, and a labels column that splits back into them |
| MixtureSynthesizer.FilenameEncodesIndex | dataset_prep.py:332 | the name starts with `mixed_`, ends with `.wav`, carries the index zero-filled to four digits, and the index reads back from the name whatever the labels |
| MixtureSynthesizer.SilentSourcesGiveSilentBuffer | dataset_prep.py:305-325 | if every drawn clip is silent the buffer is all zero, the case in which the peak normalisation divides by zero |

## Left out

- `load_audio` (dataset_prep.py:41-45): librosa decoding and resampling are not modelled. A load is a `Loader` parameter that gives samples or fails, and the same record always loads the same way.
- File and directory side effects are not modelled: `mkdir`, `sf.write`, `to_csv` and the JSON summary. The splitter returns the clips it would write. A write failure falls under the same `None` as a load failure, because both raise inside one `try` block.
- The mixture loop's `sf.write` can raise too. That would also end the run, but the model does not represent it.
- Error reporting (`print`) and progress bars (`tqdm`) are left out: they are output only.
- Peak normalisation and noise (dataset_prep.py:324-329) are left out. They are floating-point numerics and Gaussian randomness. The source has no guard for an all-silent buffer, and none is added here. `SilentSourcesGiveSilentBuffer` shows when that division by zero happens.
- MixtureSynthesizer.CreateMixedAudioTestset: the buffers it returns are taken before peak normalisation and noise, so it says nothing about the written signal.
- The random draws themselves (`np.random.choice`, `sample(1)`, `np.random.uniform`) are not modelled. They are `Draw` inputs constrained by `DrawFits`, and uniformity is not modelled.
- Samples are mathematical reals. float32/float64 rounding in `int(...)`, in the slicing arithmetic and in the accumulation is not modelled.
- LengthNormalizer.PadOrTruncate: takes the target sample count as a `nat`. A negative target length would produce Python's negative-index slicing, which is not modelled; the only caller passes 4.0 s.
- Negative `num_samples` or `num_classes_per_mix` are not modelled: both are `nat` here. Python yields no iterations for the first and raises in `np.random.choice` for the second.
- The `classes` column is stored as a list and stringified by `to_csv`; here it is a sequence.
- `extract_features`, `perform_eda`, `visualize_dataset` and `analyze_audio_samples` (dataset_prep.py:62-197) are left out: librosa DSP, pandas statistics and plotting.
- `nano_bridge.py` is not part of this model. It relays MQTT messages to BigQuery, which is network I/O only.
