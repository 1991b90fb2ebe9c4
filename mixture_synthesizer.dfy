/** The multi-label test-set generator, the method
    `create_mixed_audio_testset` of the class `UrbanSoundPreprocessor` (the
    other two modelled are `pad_or_truncate` and `prepare_for_edge_impulse`):
    each mixture draws distinct classes, adds one weighted normalised clip
    per class into a zero buffer of the fixed length, and is recorded under a name
    that encodes its index and labels. The random draws are inputs. */
module MixtureSynthesizer {
  import opened Wrappers
  import opened Seqs
  import opened Text
  import opened Corpus
  import opened LengthNormalizer

  /** How many mixtures, and how many classes per mixture, when the caller
      names none. */
  const DefaultNumSamples: nat := 100
  const DefaultClassesPerMix: nat := 2

  /** Bounds of the uniform gain draw, `np.random.uniform(0.4, 1.0)`. */
  const MinWeight: real := 0.4
  const MaxWeight: real := 1.0

  /** The random draws of one mixture: the chosen classes, the record drawn
      for each class, and the gain drawn for each record. */
  datatype Draw = Draw(classes: seq<string>, samples: seq<CorpusRecord>, weights: seq<real>)

  /** One row of `mixed_audio_metadata.csv`. */
  datatype MixtureRecord = MixtureRecord(
    filename: string,
    labels: string,
    numClasses: nat,
    classes: seq<string>)

  /** Why a run stops: the class draw asks for more distinct classes than
      the corpus has, or loading a drawn record raises (in mixture
      `mixIndex`, at its `slot`-th drawn record). Neither is caught. */
  datatype MixError =
    | SampleLargerThanPopulation
    | LoadFailed(mixIndex: nat, slot: nat, record: CorpusRecord)

  /** What a completed run produces: the metadata rows and, per mixture, the
      accumulated buffer before peak normalisation and noise. */
  datatype MixedSet = MixedSet(records: seq<MixtureRecord>, buffers: seq<seq<real>>)

  /** What the random draws of one mixture guarantee: `arity` distinct
      classes without replacement, for each class a record of that class
      from the corpus, and a gain in [0.4, 1.0). */
  predicate DrawFits(d: Draw, metadata: seq<CorpusRecord>, arity: nat) {
    && |d.classes| == arity && |d.samples| == arity && |d.weights| == arity
    && Distinct(d.classes)
    && (forall k :: 0 <= k < arity ==> d.samples[k] in metadata && d.samples[k].className == d.classes[k])
    && (forall k :: 0 <= k < arity ==> MinWeight <= d.weights[k] < MaxWeight)
  }

  /** `f"mixed_{i:04d}_{'_'.join(labels)}.wav"`. */
  function MixtureFilename(i: nat, labels: seq<string>): (f: string)
  {
    "mixed_" + Pad4(i) + "_" + Join('_', labels) + ".wav"
  }

  /** The row appended for mixture `i` with these labels. */
  function MixtureRecordFor(i: nat, labels: seq<string>): MixtureRecord {
    MixtureRecord(MixtureFilename(i, labels), Join(',', labels), |labels|, labels)
  }

  /** The mixture index a file name encodes: the digit run after `mixed_`. */
  function MixtureIndex(filename: string): Option<nat> {
    if |filename| >= 6 && filename[..6] == "mixed_" then
      Some(ParseDecimal(LeadingDigits(filename[6..])))
    else
      None
  }

  /** Sample `t` of the buffer once the first `k` drawn clips are added:
      the weighted sum of their normalised samples. */
  function MixedSample(d: Draw, load: Loader, k: nat, t: nat): real
    requires k <= |d.samples| && k <= |d.weights| && t < ClipSamples
    requires forall j :: 0 <= j < k ==> load(d.samples[j]).Some?
  {
    if k == 0 then 0.0
    else MixedSample(d, load, k - 1, t)
         + d.weights[k - 1] * PadOrTruncate(load(d.samples[k - 1]).value, ClipSamples)[t]
  }

  /** The buffer once every drawn clip is added. */
  function MixedBuffer(d: Draw, load: Loader): (buf: seq<real>)
    requires |d.samples| <= |d.weights|
    requires forall j :: 0 <= j < |d.samples| ==> load(d.samples[j]).Some?
    ensures |buf| == ClipSamples
  {
    seq(ClipSamples, t requires 0 <= t < ClipSamples => MixedSample(d, load, |d.samples|, t))
  }

  /** Every load of the first `n` draws succeeds. */
  predicate AllLoad(draws: seq<Draw>, load: Loader, n: nat)
    requires n <= |draws|
  {
    forall i, k :: 0 <= i < n && 0 <= k < |draws[i].samples| ==> load(draws[i].samples[k]).Some?
  }

  /** Loading the `k`-th of these records is the first load that fails. */
  predicate FirstFailure(samples: seq<CorpusRecord>, load: Loader, k: nat) {
    k < |samples| && load(samples[k]).None? &&
    forall j :: 0 <= j < k ==> load(samples[j]).Some?
  }

  /** One mixture's labels and accumulated buffer. */
  datatype Mix = Mix(labels: seq<string>, buffer: seq<real>)

  /** `mixed += weight * audio`, sample by sample, in place. */
  method AddScaled(mixed: array<real>, weight: real, audio: seq<real>)
    requires mixed.Length == |audio|
    modifies mixed
    ensures forall t :: 0 <= t < mixed.Length ==> mixed[t] == old(mixed[t]) + weight * audio[t]
  {
    forall t | 0 <= t < mixed.Length {
      mixed[t] := mixed[t] + weight * audio[t];
    }
  }

  /** The body of one iteration: for each drawn class in turn, load and
      normalise its record (the first failure ends the iteration with the
      position of that record),
      add the clip times its gain into a zero buffer of the fixed length,
      and append the class to the labels. */
  method MixDraw(d: Draw, load: Loader) returns (result: Result<Mix, nat>)
    requires |d.samples| == |d.classes| && |d.weights| == |d.classes|
    ensures result.Success? <==> forall j :: 0 <= j < |d.samples| ==> load(d.samples[j]).Some?
    ensures result.Failure? ==> FirstFailure(d.samples, load, result.error)
    ensures result.Success? ==>
      result.value.labels == d.classes &&
      |result.value.buffer| == ClipSamples &&
      result.value.buffer == MixedBuffer(d, load)
  {
    var mixed := new real[ClipSamples](_ => 0.0);
    var labels: seq<string> := [];
    for k := 0 to |d.classes|
      invariant labels == d.classes[..k]
      invariant forall j :: 0 <= j < k ==> load(d.samples[j]).Some?
      invariant forall t :: 0 <= t < ClipSamples ==> mixed[t] == MixedSample(d, load, k, t)
    {
      var sample := d.samples[k];
      var loaded := load(sample);
      if loaded.None? {
        assert FirstFailure(d.samples, load, k);
        return Failure(k);
      }
      var audio := PadOrTruncate(loaded.value, ClipSamples);
      var weight := d.weights[k];
      AddScaled(mixed, weight, audio);
      labels := labels + [d.classes[k]];
    }
    assert labels == d.classes;
    return Success(Mix(labels, mixed[..]));
  }

  /** Run `numSamples` iterations; each draws its classes (failing when more
      distinct classes are asked for than the corpus has), mixes them (any
      load failure ends the run), and appends the mixture's row. */
  method CreateMixedAudioTestset(metadata: seq<CorpusRecord>, draws: seq<Draw>, load: Loader,
                                 numSamples: nat := DefaultNumSamples,
                                 arity: nat := DefaultClassesPerMix)
    returns (outcome: Result<MixedSet, MixError>)
    requires |draws| == numSamples
    requires arity <= |Classes(metadata)| ==>
      forall i :: 0 <= i < numSamples ==> DrawFits(draws[i], metadata, arity)
    ensures outcome.Success? <==>
      (numSamples == 0 || arity <= |Classes(metadata)|) && AllLoad(draws, load, numSamples)
    ensures outcome.Failure? ==>
      (outcome.error.SampleLargerThanPopulation? <==> numSamples > 0 && arity > |Classes(metadata)|)
    ensures outcome.Failure? && outcome.error.LoadFailed? ==>
      var i, k := outcome.error.mixIndex, outcome.error.slot;
      i < numSamples && AllLoad(draws, load, i) &&
      FirstFailure(draws[i].samples, load, k) && outcome.error.record == draws[i].samples[k]
    ensures outcome.Success? ==>
      var out := outcome.value;
      |out.records| == numSamples && |out.buffers| == numSamples &&
      forall i :: 0 <= i < numSamples ==>
        DrawFits(draws[i], metadata, arity) &&
        out.records[i] == MixtureRecordFor(i, draws[i].classes) &&
        out.records[i].numClasses == arity && Distinct(out.records[i].classes) &&
        |out.buffers[i]| == ClipSamples &&
        out.buffers[i] == MixedBuffer(draws[i], load)
  {
    var classes := Classes(metadata);
    var records: seq<MixtureRecord> := [];
    var buffers: seq<seq<real>> := [];
    var i := 0;
    while i < numSamples
      invariant 0 <= i <= numSamples
      invariant i > 0 ==> arity <= |classes|
      invariant AllLoad(draws, load, i)
      invariant |records| == i && |buffers| == i
      invariant forall j :: 0 <= j < i ==>
        records[j] == MixtureRecordFor(j, draws[j].classes) &&
        buffers[j] == MixedBuffer(draws[j], load)
    {
      if arity > |classes| {
        return Failure(SampleLargerThanPopulation);
      }
      assert DrawFits(draws[i], metadata, arity);
      var mix := MixDraw(draws[i], load);
      if mix.Failure? {
        assert !AllLoad(draws, load, numSamples);
        return Failure(LoadFailed(i, mix.error, draws[i].samples[mix.error]));
      }
      assert AllLoad(draws, load, i + 1);
      records := records + [MixtureRecordFor(i, mix.value.labels)];
      buffers := buffers + [mix.value.buffer];
      i := i + 1;
    }
    forall j | 0 <= j < numSamples
      ensures DrawFits(draws[j], metadata, arity)
      ensures records[j].numClasses == arity && Distinct(records[j].classes)
      ensures |buffers[j]| == ClipSamples
    {
    }
    return Success(MixedSet(records, buffers));
  }

  /** A mixture's row has as many labels as classes were mixed, the labels
      are distinct classes of the corpus, and the `labels` column splits
      back into them when no class name holds a comma. */
  lemma RecordLabels(i: nat, d: Draw, metadata: seq<CorpusRecord>, arity: nat)
    requires DrawFits(d, metadata, arity)
    ensures MixtureRecordFor(i, d.classes).numClasses == |MixtureRecordFor(i, d.classes).classes| == arity
    ensures Distinct(MixtureRecordFor(i, d.classes).classes)
    ensures forall k :: 0 <= k < arity ==> d.classes[k] in Classes(metadata)
    ensures arity >= 1 && (forall k :: 0 <= k < arity ==> ',' !in d.classes[k]) ==>
      Split(',', MixtureRecordFor(i, d.classes).labels) == d.classes
  {
    ClassesExact(metadata);
    forall k | 0 <= k < arity ensures d.classes[k] in Classes(metadata) {
      var r := d.samples[k];
      var m :| 0 <= m < |metadata| && metadata[m] == r;
    }
    if arity >= 1 && (forall k :: 0 <= k < arity ==> ',' !in d.classes[k]) {
      SplitJoin(',', d.classes);
    }
  }

  /** The file name starts with `mixed_`, ends with `.wav`, encodes the
      index in at least four zero-filled digits (exactly four below 10000),
      and the index reads back from it whatever the labels are. */
  lemma FilenameEncodesIndex(i: nat, labels: seq<string>)
    ensures |MixtureFilename(i, labels)| >= 15
    ensures MixtureFilename(i, labels)[..6] == "mixed_"
    ensures MixtureFilename(i, labels)[|MixtureFilename(i, labels)| - 4..] == ".wav"
    ensures i < 10000 ==> MixtureFilename(i, labels)[6..10] == Pad4(i) && |Pad4(i)| == 4
    ensures MixtureIndex(MixtureFilename(i, labels)) == Some(i)
  {
    var f := MixtureFilename(i, labels);
    var head := "mixed_" + Pad4(i) + "_" + Join('_', labels);
    var rest := Join('_', labels) + ".wav";
    assert f == head + ".wav";
    assert f == "mixed_" + (Pad4(i) + ['_'] + rest);
    assert |Pad4(i)| >= 4 && AllDigits(Pad4(i)) && (i < 10000 ==> |Pad4(i)| == 4) &&
      ParseDecimal(Pad4(i)) == i by {
      Pad4Format(i);
    }
    assert f[6..] == Pad4(i) + ['_'] + rest;
    LeadingDigitsStop(Pad4(i), '_', rest);
  }

  /** When every drawn clip is silent the buffer is silent too: the case in
      which the peak normalisation that follows divides by zero. */
  lemma {:induction false} SilentSourcesGiveSilentBuffer(d: Draw, load: Loader, k: nat, t: nat)
    requires k <= |d.samples| && k <= |d.weights| && t < ClipSamples
    requires forall j :: 0 <= j < k ==> load(d.samples[j]).Some?
    requires forall j, x :: 0 <= j < k && x in load(d.samples[j]).value ==> x == 0.0
    ensures MixedSample(d, load, k, t) == 0.0
  {
    if k > 0 {
      SilentSourcesGiveSilentBuffer(d, load, k - 1, t);
      SamplesComeFromInput(load(d.samples[k - 1]).value, ClipSamples);
    }
  }
}
