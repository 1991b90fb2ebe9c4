/** The train/test preparation, the method `prepare_for_edge_impulse` of the
    class `UrbanSoundPreprocessor` (the other two modelled are
    `pad_or_truncate` and `create_mixed_audio_testset`): split the corpus by
    fold, then visit each partition in order, normalise every clip that
    loads, and emit one metadata row per clip written. */
module DatasetSplitter {
  import opened Wrappers
  import opened Seqs
  import opened Text
  import opened Corpus
  import opened LengthNormalizer

  /** The fold held out for testing when the caller names none. */
  const DefaultTestFold: int := 10

  /** One row of `train_metadata.csv` or `test_metadata.csv`. */
  datatype SplitRow = SplitRow(
    filename: string,
    className: string,
    classID: int,
    originalFold: int,
    salience: int)

  /** The output file name `<class>.<slice_file_name>`: the class name,
      a dot, then the source file name. */
  function OutputFilename(r: CorpusRecord): (f: string)
    ensures |f| == |r.className| + 1 + |r.sliceFileName|
    ensures f[..|r.className|] == r.className && f[|r.className|] == '.'
    ensures f[|r.className| + 1..] == r.sliceFileName
  {
    r.className + "." + r.sliceFileName
  }

  /** The row appended for a record whose clip was written. */
  function MakeRow(r: CorpusRecord): SplitRow {
    SplitRow(OutputFilename(r), r.className, r.classID, r.fold, r.salience)
  }

  /** The mask `metadata['fold'] == test_fold`. */
  function InTest(testFold: int): CorpusRecord -> bool {
    (r: CorpusRecord) => r.fold == testFold
  }

  /** The mask `metadata['fold'] != test_fold`. */
  function InTrain(testFold: int): CorpusRecord -> bool {
    (r: CorpusRecord) => r.fold != testFold
  }

  /** The records whose try block succeeds. */
  function Loads(load: Loader): CorpusRecord -> bool {
    (r: CorpusRecord) => load(r).Some?
  }

  /** `train_data`: the records outside the test fold, in corpus order. */
  function TrainRecords(metadata: seq<CorpusRecord>, testFold: int): (part: seq<CorpusRecord>)
  {
    Filter(metadata, InTrain(testFold))
  }

  /** `test_data`: the records of the test fold, in corpus order. */
  function TestRecords(metadata: seq<CorpusRecord>, testFold: int): (part: seq<CorpusRecord>)
  {
    Filter(metadata, InTest(testFold))
  }

  /** One processing loop: visit the partition in order; a record whose
      try block succeeds adds its row and its normalised clip, one that
      raises adds nothing and the loop goes on. The rows are those of the
      records that load, in order, and every clip has the fixed length. */
  method EmitRows(part: seq<CorpusRecord>, load: Loader)
    returns (rows: seq<SplitRow>, clips: seq<seq<real>>)
    ensures var kept := Filter(part, Loads(load));
      |rows| == |kept| && |clips| == |kept| &&
      forall j :: 0 <= j < |kept| ==>
        load(kept[j]).Some? &&
        rows[j] == MakeRow(kept[j]) &&
        clips[j] == PadOrTruncate(load(kept[j]).value, ClipSamples)
    ensures forall j :: 0 <= j < |clips| ==> |clips[j]| == ClipSamples
  {
    rows, clips := [], [];
    for i := 0 to |part|
      invariant var kept := Filter(part[..i], Loads(load));
        |rows| == |kept| && |clips| == |kept| &&
        forall j :: 0 <= j < |kept| ==>
          load(kept[j]).Some? &&
          rows[j] == MakeRow(kept[j]) &&
          clips[j] == PadOrTruncate(load(kept[j]).value, ClipSamples)
    {
      assert part[..i + 1][..i] == part[..i];
      match load(part[i]) {
        case Some(audio) =>
          var clip := PadOrTruncate(audio, ClipSamples);
          rows := rows + [MakeRow(part[i])];
          clips := clips + [clip];
        case None =>
          // the exception is reported and the record skipped
      }
    }
    assert part[..|part|] == part;
  }

  /** Split by fold, then process the training partition and the testing
      partition, each in corpus order. */
  method PrepareForEdgeImpulse(metadata: seq<CorpusRecord>, load: Loader, testFold: int := DefaultTestFold)
    returns (train: seq<SplitRow>, test: seq<SplitRow>,
             trainClips: seq<seq<real>>, testClips: seq<seq<real>>)
    ensures var kept := Filter(TrainRecords(metadata, testFold), Loads(load));
      |train| == |kept| && |trainClips| == |kept| &&
      forall j :: 0 <= j < |kept| ==>
        train[j] == MakeRow(kept[j]) &&
        trainClips[j] == PadOrTruncate(load(kept[j]).value, ClipSamples)
    ensures var kept := Filter(TestRecords(metadata, testFold), Loads(load));
      |test| == |kept| && |testClips| == |kept| &&
      forall j :: 0 <= j < |kept| ==>
        test[j] == MakeRow(kept[j]) &&
        testClips[j] == PadOrTruncate(load(kept[j]).value, ClipSamples)
    ensures forall j :: 0 <= j < |train| ==> train[j].originalFold != testFold
    ensures forall j :: 0 <= j < |test| ==> test[j].originalFold == testFold
    ensures |train| <= |TrainRecords(metadata, testFold)|
    ensures |test| <= |TestRecords(metadata, testFold)|
  {
    var trainData := TrainRecords(metadata, testFold);
    var testData := TestRecords(metadata, testFold);
    train, trainClips := EmitRows(trainData, load);
    test, testClips := EmitRows(testData, load);
    forall j | 0 <= j < |train| ensures train[j].originalFold != testFold {
      var kept := Filter(trainData, Loads(load));
      assert kept[j] in trainData;
    }
    forall j | 0 <= j < |test| ensures test[j].originalFold == testFold {
      var kept := Filter(testData, Loads(load));
      assert kept[j] in testData;
    }
  }

  /** The two parts together hold every record of the corpus exactly as
      often as the corpus does: nothing is lost and nothing duplicated. */
  lemma SplitCoversCorpus(metadata: seq<CorpusRecord>, testFold: int)
    ensures multiset(TrainRecords(metadata, testFold)) + multiset(TestRecords(metadata, testFold))
         == multiset(metadata)
  {
    FilterComplement(metadata, InTrain(testFold), InTest(testFold));
  }

  /** A record of the corpus is in the test part exactly when its fold is
      the test fold and in the training part exactly otherwise, so the parts
      share no record; each part keeps corpus order. */
  lemma SplitIsPartition(metadata: seq<CorpusRecord>, testFold: int)
    ensures forall r :: r in metadata ==>
      (r in TestRecords(metadata, testFold) <==> r.fold == testFold) &&
      (r in TrainRecords(metadata, testFold) <==> r.fold != testFold)
    ensures forall r :: r in TrainRecords(metadata, testFold) ==> r !in TestRecords(metadata, testFold)
    ensures IsSubsequence(TrainRecords(metadata, testFold), metadata)
    ensures IsSubsequence(TestRecords(metadata, testFold), metadata)
  {
    FilterIsSubsequence(metadata, InTrain(testFold));
    FilterIsSubsequence(metadata, InTest(testFold));
    forall r | r in metadata
      ensures (r in TestRecords(metadata, testFold) <==> r.fold == testFold) &&
              (r in TrainRecords(metadata, testFold) <==> r.fold != testFold)
    {
      FilterCount(metadata, InTest(testFold), r);
      FilterCount(metadata, InTrain(testFold), r);
    }
  }

  /** The skip policy: the records that get a row are those of the partition
      whose try block succeeds, each as often as in the partition, in order;
      a failing record gets none. There are never more rows than records,
      and exactly as many when every record loads. */
  lemma SkipPolicy(part: seq<CorpusRecord>, load: Loader)
    ensures IsSubsequence(Filter(part, Loads(load)), part)
    ensures forall r :: multiset(Filter(part, Loads(load)))[r] ==
                        if load(r).Some? then multiset(part)[r] else 0
    ensures |Filter(part, Loads(load))| <= |part|
    ensures |Filter(part, Loads(load))| == |part| <==>
      forall i :: 0 <= i < |part| ==> load(part[i]).Some?
  {
    FilterIsSubsequence(part, Loads(load));
    forall r ensures multiset(Filter(part, Loads(load)))[r] ==
      if load(r).Some? then multiset(part)[r] else 0
    {
      FilterCount(part, Loads(load), r);
    }
    FilterKeepsAll(part, Loads(load));
  }

  /** The output name carries the class label in front of the first '.',
      as tools that infer the class from the file name expect; the rest of
      the name is the original slice name. This needs a label without '.'. */
  lemma RowFilenameRoundTrip(r: CorpusRecord)
    requires '.' !in r.className
    ensures MakeRow(r).className == r.className && MakeRow(r).classID == r.classID
    ensures MakeRow(r).originalFold == r.fold && MakeRow(r).salience == r.salience
    ensures Split('.', MakeRow(r).filename)[0] == r.className
    ensures Join('.', Split('.', MakeRow(r).filename)[1..]) == r.sliceFileName
  {
    var f := MakeRow(r).filename;
    assert f == r.className + ['.'] + r.sliceFileName;
    SplitFirstPiece('.', r.className, r.sliceFileName);
    JoinSplit('.', r.sliceFileName);
    assert ([r.className] + Split('.', r.sliceFileName))[1..] == Split('.', r.sliceFileName);
  }

  /** Three records, fold 2 held out, every asset loads: two training rows
      (dog, car from fold 1) and one testing row (dog from fold 2). */
  lemma ThreeRecordScenario(load: Loader)
    requires forall r :: load(r).Some?
    ensures var dog1 := CorpusRecord("d1.wav", 1, 0.0, 4.0, 1, 1, 3, "dog_bark");
      var car1 := CorpusRecord("c1.wav", 2, 0.0, 4.0, 1, 1, 1, "car_horn");
      var dog2 := CorpusRecord("d2.wav", 3, 0.0, 4.0, 2, 2, 3, "dog_bark");
      var metadata := [dog1, car1, dog2];
      Filter(TrainRecords(metadata, 2), Loads(load)) == [dog1, car1] &&
      Filter(TestRecords(metadata, 2), Loads(load)) == [dog2]
  {
    var dog1 := CorpusRecord("d1.wav", 1, 0.0, 4.0, 1, 1, 3, "dog_bark");
    var car1 := CorpusRecord("c1.wav", 2, 0.0, 4.0, 1, 1, 1, "car_horn");
    var dog2 := CorpusRecord("d2.wav", 3, 0.0, 4.0, 2, 2, 3, "dog_bark");
    var metadata := [dog1, car1, dog2];
    FilterShort(dog1, car1, dog2, InTrain(2));
    FilterShort(dog1, car1, dog2, InTest(2));
    FilterShort(dog1, car1, dog2, Loads(load));
    FilterShort(dog2, car1, dog1, Loads(load));
  }

  /** The rows of that scenario are written as `dog_bark.d1.wav`,
      `car_horn.c1.wav` and `dog_bark.d2.wav`. */
  lemma ThreeRecordFilenames()
    ensures MakeRow(CorpusRecord("d1.wav", 1, 0.0, 4.0, 1, 1, 3, "dog_bark")).filename == "dog_bark.d1.wav"
    ensures MakeRow(CorpusRecord("c1.wav", 2, 0.0, 4.0, 1, 1, 1, "car_horn")).filename == "car_horn.c1.wav"
    ensures MakeRow(CorpusRecord("d2.wav", 3, 0.0, 4.0, 2, 2, 3, "dog_bark")).filename == "dog_bark.d2.wav"
  {
  }
}
