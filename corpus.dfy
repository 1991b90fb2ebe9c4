/** The rows of the corpus metadata table (one per audio slice) and the
    class set derived from it. */
module Corpus {
  import opened Wrappers
  import opened Seqs

  /** One row of the source metadata table. Read only. */
  datatype CorpusRecord = CorpusRecord(
    sliceFileName: string,
    fsID: int,
    start: real,
    end: real,
    salience: int,   // 1 = foreground, 2 = background
    fold: int,
    classID: int,
    className: string)

  /** Loading one record's audio (`load_audio`, then whatever else its
      caller's `try` block does): the samples, or None when that raises. It
      depends on the record only, since the asset path is built from its
      file name and fold. */
  type Loader = CorpusRecord -> Option<seq<real>>

  /** The `class` column, row by row. */
  function ClassColumn(metadata: seq<CorpusRecord>): (col: seq<string>)
    ensures |col| == |metadata|
    ensures forall i :: 0 <= i < |metadata| ==> col[i] == metadata[i].className
  {
    seq(|metadata|, i requires 0 <= i < |metadata| => metadata[i].className)
  }

  /** `metadata['class'].unique()`: every class of the corpus once, in order
      of first appearance. */
  function Classes(metadata: seq<CorpusRecord>): (classes: seq<string>)
    ensures Distinct(classes) && |classes| <= |metadata|
  {
    Unique(ClassColumn(metadata))
  }

  /** The class set holds no duplicate, and a label is in it exactly when
      some record carries it. */
  lemma ClassesExact(metadata: seq<CorpusRecord>)
    ensures Distinct(Classes(metadata))
    ensures |Classes(metadata)| <= |metadata|
    ensures forall i :: 0 <= i < |metadata| ==> metadata[i].className in Classes(metadata)
    ensures forall c :: c in Classes(metadata) ==>
      exists i :: 0 <= i < |metadata| && metadata[i].className == c
  {
  }
}
