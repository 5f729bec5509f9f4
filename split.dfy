/**
 * `AlignNN.init_data_dir` and the generators of `AlignNN.train_model`: the
 * shuffled pair ids are split 90 / 10 into training and validation ids, and
 * each part becomes three index-aligned filename lists.
 */
module DataSplit {
  import Generator

  /** Batch size of both generators. */
  const BatchSize: nat := 8

  /** Directory that holds one sub-directory per training pair. */
  const DataDirectory: string := "data/training/"

  /** The three files of a pair directory. */
  datatype FileKind = Features | Labels | Predictions

  function FileName(kind: FileKind): string {
    match kind
    case Features => "/features_0.npy"
    case Labels => "/labels_0.npy"
    case Predictions => "/pred_0.npy"
  }

  /** `'data/training/{}/<file>'.format(id)`. */
  function PathOf(id: string, kind: FileKind): (p: string)
    ensures |p| == |DataDirectory| + |id| + |FileName(kind)|
    ensures p[..|DataDirectory|] == DataDirectory && p[|p| - |FileName(kind)|..] == FileName(kind)
  {
    DataDirectory + id + FileName(kind)
  }

  /** The pair id a path of the given kind was built from. */
  function IdOf(p: string, kind: FileKind): string {
    if |p| < |DataDirectory| + |FileName(kind)| then "" else p[|DataDirectory|..|p| - |FileName(kind)|]
  }

  /** The id is recovered from the path. */
  lemma IdOfPath(id: string, kind: FileKind)
    ensures IdOf(PathOf(id, kind), kind) == id
  {
    var p := PathOf(id, kind);
    assert p[|DataDirectory|..|p| - |FileName(kind)|] == id;
  }

  /** Distinct ids give distinct paths of each kind. */
  lemma PathInjective(id1: string, id2: string, kind: FileKind)
    requires PathOf(id1, kind) == PathOf(id2, kind)
    ensures id1 == id2
  {
    IdOfPath(id1, kind);
    IdOfPath(id2, kind);
  }

  /** `[tmpl.format(x) for x in ids]`. */
  function Paths(ids: seq<string>, kind: FileKind): (r: seq<string>)
    ensures |r| == |ids| && forall i :: 0 <= i < |ids| ==> r[i] == PathOf(ids[i], kind)
  {
    seq(|ids|, i requires 0 <= i < |ids| => PathOf(ids[i], kind))
  }

  /** The i-th entries of the three filename lists all name the directory of the i-th id. */
  lemma PathsAligned(ids: seq<string>, i: nat)
    requires i < |ids|
    ensures IdOf(Paths(ids, Features)[i], Features) == ids[i]
    ensures IdOf(Paths(ids, Labels)[i], Labels) == ids[i]
    ensures IdOf(Paths(ids, Predictions)[i], Predictions) == ids[i]
  {
    IdOfPath(ids[i], Features);
    IdOfPath(ids[i], Labels);
    IdOfPath(ids[i], Predictions);
  }

  /**
   * `int(np.floor(0.9 * n))`, the number of training ids. The source names
   * this value `val_split`, although it is the size of the training part.
   */
  function TrainSize(n: nat): (r: nat)
    ensures 10 * r <= 9 * n < 10 * (r + 1)
    ensures r <= n
  {
    (9 * n) / 10
  }

  /** `ids[:val_split]` and `ids[val_split:]`. */
  function Split(ids: seq<string>): (r: (seq<string>, seq<string>))
    ensures |r.0| == TrainSize(|ids|)
    ensures r.0 == ids[..|r.0|] && r.1 == ids[|r.0|..]
  {
    var cut := TrainSize(|ids|);
    (ids[..cut], ids[cut..])
  }

  /** Training ids followed by validation ids give back the shuffled list. */
  lemma SplitPartition(ids: seq<string>)
    ensures Split(ids).0 + Split(ids).1 == ids
  {
    var r := Split(ids);
    assert ids == ids[..|r.0|] + ids[|r.0|..];
  }

  predicate NoDuplicates(ids: seq<string>) {
    forall i, j :: 0 <= i < j < |ids| ==> ids[i] != ids[j]
  }

  /** When the directory listing has no repeated name, no id is both a training and a validation id. */
  lemma SplitDisjoint(ids: seq<string>, id: string)
    requires NoDuplicates(ids)
    ensures !(id in Split(ids).0 && id in Split(ids).1)
  {
  }

  /** The filename lists that `init_data_dir` sets on the model. */
  class AlignNN {
    var trainFeatures: seq<string>
    var validationFeatures: seq<string>
    var trainLabels: seq<string>
    var validationLabels: seq<string>
    var trainPredictions: seq<string>
    var validationPredictions: seq<string>

    /**
     * `AlignNN.__init__` as far as the data goes: it ends by calling
     * `init_data_dir`, here on the shuffled listing `shuffledIds`.
     */
    constructor (shuffledIds: seq<string>)
      ensures trainFeatures == Paths(Split(shuffledIds).0, Features)
      ensures validationFeatures == Paths(Split(shuffledIds).1, Features)
      ensures trainLabels == Paths(Split(shuffledIds).0, Labels)
      ensures validationLabels == Paths(Split(shuffledIds).1, Labels)
      ensures trainPredictions == Paths(Split(shuffledIds).0, Predictions)
      ensures validationPredictions == Paths(Split(shuffledIds).1, Predictions)
      ensures Aligned()
    {
      new;
      InitDataDir(shuffledIds);
    }

    /** The i-th training files of the three kinds come from the same pair directory, and so do the validation files. */
    ghost predicate Aligned()
      reads this
    {
      && |trainLabels| == |trainFeatures| && |trainPredictions| == |trainFeatures|
      && |validationLabels| == |validationFeatures| && |validationPredictions| == |validationFeatures|
      && (forall i :: 0 <= i < |trainFeatures| ==>
            IdOf(trainFeatures[i], Features) == IdOf(trainLabels[i], Labels) == IdOf(trainPredictions[i], Predictions))
      && (forall i :: 0 <= i < |validationFeatures| ==>
            IdOf(validationFeatures[i], Features) == IdOf(validationLabels[i], Labels)
              == IdOf(validationPredictions[i], Predictions))
    }

    /**
     * `init_data_dir` after the directory listing and the shuffle, whose
     * result is `shuffledIds`.
     */
    method InitDataDir(shuffledIds: seq<string>)
      modifies this
      ensures trainFeatures == Paths(Split(shuffledIds).0, Features)
      ensures validationFeatures == Paths(Split(shuffledIds).1, Features)
      ensures trainLabels == Paths(Split(shuffledIds).0, Labels)
      ensures validationLabels == Paths(Split(shuffledIds).1, Labels)
      ensures trainPredictions == Paths(Split(shuffledIds).0, Predictions)
      ensures validationPredictions == Paths(Split(shuffledIds).1, Predictions)
      ensures Aligned()
    {
      var valSplit := TrainSize(|shuffledIds|);
      var valPairIds := shuffledIds[valSplit..];
      var trainPairIds := shuffledIds[..valSplit];
      trainFeatures := Paths(trainPairIds, Features);
      validationFeatures := Paths(valPairIds, Features);
      trainLabels := Paths(trainPairIds, Labels);
      validationLabels := Paths(valPairIds, Labels);
      trainPredictions := Paths(trainPairIds, Predictions);
      validationPredictions := Paths(valPairIds, Predictions);
      forall i | 0 <= i < |trainPairIds|
        ensures IdOf(trainFeatures[i], Features) == IdOf(trainLabels[i], Labels) == IdOf(trainPredictions[i], Predictions)
      {
        PathsAligned(trainPairIds, i);
      }
      forall i | 0 <= i < |valPairIds|
        ensures IdOf(validationFeatures[i], Features) == IdOf(validationLabels[i], Labels)
                  == IdOf(validationPredictions[i], Predictions)
      {
        PathsAligned(valPairIds, i);
      }
    }

    /** The two generators of `train_model`, both with batches of eight. */
    method MakeGenerators() returns (training: Generator.AlignGenerator, validation: Generator.AlignGenerator)
      ensures training.featureFilenames == trainFeatures && training.labelFilenames == trainLabels
      ensures training.predFilenames == trainPredictions && training.batchSize == BatchSize
      ensures validation.featureFilenames == validationFeatures && validation.labelFilenames == validationLabels
      ensures validation.predFilenames == validationPredictions && validation.batchSize == BatchSize
    {
      training := new Generator.AlignGenerator(trainFeatures, trainLabels, trainPredictions, BatchSize);
      validation := new Generator.AlignGenerator(validationFeatures, validationLabels, validationPredictions, BatchSize);
    }
  }

  /** The training generator has `ceil(0.9 n / 8)` batches, rounded as above, and every training file is in one of them. */
  lemma TrainingBatchesCoverIds(ids: seq<string>, g: Generator.AlignGenerator)
    requires g.featureFilenames == Paths(Split(ids).0, Features) && g.batchSize == BatchSize
    ensures g.Len() * BatchSize >= TrainSize(|ids|)
    ensures Generator.Concat(g.featureFilenames, BatchSize, g.Len()) == g.featureFilenames
  {
    Generator.WindowsCoverList(g.featureFilenames, BatchSize);
  }
}
