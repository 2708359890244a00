/** The model lifecycle: `ImageClassificationModel`, which owns the network and
    its training metadata, the files `save_model` writes and `load_model`
    reads back, the retraining threshold rule, and `load_latest_model`. */
module Lifecycle {
  import opened Base
  import opened Artifact
  import opened Storage
  import opened Scoring
  import opened Prediction

  const DefaultThreshold: real := 0.75
  const DefaultTrainEpochs: int := 15
  const DefaultRetrainEpochs: int := 20
  const DefaultBatchSize: int := 64
  const ModelName: string := "cifar10_cnn_model"
  const MetadataFile: string := "model_metadata.pkl"
  const HistoryFile: string := "training_history.pkl"

  // ------------------------------------------------------------ threshold

  /** `check_retraining_needed`. */
  function CheckRetrainingNeeded(currentAccuracy: real, threshold: real): bool {
    currentAccuracy < threshold
  }

  /** Retraining is needed strictly below the threshold: an accuracy equal to
      the threshold does not call for it, a lower accuracy needs it whenever a
      higher one does, and with the default threshold 0.75 is the first
      accuracy that does not need it. */
  lemma RetrainingThreshold(a: real, b: real, t: real)
    ensures !CheckRetrainingNeeded(t, t)
    ensures a <= b && CheckRetrainingNeeded(b, t) ==> CheckRetrainingNeeded(a, t)
    ensures a < b && !CheckRetrainingNeeded(a, t) ==> !CheckRetrainingNeeded(b, t)
    ensures CheckRetrainingNeeded(a, DefaultThreshold) <==> a < 0.75
  {
  }

  // ------------------------------------------------------------ file layout

  function H5Path(dir: string, name: string): string { Join(dir, name + ".h5") }
  function SavedModelPath(dir: string, name: string): string { Join(dir, name) }
  function MetadataPath(dir: string): string { Join(dir, MetadataFile) }
  function HistoryPath(dir: string): string { Join(dir, HistoryFile) }

  /** The disk after `save_model(dir, name)`: the HDF5 file, the SavedModel
      directory, the metadata pickle and, when there is one, the curve pickle,
      written in that order. */
  function SavedFiles(files: map<string, Stored>, dir: string, name: string, w: Weights,
                      inputShape: seq<nat>, numClasses: nat, meta: Metadata,
                      history: Option<EpochHistory>): map<string, Stored> {
    var written := files[H5Path(dir, name) := H5Model(w)][SavedModelPath(dir, name) := SavedModel(w)]
      [MetadataPath(dir) := MetadataPickle(inputShape, numClasses, Some(meta))];
    match history
    case None => written
    case Some(h) => written[HistoryPath(dir) := HistoryPickle(h)]
  }

  /** `save_model` writes exactly the model file, the SavedModel directory,
      the metadata pickle and, with curves, the curve pickle, the last one
      holding the curves; every other file is kept. */
  lemma SavedFilesSpec(files: map<string, Stored>, dir: string, name: string, w: Weights,
                       inputShape: seq<nat>, numClasses: nat, meta: Metadata, history: Option<EpochHistory>)
    ensures var r := SavedFiles(files, dir, name, w, inputShape, numClasses, meta, history);
      var written := {H5Path(dir, name), SavedModelPath(dir, name), MetadataPath(dir)};
      && (forall p :: p in r <==> p in files || p in written || (history.Some? && p == HistoryPath(dir)))
      && (forall p :: p in files && p !in written && p != HistoryPath(dir) ==> r[p] == files[p])
      && (history.Some? ==> r[HistoryPath(dir)] == HistoryPickle(history.value))
  {
  }

  /** The weights `keras.models.load_model` finds at a path, if it holds a model. */
  function LoadedWeights(s: Stored): Option<Weights> {
    match s
    case H5Model(w) => Some(w)
    case SavedModel(w) => Some(w)
    case _ => None
  }

  /** The directory `load_model` looks for the metadata in: the parent of a
      model file, or the SavedModel directory itself. */
  function ModelDirOf(files: map<string, Stored>, path: string): string {
    if path in files && !files[path].SavedModel? then Dirname(path) else path
  }

  /** The metadata after `load_model(path)`: unchanged when there is no
      metadata file, the pickled 'training_metadata' (`{}` when the key is
      missing) when there is one, and an unpickling error for anything else. */
  function MetadataAfterLoad(files: map<string, Stored>, path: string, current: Metadata): Result<Metadata> {
    var mp := MetadataPath(ModelDirOf(files, path));
    if mp !in files then Ok(current)
    else match files[mp]
      case MetadataPickle(_, _, tm) => Ok(if tm.Some? then tm.value else EmptyMetadata)
      case _ => Err(Raised("could not unpickle " + mp))
  }

  /** What `load_latest_model(dir)` ends with: the weights and metadata of the
      HDF5 file when it exists, else of the SavedModel directory when it
      exists, else FileNotFoundError. */
  function LatestModel(files: map<string, Stored>, dir: string): Result<(Weights, Metadata)> {
    var h5 := H5Path(dir, ModelName);
    var tf := SavedModelPath(dir, ModelName);
    if h5 in files then LoadFrom(files, h5)
    else if tf in files then LoadFrom(files, tf)
    else Err(FileNotFoundError("No model found in " + dir))
  }

  /** `load_model` on a fresh classifier, whose metadata is `{}`: the
      weights stored at the path with the metadata found beside them. */
  function LoadFrom(files: map<string, Stored>, path: string): Result<(Weights, Metadata)> {
    if path !in files || LoadedWeights(files[path]).None? then Err(OSError("cannot load a model from " + path))
    else match MetadataAfterLoad(files, path, EmptyMetadata)
      case Err(e) => Err(e)
      case Ok(m) => Ok((LoadedWeights(files[path]).value, m))
  }

  /** Loading succeeds exactly when the path holds a model and the metadata
      beside it can be read, and gives those weights and that metadata. */
  lemma LoadFromSpec(files: map<string, Stored>, path: string)
    ensures LoadFrom(files, path).Ok? <==>
      path in files && LoadedWeights(files[path]).Some? && MetadataAfterLoad(files, path, EmptyMetadata).Ok?
    ensures LoadFrom(files, path).Ok? ==>
      && Some(LoadFrom(files, path).value.0) == LoadedWeights(files[path])
      && LoadFrom(files, path).value.1 == MetadataAfterLoad(files, path, EmptyMetadata).value
  {
  }

  /** The HDF5 file wins over the SavedModel directory, and a directory with
      neither is reported as not found. */
  lemma LatestModelPrecedence(files: map<string, Stored>, dir: string)
    ensures H5Path(dir, ModelName) in files ==> LatestModel(files, dir) == LoadFrom(files, H5Path(dir, ModelName))
    ensures H5Path(dir, ModelName) !in files && SavedModelPath(dir, ModelName) in files ==>
      LatestModel(files, dir) == LoadFrom(files, SavedModelPath(dir, ModelName))
    ensures H5Path(dir, ModelName) !in files && SavedModelPath(dir, ModelName) !in files ==>
      LatestModel(files, dir) == Err(FileNotFoundError("No model found in " + dir))
    ensures LatestModel(files, dir).Err? && LatestModel(files, dir).error.FileNotFoundError? ==>
      H5Path(dir, ModelName) !in files && SavedModelPath(dir, ModelName) !in files
  {
  }

  /** Two different plain names joined to the same directory are different paths. */
  lemma JoinDistinct(dir: string, a: string, b: string)
    requires dir != [] && !EndsWith(dir, "/")
    requires a != [] && b != [] && a[0] != '/' && b[0] != '/'
    requires a != b
    ensures Join(dir, a) != Join(dir, b)
  {
    assert !StartsWith(a, "/") && !StartsWith(b, "/");
    var pa, pb := dir + "/" + a, dir + "/" + b;
    assert Join(dir, a) == pa && Join(dir, b) == pb;
    assert pa[|dir| + 1..] == a && pb[|dir| + 1..] == b;
  }

  lemma NoSlashesInFileNames()
    ensures '/' !in ModelName + ".h5" && '/' !in MetadataFile && '/' !in HistoryFile
  {
  }

  /** What `save_model(dir)` writes, `load_latest_model(dir)` reads back: the
      same weights and the same training metadata. */
  lemma SaveThenLoadLatest(files: map<string, Stored>, dir: string, w: Weights,
                           inputShape: seq<nat>, numClasses: nat, meta: Metadata, history: Option<EpochHistory>)
    requires dir != [] && !EndsWith(dir, "/")
    ensures LatestModel(SavedFiles(files, dir, ModelName, w, inputShape, numClasses, meta, history), dir) == Ok((w, meta))
  {
    var saved := SavedFiles(files, dir, ModelName, w, inputShape, numClasses, meta, history);
    var h5 := H5Path(dir, ModelName);
    NoSlashesInFileNames();
    JoinDistinct(dir, ModelName + ".h5", ModelName);
    JoinDistinct(dir, ModelName + ".h5", MetadataFile);
    JoinDistinct(dir, ModelName + ".h5", HistoryFile);
    JoinDistinct(dir, MetadataFile, HistoryFile);
    assert saved[h5] == H5Model(w);
    DirnameOfJoin(dir, ModelName + ".h5");
    assert ModelDirOf(saved, h5) == dir;
    assert saved[MetadataPath(dir)] == MetadataPickle(inputShape, numClasses, Some(meta));
  }

  // ------------------------------------------------------------ the classifier

  /** The metrics of `evaluate_model` that the model keeps: the accuracy of
      the arg-max predictions against the arg-max of the one-hot labels. */
  datatype ModelEvaluation = ModelEvaluation(accuracy: Option<real>, predicted: seq<nat>, actual: seq<nat>)

  /** `accuracy_score`: the fraction of positions where the two class lists
      agree, a number in [0, 1]; undefined for empty lists. */
  function Accuracy(pred: seq<nat>, truth: seq<nat>): (r: Option<real>)
    requires |pred| == |truth|
    ensures r.Some? <==> truth != []
    ensures r.Some? ==> 0.0 <= r.value <= 1.0
    ensures r.Some? ==> r.value * |truth| as real == CountCorrect(pred, truth) as real
  {
    if truth == [] then None
    else
      CountCorrectAtMostTotal(pred, truth);
      DivideBounds(CountCorrect(pred, truth) as real, |truth| as real, 0.0, 1.0);
      Some(CountCorrect(pred, truth) as real / |truth| as real)
  }

  /** `ImageClassificationModel`. `model` is the Keras model, or null before
      one is created or loaded; `history` is the curves of the last
      `train_model`. */
  class ImageClassificationModel {
    const inputShape: seq<nat>
    const numClasses: nat
    const disk: Disk
    var model: Network?
    var history: Option<EpochHistory>
    var trainingMetadata: Metadata

    constructor (inputShape: seq<nat>, numClasses: nat, disk: Disk)
      ensures this.inputShape == inputShape && this.numClasses == numClasses && this.disk == disk
      ensures model == null && history == None && trainingMetadata == EmptyMetadata
    {
      this.inputShape := inputShape;
      this.numClasses := numClasses;
      this.disk := disk;
      model := null;
      history := None;
      trainingMetadata := EmptyMetadata;
    }

    /** `create_cnn_model`: a fresh network with freshly initialised weights. */
    method CreateCnnModel(initial: Weights) returns (n: Network)
      modifies this
      ensures fresh(n) && model == n && n.weights == initial
      ensures history == old(history) && trainingMetadata == old(trainingMetadata)
    {
      n := new Network(initial);
      model := n;
    }

    /** `train_model`: creates the network when there is none, fits it in
        place, keeps the curves and replaces the whole metadata dict by the
        summary of the fit, which drops any 'retraining_history'. An empty
        curve raises IndexError after the curves are kept; a fit that raises
        leaves the network with the weights it reached and changes nothing
        else but the network's creation. */
    method TrainModel(initial: Weights, outcome: FitOutcome, timestamp: string, batchSize: int, epochs: int)
      returns (r: Result<EpochHistory>)
      modifies this, model
      ensures model != null
      ensures old(model) != null ==> model == old(model)
      ensures old(model) == null ==> fresh(model)
      ensures outcome.FitFailed? ==>
        && r == Err(Raised(outcome.message))
        && model.weights == outcome.reached
        && history == old(history) && trainingMetadata == old(trainingMetadata)
      ensures outcome.Fitted? ==>
        var s := Summarize(outcome.history, timestamp, batchSize, epochs);
        && model.weights == outcome.weights
        && history == Some(outcome.history)
        && (s.Ok? ==> r == Ok(outcome.history) && trainingMetadata == Metadata(Some(s.value), None))
        && (s.Err? ==> r == Err(s.error) && trainingMetadata == old(trainingMetadata))
    {
      if model == null {
        var _ := CreateCnnModel(initial);
      }
      match outcome
      case FitFailed(message, reached) =>
        model.weights := reached;
        return Err(Raised(message));
      case Fitted(w, h) =>
        model.weights := w;
        history := Some(h);
        var s := Summarize(h, timestamp, batchSize, epochs);
        if s.Err? {
          return Err(s.error);
        }
        trainingMetadata := Metadata(Some(s.value), None);
        r := Ok(h);
    }

    /** `retrain_model`: ValueError without a network; otherwise the same
        network is fitted further in place, so whoever shares it sees the new
        weights (or, when the fit raises, the weights reached so far), and exactly one entry is appended to 'retraining_history'
        (created when absent), the earlier entries kept in order. The curves
        of this fit are returned, not kept. */
    method RetrainModel(outcome: FitOutcome, timestamp: string) returns (r: Result<EpochHistory>)
      modifies this, model
      ensures model == old(model) && history == old(history)
      ensures old(model) == null ==>
        r == Err(ValueError("No model to retrain. Create a model first.")) && trainingMetadata == old(trainingMetadata)
      ensures old(model) != null && outcome.FitFailed? ==>
        r == Err(Raised(outcome.message)) && model.weights == outcome.reached && trainingMetadata == old(trainingMetadata)
      ensures old(model) != null && outcome.Fitted? ==>
        var e := RetrainSummary(outcome.history, timestamp);
        && model.weights == outcome.weights
        && (e.Ok? ==> r == Ok(outcome.history) && trainingMetadata == AppendRetrain(old(trainingMetadata), e.value))
        && (e.Err? ==> r == Err(e.error) && trainingMetadata == old(trainingMetadata))
    {
      if model == null {
        return Err(ValueError("No model to retrain. Create a model first."));
      }
      match outcome
      case FitFailed(message, reached) =>
        model.weights := reached;
        return Err(Raised(message));
      case Fitted(w, h) =>
        model.weights := w;
        var e := RetrainSummary(h, timestamp);
        if e.Err? {
          return Err(e.error);
        }
        trainingMetadata := AppendRetrain(trainingMetadata, e.value);
        r := Ok(h);
    }

    /** The guard and the accuracy of `evaluate_model`: ValueError without a
        network, what the network raises, an arg-max error for an empty row,
        and ValueError for label and prediction counts that differ. */
    function EvaluateModel(xTest: Tensor, yTest: seq<seq<real>>): (r: Result<ModelEvaluation>)
      reads this, model
      ensures model == null ==> r == Err(ValueError("No model to evaluate. Train a model first."))
      ensures r.Ok? ==> model != null && model.weights.score(xTest).Some?
      ensures r.Ok? ==> |r.value.predicted| == |r.value.actual| == |yTest|
      ensures r.Ok? ==> |model.weights.score(xTest).value| == |yTest|
      ensures r.Ok? ==> forall i :: 0 <= i < |yTest| ==>
        && yTest[i] != [] && model.weights.score(xTest).value[i] != []
        && r.value.actual[i] == ArgMax(yTest[i])
        && r.value.predicted[i] == ArgMax(model.weights.score(xTest).value[i])
      ensures r.Ok? ==> (r.value.accuracy.Some? <==> yTest != [])
      ensures r.Ok? ==> r.value.accuracy == Accuracy(r.value.predicted, r.value.actual)
    {
      if model == null then Err(ValueError("No model to evaluate. Train a model first."))
      else match model.weights.score(xTest)
        case None => Err(Raised("model.predict failed"))
        case Some(rows) =>
          match (PredictedClasses(rows), PredictedClasses(yTest))
          case (Ok(pred), Ok(truth)) =>
            if |pred| != |truth| then Err(ValueError("Found input variables with inconsistent numbers of samples"))
            else Ok(ModelEvaluation(Accuracy(pred, truth), pred, truth))
          case (Err(e), _) => Err(e)
          case (_, Err(e)) => Err(e)
    }

    /** `save_model`: ValueError without a network, FileNotFoundError for an
        empty directory name (`os.makedirs('')`), otherwise the four files of
        `SavedFiles`; only the disk changes. */
    method SaveModel(dir: string, name: string) returns (err: Option<Error>)
      modifies disk
      ensures model == null ==> err == Some(ValueError("No model to save. Train a model first.")) && disk.files == old(disk.files)
      ensures model != null && dir == "" ==> err.Some? && err.value.FileNotFoundError? && disk.files == old(disk.files)
      ensures model != null && dir != "" ==>
        && err == None
        && disk.files == SavedFiles(old(disk.files), dir, name, model.weights, inputShape, numClasses, trainingMetadata, history)
    {
      if model == null {
        return Some(ValueError("No model to save. Train a model first."));
      }
      if dir == "" {
        return Some(FileNotFoundError("No such file or directory: ''"));
      }
      disk.Write(H5Path(dir, name), H5Model(model.weights));
      disk.Write(SavedModelPath(dir, name), SavedModel(model.weights));
      disk.Write(MetadataPath(dir), MetadataPickle(inputShape, numClasses, Some(trainingMetadata)));
      if history.Some? {
        disk.Write(HistoryPath(dir), HistoryPickle(history.value));
      }
      err := None;
    }

    /** `load_model(path)`: a fresh network with the weights found at the
        path, or an error and no change when there is no model there. The
        metadata is then replaced only when a metadata file sits in the model's
        directory; an unreadable one raises after the network is replaced. */
    method LoadModel(path: string) returns (err: Option<Error>)
      modifies this
      ensures history == old(history)
      ensures path !in disk.files || LoadedWeights(disk.files[path]).None? ==>
        err == Some(OSError("cannot load a model from " + path)) && model == old(model)
        && trainingMetadata == old(trainingMetadata)
      ensures path in disk.files && LoadedWeights(disk.files[path]).Some? ==>
        var m := MetadataAfterLoad(disk.files, path, old(trainingMetadata));
        && model != null && fresh(model) && model.weights == LoadedWeights(disk.files[path]).value
        && (m.Ok? ==> err == None && trainingMetadata == m.value)
        && (m.Err? ==> err == Some(m.error) && trainingMetadata == old(trainingMetadata))
    {
      if path !in disk.files || LoadedWeights(disk.files[path]).None? {
        return Some(OSError("cannot load a model from " + path));
      }
      model := new Network(LoadedWeights(disk.files[path]).value);
      var m := MetadataAfterLoad(disk.files, path, trainingMetadata);
      if m.Err? {
        return Some(m.error);
      }
      trainingMetadata := m.value;
      err := None;
    }

    /** `get_model_summary`. */
    function GetModelSummary(): (s: string)
      reads this, model
      ensures model == null ==> s == "No model created yet."
      ensures model != null ==> s == model.weights.summary
    {
      if model == null then "No model created yet." else model.weights.summary
    }
  }

  /** `load_latest_model(dir)`: a new classifier loaded from the HDF5 file if
      it exists, else from the SavedModel directory if it exists, else
      FileNotFoundError; the disk is only read. */
  method LoadLatestModel(dir: string, disk: Disk) returns (r: Result<ImageClassificationModel>)
    ensures LatestModel(disk.files, dir).Err? <==> r.Err?
    ensures r.Err? ==> r.error == LatestModel(disk.files, dir).error
    ensures r.Ok? ==>
      && fresh(r.value) && r.value.disk == disk && r.value.model != null && fresh(r.value.model)
      && r.value.model.weights == LatestModel(disk.files, dir).value.0
      && r.value.trainingMetadata == LatestModel(disk.files, dir).value.1
      && r.value.history == None && r.value.inputShape == [32, 32, 3] && r.value.numClasses == 10
  {
    var classifier := new ImageClassificationModel([32, 32, 3], 10, disk);
    var h5 := H5Path(dir, ModelName);
    var path := SavedModelPath(dir, ModelName);
    if disk.Exists(h5) {
      path := h5;
    } else if !disk.Exists(path) {
      return Err(FileNotFoundError("No model found in " + dir));
    }
    var err := classifier.LoadModel(path);
    if err.Some? {
      return Err(err.value);
    }
    r := Ok(classifier);
  }
}
