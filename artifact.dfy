/** The model artifact as the core sees it: an opaque Keras network that scores
    tensors, the per-epoch curves that fitting it produces, and the
    `training_metadata` record kept beside it. */
module Artifact {
  import opened Base

  /** A numpy array: its shape and its values in row-major order. */
  datatype Tensor = Tensor(shape: seq<nat>, values: seq<real>)

  /** The trained parameters of a network. They are opaque: what the core uses
      is how they score a batch (`score` gives one probability row per input,
      or None when the network raises, for instance on a shape mismatch) and
      the text of `model.summary()`. `generation` only tells weights apart. */
  datatype Weights = Weights(
    generation: nat,
    score: Tensor -> Option<seq<seq<real>>>,
    summary: string)

  /** The Keras model object. It is shared by reference, and `fit` updates its
      weights in place, so every holder of the reference sees the new weights. */
  class Network {
    var weights: Weights

    constructor (w: Weights)
      ensures weights == w
    {
      weights := w;
    }
  }

  /** `History.history` of a Keras fit: one value per completed epoch. */
  datatype EpochHistory = EpochHistory(
    loss: seq<real>,
    accuracy: seq<real>,
    valLoss: seq<real>,
    valAccuracy: seq<real>)

  /** What `model.fit` does: it either returns the trained weights with their
      curves, or raises. Keras updates the network's weights in place batch by
      batch, so a fit that raises part-way leaves the weights it had reached. */
  datatype FitOutcome =
    | Fitted(weights: Weights, history: EpochHistory)
    | FitFailed(message: string, reached: Weights)

  /** The keys that `train_model` writes into `training_metadata`. */
  datatype TrainingSummary = TrainingSummary(
    timestamp: string,
    epochsTrained: nat,
    finalTrainAccuracy: real,
    finalValAccuracy: real,
    finalTrainLoss: real,
    finalValLoss: real,
    batchSize: int,
    totalEpochsRequested: int)

  /** One entry of the 'retraining_history' list. */
  datatype RetrainEntry = RetrainEntry(
    timestamp: string,
    epochs: nat,
    finalAccuracy: real,
    finalValAccuracy: real)

  /** The `training_metadata` dict: the summary keys of the last `train_model`
      (absent until it ran) and the optional 'retraining_history' list. */
  datatype Metadata = Metadata(
    training: Option<TrainingSummary>,
    retrainingHistory: Option<seq<RetrainEntry>>)

  /** The empty dict `{}`. */
  const EmptyMetadata := Metadata(None, None)

  /** The summary `train_model` derives from a fit: the number of epochs is the
      number of loss values and every final value is the last of its curve;
      IndexError when a curve is empty. */
  function Summarize(h: EpochHistory, timestamp: string, batchSize: int, epochs: int): (r: Result<TrainingSummary>)
    ensures r.Ok? <==> h.loss != [] && h.accuracy != [] && h.valLoss != [] && h.valAccuracy != []
    ensures r.Ok? ==> (r.value.epochsTrained == |h.loss|
      && r.value.finalTrainAccuracy == h.accuracy[|h.accuracy| - 1]
      && r.value.finalValAccuracy == h.valAccuracy[|h.valAccuracy| - 1]
      && r.value.finalTrainLoss == h.loss[|h.loss| - 1]
      && r.value.finalValLoss == h.valLoss[|h.valLoss| - 1]
      && r.value.batchSize == batchSize && r.value.totalEpochsRequested == epochs
      && r.value.timestamp == timestamp)
  {
    match (Last(h.accuracy), Last(h.valAccuracy), Last(h.loss), Last(h.valLoss))
    case (Ok(acc), Ok(valAcc), Ok(loss), Ok(valLoss)) =>
      Ok(TrainingSummary(timestamp, |h.loss|, acc, valAcc, loss, valLoss, batchSize, epochs))
    case _ => Err(IndexError)
  }

  /** The entry `retrain_model` appends: the number of epochs is the number of
      loss values, the accuracies are the last of their curves. */
  function RetrainSummary(h: EpochHistory, timestamp: string): (r: Result<RetrainEntry>)
    ensures r.Ok? <==> h.accuracy != [] && h.valAccuracy != []
    ensures r.Ok? ==> (r.value.epochs == |h.loss|
      && r.value.finalAccuracy == h.accuracy[|h.accuracy| - 1]
      && r.value.finalValAccuracy == h.valAccuracy[|h.valAccuracy| - 1]
      && r.value.timestamp == timestamp)
  {
    match (Last(h.accuracy), Last(h.valAccuracy))
    case (Ok(acc), Ok(valAcc)) => Ok(RetrainEntry(timestamp, |h.loss|, acc, valAcc))
    case _ => Err(IndexError)
  }

  /** `training_metadata['retraining_history'] = get('retraining_history', [])`
      followed by `append(entry)`. */
  function AppendRetrain(m: Metadata, e: RetrainEntry): (r: Metadata)
    ensures r.training == m.training
    ensures r.retrainingHistory.Some?
    ensures |r.retrainingHistory.value| == |RetrainList(m)| + 1
    ensures r.retrainingHistory.value[..|RetrainList(m)|] == RetrainList(m)
    ensures r.retrainingHistory.value[|RetrainList(m)|] == e
  {
    Metadata(m.training, Some(RetrainList(m) + [e]))
  }

  /** The 'retraining_history' list, or `[]` when the key is absent. */
  function RetrainList(m: Metadata): seq<RetrainEntry> {
    match m.retrainingHistory
    case None => []
    case Some(l) => l
  }
}
