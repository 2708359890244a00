/** The prediction engine: single, batch and top-k prediction over the opaque
    network, evaluation against true labels, statistics over the prediction
    history, and the persistence of that history in a JSON record file. */
module Prediction {
  import opened Base
  import opened Artifact
  import opened Records
  import opened Storage
  import opened Scoring
  import opened Preprocessing

  // ------------------------------------------------------------- one image

  /** `np.expand_dims(image, axis=0)` when the image has three dimensions. */
  function WithBatchAxis(t: Tensor): Tensor {
    if |t.shape| == 3 then Tensor([1] + t.shape, t.values) else t
  }

  predicate InUnitRange(vs: seq<real>) {
    forall i :: 0 <= i < |vs| ==> 0.0 <= vs[i] <= 1.0
  }

  /** `if image.max() > 1.0: image = image.astype('float32') / 255.0`: when
      any value exceeds 1 every value is divided by 255, otherwise the input
      is used as it is; `max` of an empty array raises ValueError. */
  function EnsureUnitRange(t: Tensor): (r: Result<Tensor>)
    ensures r.Ok? <==> t.values != []
    ensures r.Ok? ==> r.value.shape == t.shape && |r.value.values| == |t.values|
    ensures r.Ok? && (exists i :: 0 <= i < |t.values| && t.values[i] > 1.0) ==>
      forall i :: 0 <= i < |t.values| ==> r.value.values[i] == t.values[i] / 255.0
    ensures r.Ok? && (forall i :: 0 <= i < |t.values| ==> t.values[i] <= 1.0) ==> r.value == t
  {
    if t.values == [] then Err(ValueError("zero-size array to reduction operation maximum"))
    else if MaxOf(t.values) > 1.0 then
      Ok(Tensor(t.shape, seq(|t.values|, i requires 0 <= i < |t.values| => t.values[i] / 255.0)))
    else Ok(t)
  }

  /** For pixel values in [0, 255] the network sees values in [0, 1], and a
      second pass changes nothing. */
  lemma EnsureUnitRangeOfPixels(t: Tensor)
    requires t.values != []
    requires forall i :: 0 <= i < |t.values| ==> 0.0 <= t.values[i] <= 255.0
    ensures InUnitRange(EnsureUnitRange(t).value.values)
    ensures EnsureUnitRange(EnsureUnitRange(t).value) == EnsureUnitRange(t)
  {
    var r := EnsureUnitRange(t).value;
    if MaxOf(t.values) > 1.0 {
      assert InUnitRange(r.values);
    }
  }

  /** `predict_from_file` hands `predict_single_image` an image that
      `preprocess_single_image` has already normalised: it has its batch axis
      and is not divided by 255 a second time, so the network scores the
      normalised pixels as they are. */
  lemma PreprocessedImageScoredAsIs(w: Weights, img: Pixels)
    requires img.shape == InputShape && img.values != []
    ensures ScoredRow(w, PreprocessSingleImage(img).value) == FirstRow(w, PreprocessSingleImage(img).value)
    ensures PreprocessSingleImage(img).value.values == NormalizeImages(img).values
  {
    var t := PreprocessSingleImage(img).value;
    assert WithBatchAxis(t) == t;
    assert forall i :: 0 <= i < |t.values| ==> t.values[i] <= 1.0;
  }

  /** The first row the network gives for a batch: what the network raises,
      or IndexError when it gives no row. */
  function FirstRow(w: Weights, input: Tensor): Result<seq<real>> {
    match w.score(input)
    case None => Err(Raised("model.predict failed"))
    case Some(rows) => if rows == [] then Err(IndexError) else Ok(rows[0])
  }

  /** The probability row `predict_single_image` obtains for an image. */
  function ScoredRow(w: Weights, image: Tensor): Result<seq<real>> {
    match EnsureUnitRange(WithBatchAxis(image))
    case Err(e) => Err(e)
    case Ok(input) => FirstRow(w, input)
  }

  /** The dict `predict_single_image` returns. */
  datatype PredictionRecord = PredictionRecord(
    predictedClass: string,
    predictedIndex: nat,
    confidence: real,
    timeMs: real,
    timestamp: string,
    allProbabilities: Option<map<string, real>>)

  /** `predict_single_image` as a function of the weights, the image and the
      clock readings: the arg-max class of the scored row, its probability
      as the confidence, its name as the class, and the whole row under the
      class names when asked for. */
  function SinglePrediction(w: Weights, names: seq<string>, image: Tensor, withProbabilities: bool,
                            elapsedMs: real, timestamp: string): (r: Result<PredictionRecord>)
    ensures ScoredRow(w, image).Err? ==> r == Err(ScoredRow(w, image).error)
    ensures ScoredRow(w, image).Ok? ==> (
      var row := ScoredRow(w, image).value;
      && (r.Ok? <==> row != [] && ArgMax(row) < |names| && (withProbabilities ==> |names| <= |row|))
      && (r.Err? ==> r == Err(Classify(row, names, withProbabilities).error))
      && (r.Ok? ==>
        && r.value.predictedIndex < |row| && r.value.predictedIndex < |names|
        && r.value.confidence == row[r.value.predictedIndex]
        && (forall j :: 0 <= j < |row| ==> row[j] <= r.value.confidence)
        && (forall j :: 0 <= j < r.value.predictedIndex ==> row[j] < r.value.confidence)
        && r.value.predictedClass == names[r.value.predictedIndex]
        && (r.value.allProbabilities.Some? <==> withProbabilities)
        && (withProbabilities ==> r.value.allProbabilities.value.Keys == set n | n in names)
        && (withProbabilities ==> forall i :: 0 <= i < |names| && LastOccurrence(names, i) ==>
          r.value.allProbabilities.value[names[i]] == row[i])
        && r.value.timeMs == elapsedMs && r.value.timestamp == timestamp))
  {
    match ScoredRow(w, image)
    case Err(e) => Err(e)
    case Ok(row) =>
      ClassifySpec(row, names, withProbabilities);
      match Classify(row, names, withProbabilities)
      case Err(e) => Err(e)
      case Ok(c) => Ok(PredictionRecord(c.className, c.index, c.confidence, elapsedMs, timestamp, c.probabilities))
  }

  // ------------------------------------------------- records as dicts

  const RecordKeys: set<string> :=
    {"predicted_class", "predicted_class_index", "confidence", "prediction_time_ms", "timestamp"}

  /** The `all_probabilities` field: a dict of floats, which json.dump can write. */
  function ProbabilitiesValue(m: map<string, real>): (v: Value)
    ensures Serializable(v)
    ensures v.Dict? && v.entries.Keys == m.Keys && forall k :: k in m ==> v.entries[k] == Float(m[k])
  {
    var d := map k | k in m :: Float(m[k]);
    assert forall k :: k in d ==> Serializable(d[k]);
    Dict(d)
  }

  /** The record as the dict stored in the history. */
  function ToEntry(r: PredictionRecord): (e: Entry)
    ensures SerializableEntry(e)
    ensures e.Keys == RecordKeys + (if r.allProbabilities.Some? then {"all_probabilities"} else {})
  {
    var e := map[
      "predicted_class" := Str(r.predictedClass),
      "predicted_class_index" := Int(r.predictedIndex),
      "confidence" := Float(r.confidence),
      "prediction_time_ms" := Float(r.timeMs),
      "timestamp" := Str(r.timestamp)];
    match r.allProbabilities
    case None => e
    case Some(m) => e["all_probabilities" := ProbabilitiesValue(m)]
  }

  function ProbabilitiesFrom(v: Value): Option<map<string, real>> {
    if v.Dict? && forall k :: k in v.entries ==> v.entries[k].Float? then
      Some(map k | k in v.entries :: v.entries[k].x)
    else None
  }

  /** Reading a record back out of a dict, for instance one loaded from JSON. */
  function FromEntry(e: Entry): Option<PredictionRecord> {
    if && "predicted_class" in e && e["predicted_class"].Str?
       && "predicted_class_index" in e && e["predicted_class_index"].Int? && e["predicted_class_index"].i >= 0
       && "confidence" in e && e["confidence"].Float?
       && "prediction_time_ms" in e && e["prediction_time_ms"].Float?
       && "timestamp" in e && e["timestamp"].Str?
    then
      var rec := PredictionRecord(e["predicted_class"].s, e["predicted_class_index"].i,
        e["confidence"].x, e["prediction_time_ms"].x, e["timestamp"].s, None);
      if "all_probabilities" !in e then Some(rec)
      else match ProbabilitiesFrom(e["all_probabilities"])
        case None => None
        case Some(m) => Some(rec.(allProbabilities := Some(m)))
    else None
  }

  /** The extra keys `predict_from_file` writes into the returned dict, which
      is the very dict the history holds. */
  function WithFile(e: Entry, path: string): (r: Entry)
    ensures SerializableEntry(e) ==> SerializableEntry(r)
    ensures r.Keys == e.Keys + {"file_path", "file_name"}
  {
    e["file_path" := Str(path)]["file_name" := Str(Basename(path))]
  }

  /** The fields the record's dict holds. */
  lemma ToEntryFields(r: PredictionRecord)
    ensures ToEntry(r)["predicted_class"] == Str(r.predictedClass)
    ensures ToEntry(r)["predicted_class_index"] == Int(r.predictedIndex)
    ensures ToEntry(r)["confidence"] == Float(r.confidence)
    ensures ToEntry(r)["prediction_time_ms"] == Float(r.timeMs)
    ensures ToEntry(r)["timestamp"] == Str(r.timestamp)
    ensures "all_probabilities" in ToEntry(r) <==> r.allProbabilities.Some?
    ensures r.allProbabilities.Some? ==>
      ToEntry(r)["all_probabilities"] == ProbabilitiesValue(r.allProbabilities.value)
  {
  }

  /** Reading a dict looks only at the record keys and `all_probabilities`. */
  lemma FromEntryIgnoresOtherKeys(e: Entry, k: string, v: Value)
    requires k !in RecordKeys && k != "all_probabilities"
    ensures FromEntry(e[k := v]) == FromEntry(e)
  {
    var e2 := e[k := v];
    assert forall j :: j in RecordKeys || j == "all_probabilities" ==> (j in e2 <==> j in e) && (j in e ==> e2[j] == e[j]);
  }

  /** A record survives being written as a dict and read back, with or without
      the file keys. */
  lemma EntryRoundTrip(r: PredictionRecord, path: string)
    ensures FromEntry(ToEntry(r)) == Some(r)
    ensures FromEntry(WithFile(ToEntry(r), path)) == Some(r)
  {
    ToEntryFields(r);
    if r.allProbabilities.Some? {
      ProbabilitiesRoundTrip(r.allProbabilities.value);
    }
    assert FromEntry(ToEntry(r)) == Some(r);
    var e1 := ToEntry(r)["file_path" := Str(path)];
    FromEntryIgnoresOtherKeys(ToEntry(r), "file_path", Str(path));
    FromEntryIgnoresOtherKeys(e1, "file_name", Str(Basename(path)));
  }

  lemma ProbabilitiesRoundTrip(m: map<string, real>)
    ensures ProbabilitiesFrom(ProbabilitiesValue(m)) == Some(m)
  {
    var v := ProbabilitiesValue(m);
    assert (map k | k in v.entries :: v.entries[k].x) == m;
  }

  /** `predict_from_file` as a function: ValueError without a preprocessor,
      the loading error, the prediction error, or the record (with
      probabilities) with the file keys added. */
  function FilePrediction(w: Weights, names: seq<string>, hasPreprocessor: bool, path: string,
                          decoded: Result<Pixels>, elapsedMs: real, timestamp: string): Result<Entry> {
    if !hasPreprocessor then Err(ValueError("Preprocessor is required for file predictions"))
    else
      match LoadAndPreprocessUploadedImage(decoded)
      case Err(e) => Err(e)
      case Ok(image) =>
        match SinglePrediction(w, names, image, true, elapsedMs, timestamp)
        case Err(e) => Err(e)
        case Ok(rec) => Ok(WithFile(ToEntry(rec), path))
  }

  /** A file prediction is the single-image prediction of the loaded image,
      readable back as that record, with the record keys, the probability
      table, the path and the path's last component. */
  lemma FilePredictionSpec(w: Weights, names: seq<string>, path: string, decoded: Result<Pixels>,
                           elapsedMs: real, timestamp: string)
    ensures FilePrediction(w, names, false, path, decoded, elapsedMs, timestamp).Err?
    ensures FilePrediction(w, names, true, path, decoded, elapsedMs, timestamp).Ok? <==>
      LoadAndPreprocessUploadedImage(decoded).Ok? &&
      SinglePrediction(w, names, LoadAndPreprocessUploadedImage(decoded).value, true, elapsedMs, timestamp).Ok?
    ensures FilePrediction(w, names, true, path, decoded, elapsedMs, timestamp).Ok? ==> (
      var e := FilePrediction(w, names, true, path, decoded, elapsedMs, timestamp).value;
      var rec := SinglePrediction(w, names, LoadAndPreprocessUploadedImage(decoded).value, true, elapsedMs, timestamp).value;
      && FromEntry(e) == Some(rec)
      && e.Keys == RecordKeys + {"all_probabilities", "file_path", "file_name"}
      && e["file_path"] == Str(path) && e["file_name"] == Str(Basename(path))
      && SerializableEntry(e))
  {
    var f := FilePrediction(w, names, true, path, decoded, elapsedMs, timestamp);
    if f.Ok? {
      var rec := SinglePrediction(w, names, LoadAndPreprocessUploadedImage(decoded).value, true, elapsedMs, timestamp).value;
      EntryRoundTrip(rec, path);
    }
  }

  // ------------------------------------------------------------------ batch

  /** One element of the 'predictions' list of `predict_batch`. */
  datatype BatchItem = BatchItem(
    imageIndex: nat,
    predictedClass: string,
    predictedIndex: nat,
    confidence: real,
    allProbabilities: map<string, real>)

  /** The dict `predict_batch` returns. */
  datatype BatchInfo = BatchInfo(
    totalImages: nat,
    totalTimeMs: real,
    avgTimePerImageMs: real,
    timestamp: string,
    predictions: seq<BatchItem>)

  function ItemOf(i: nat, c: Classification): BatchItem {
    BatchItem(i, c.className, c.index, c.confidence,
      if c.probabilities.Some? then c.probabilities.value else map[])
  }

  /** The results for the rows in order, or the error of the first row that fails. */
  function BatchItems(rows: seq<seq<real>>, names: seq<string>): Result<seq<BatchItem>> {
    if rows == [] then Ok([])
    else
      match BatchItems(rows[..|rows| - 1], names)
      case Err(e) => Err(e)
      case Ok(items) =>
        match Classify(rows[|rows| - 1], names, true)
        case Err(e) => Err(e)
        case Ok(c) => Ok(items + [ItemOf(|rows| - 1, c)])
  }

  /** One more row extends the results by its item, or fails with its error. */
  lemma BatchItemsSnoc(rows: seq<seq<real>>, names: seq<string>, i: nat, items: seq<BatchItem>)
    requires i < |rows| && BatchItems(rows[..i], names) == Ok(items)
    ensures BatchItems(rows[..i + 1], names) ==
      match Classify(rows[i], names, true)
      case Err(e) => Err(e)
      case Ok(c) => Ok(items + [ItemOf(i, c)])
  {
    assert rows[..i + 1][..i] == rows[..i];
  }

  /** The batch succeeds exactly when every row can be classified. */
  lemma BatchItemsOkIff(rows: seq<seq<real>>, names: seq<string>)
    ensures BatchItems(rows, names).Ok? <==> forall i :: 0 <= i < |rows| ==> Classify(rows[i], names, true).Ok?
  {
    if BatchItems(rows, names).Ok? {
      forall i | 0 <= i < |rows| ensures Classify(rows[i], names, true).Ok? {
        BatchOkRowOk(rows, names, i);
      }
    }
    if forall i :: 0 <= i < |rows| ==> Classify(rows[i], names, true).Ok? {
      RowsOkBatchOk(rows, names);
    }
  }

  /** In a successful batch, row `i` was classified. */
  lemma {:induction false} BatchOkRowOk(rows: seq<seq<real>>, names: seq<string>, i: nat)
    requires BatchItems(rows, names).Ok? && i < |rows|
    ensures Classify(rows[i], names, true).Ok?
  {
    var init := rows[..|rows| - 1];
    if i < |init| {
      assert BatchItems(init, names).Ok?;
      BatchOkRowOk(init, names, i);
      assert init[i] == rows[i];
    }
  }

  lemma {:induction false} RowsOkBatchOk(rows: seq<seq<real>>, names: seq<string>)
    requires forall i :: 0 <= i < |rows| ==> Classify(rows[i], names, true).Ok?
    ensures BatchItems(rows, names).Ok?
  {
    if rows != [] {
      var init := rows[..|rows| - 1];
      assert forall i :: 0 <= i < |init| ==> init[i] == rows[i];
      RowsOkBatchOk(init, names);
      assert Classify(rows[|rows| - 1], names, true).Ok?;
    }
  }

  /** One result per row, the i-th with `image_index` i and the arg-max class
      of row i. */
  lemma {:induction false} BatchItemsSpec(rows: seq<seq<real>>, names: seq<string>)
    requires BatchItems(rows, names).Ok?
    ensures |BatchItems(rows, names).value| == |rows|
    ensures forall i :: 0 <= i < |rows| ==>
      && Classify(rows[i], names, true).Ok?
      && BatchItems(rows, names).value[i] == ItemOf(i, Classify(rows[i], names, true).value)
      && BatchItems(rows, names).value[i].imageIndex == i
  {
    if rows != [] {
      var init := rows[..|rows| - 1];
      BatchItemsSpec(init, names);
      var items := BatchItems(init, names).value;
      var all := BatchItems(rows, names).value;
      assert all == items + [ItemOf(|rows| - 1, Classify(rows[|rows| - 1], names, true).value)];
      forall i | 0 <= i < |init|
        ensures Classify(rows[i], names, true).Ok? && all[i] == ItemOf(i, Classify(rows[i], names, true).value)
      {
        assert rows[i] == init[i];
        assert all[i] == items[i];
      }
    }
  }

  /** A failed batch reports the error of the first row that cannot be classified. */
  lemma {:induction false} BatchItemsFirstError(rows: seq<seq<real>>, names: seq<string>)
    requires BatchItems(rows, names).Err?
    ensures exists j ::
      0 <= j < |rows| && FirstFailure(rows, names, j) && BatchItems(rows, names).error == Classify(rows[j], names, true).error
  {
    var init := rows[..|rows| - 1];
    assert forall i :: 0 <= i < |init| ==> rows[i] == init[i];
    if BatchItems(init, names).Err? {
      BatchItemsFirstError(init, names);
      var j :| 0 <= j < |init| && FirstFailure(init, names, j)
        && BatchItems(init, names).error == Classify(init[j], names, true).error;
      assert FirstFailure(rows, names, j);
    } else {
      BatchItemsOkIff(init, names);
      assert FirstFailure(rows, names, |rows| - 1);
    }
  }

  /** Row `j` is the first that cannot be classified. */
  predicate FirstFailure(rows: seq<seq<real>>, names: seq<string>, j: nat)
    requires j < |rows|
  {
    Classify(rows[j], names, true).Err? && forall i :: 0 <= i < j ==> Classify(rows[i], names, true).Ok?
  }

  // -------------------------------------------------------------------- top-k

  /** One element of the list `get_top_k_predictions` returns. */
  datatype TopEntry = TopEntry(className: string, classIndex: nat, probability: real)

  /** The top-k entries of one probability row, one per index of
      `TopKIndices`: IndexError when a selected index has no class name. */
  function TopK(row: seq<real>, names: seq<string>, k: int): (r: Result<seq<TopEntry>>)
    ensures r.Ok? <==> forall a :: 0 <= a < |TopKIndices(row, k)| ==> TopKIndices(row, k)[a] < |names|
    ensures r.Err? ==> r.error == IndexError
    ensures r.Ok? ==> |r.value| == |TopKIndices(row, k)| && forall a :: 0 <= a < |r.value| ==>
      var x := TopKIndices(row, k)[a]; x < |names| && r.value[a] == TopEntry(names[x], x, row[x])
  {
    var idx := TopKIndices(row, k);
    if forall a :: 0 <= a < |idx| ==> idx[a] < |names| then
      Ok(seq(|idx|, a requires 0 <= a < |idx| => TopEntry(names[idx[a]], idx[a], row[idx[a]])))
    else Err(IndexError)
  }

  /** With a name for every probability the ranking always succeeds. It holds
      min(k, n) entries for k >= 1 and all n for k == 0, with distinct class
      indices, each with its own name and probability, by non-increasing
      probability, and no class left out is more probable than one listed. */
  lemma TopKSpec(row: seq<real>, names: seq<string>, k: int)
    ensures |row| <= |names| ==> TopK(row, names, k).Ok?
    ensures TopK(row, names, k).Ok? ==> (
      var r := TopK(row, names, k).value;
      && (k >= 1 ==> |r| == if k <= |row| then k else |row|)
      && (k == 0 ==> |r| == |row|)
      && (forall a :: 0 <= a < |r| ==>
        && r[a].classIndex < |row| && r[a].classIndex < |names|
        && r[a].className == names[r[a].classIndex]
        && r[a].probability == row[r[a].classIndex])
      && (forall a, b :: 0 <= a < b < |r| ==> r[a].classIndex != r[b].classIndex)
      && (forall a, b :: 0 <= a < b < |r| ==> r[a].probability >= r[b].probability)
      && (forall x, a :: 0 <= x < |row| && 0 <= a < |r| && (forall b :: 0 <= b < |r| ==> r[b].classIndex != x) ==>
        row[x] <= r[a].probability))
  {
    TopKIndicesSpec(row, k);
    var idx := TopKIndices(row, k);
    if TopK(row, names, k).Ok? {
      var r := TopK(row, names, k).value;
      forall a | 0 <= a < |r|
        ensures r[a].classIndex == idx[a] && r[a].probability == row[idx[a]]
      {
      }
      forall a, b | 0 <= a < b < |r|
        ensures r[a].classIndex != r[b].classIndex && r[a].probability >= r[b].probability
      {
        assert idx[a] != idx[b];
      }
      forall x, a | 0 <= x < |row| && 0 <= a < |r| && (forall b :: 0 <= b < |r| ==> r[b].classIndex != x)
        ensures row[x] <= r[a].probability
      {
        assert x !in idx;
      }
    }
  }

  // ------------------------------------------------------------- evaluation

  /** `np.argmax(predictions, axis=1)`: ValueError when the rows are empty. */
  function PredictedClasses(rows: seq<seq<real>>): (r: Result<seq<nat>>)
    ensures r.Ok? <==> forall i :: 0 <= i < |rows| ==> rows[i] != []
    ensures r.Ok? ==> |r.value| == |rows| && forall i :: 0 <= i < |rows| ==> r.value[i] == ArgMax(rows[i])
  {
    var fail: Result<seq<nat>> := Err(ValueError("attempt to get argmax of an empty sequence"));
    if forall i :: 0 <= i < |rows| ==> rows[i] != [] then
      Ok(seq(|rows|, i requires 0 <= i < |rows| => ArgMax(rows[i])))
    else fail
  }

  /** `np.sum(predicted == labels)`. */
  function CountCorrect(pred: seq<nat>, labels: seq<int>): nat
    requires |pred| == |labels|
  {
    if pred == [] then 0
    else (CountCorrect(pred[..|pred| - 1], labels[..|labels| - 1])
      + if pred[|pred| - 1] == labels[|labels| - 1] then 1 else 0)
  }

  /** `np.sum((predicted == c) & (labels == c))`. */
  function CountCorrectOf(pred: seq<nat>, labels: seq<int>, c: int): nat
    requires |pred| == |labels|
  {
    if pred == [] then 0
    else (CountCorrectOf(pred[..|pred| - 1], labels[..|labels| - 1], c)
      + if pred[|pred| - 1] == c && labels[|labels| - 1] == c then 1 else 0)
  }

  /** The lengths numpy can compare element-wise: equal ones, or a side of
      length 1, which is repeated against the other. */
  predicate Broadcastable(n: nat, m: nat) {
    n == m || n == 1 || m == 1
  }

  /** No label is repeated by the broadcast: each prediction meets the label
      of its own position, or one prediction meets every label. */
  predicate LabelsKept(n: nat, m: nat) {
    n == m || n == 1
  }

  /** numpy's broadcast of the predicted classes against the labels: the
      pairs an element-wise `==` compares, or None for the ValueError of
      lengths that do not broadcast. */
  function Broadcast(pred: seq<nat>, labels: seq<int>): (r: Option<(seq<nat>, seq<int>)>)
    ensures r.Some? <==> Broadcastable(|pred|, |labels|)
    ensures r.Some? ==> |r.value.0| == |r.value.1|
  {
    if |pred| == |labels| then Some((pred, labels))
    else if |pred| == 1 then Some((seq(|labels|, _ => pred[0]), labels))
    else if |labels| == 1 then Some((pred, seq(|pred|, _ => labels[0])))
    else None
  }

  /** The broadcast pairs position k of the result with position k of each
      side, or with the only element of a side of length 1; its length is the
      other side's when the predictions have length 1. While the labels are
      kept they are paired as they are. */
  lemma BroadcastSpec(pred: seq<nat>, labels: seq<int>)
    requires Broadcastable(|pred|, |labels|)
    ensures var b := Broadcast(pred, labels).value;
      && |b.0| == (if |pred| == 1 then |labels| else |pred|)
      && (forall k :: 0 <= k < |b.0| ==> b.0[k] == pred[if |pred| == 1 then 0 else k])
      && (forall k :: 0 <= k < |b.1| ==> b.1[k] == labels[if |labels| == 1 then 0 else k])
      && (LabelsKept(|pred|, |labels|) ==> b.1 == labels)
  {
  }

  /** The per-class accuracy of class `c`: the hits of class `c` among the
      broadcast pairs over the number of labels `c`, or 0.0 when no label is `c`. */
  function ClassAccuracy(pred: seq<nat>, labels: seq<int>, c: int): real
    requires Broadcastable(|pred|, |labels|)
  {
    var b := Broadcast(pred, labels).value;
    var total := Count(labels, c);
    if total > 0 then CountCorrectOf(b.0, b.1, c) as real / total as real else 0.0
  }

  lemma {:induction false} CountCorrectAtMostTotal(pred: seq<nat>, labels: seq<int>)
    requires |pred| == |labels|
    ensures CountCorrect(pred, labels) <= |labels|
  {
    if pred != [] {
      CountCorrectAtMostTotal(pred[..|pred| - 1], labels[..|labels| - 1]);
    }
  }

  lemma {:induction false} CountCorrectOfAtMostCount(pred: seq<nat>, labels: seq<int>, c: int)
    requires |pred| == |labels|
    ensures CountCorrectOf(pred, labels, c) <= Count(labels, c)
  {
    if pred != [] {
      CountCorrectOfAtMostCount(pred[..|pred| - 1], labels[..|labels| - 1], c);
    }
  }

  /** While no label is repeated, a per-class accuracy is a fraction: it lies
      in [0, 1]. */
  lemma ClassAccuracyInUnitRange(pred: seq<nat>, labels: seq<int>, c: int)
    requires LabelsKept(|pred|, |labels|)
    ensures 0.0 <= ClassAccuracy(pred, labels, c) <= 1.0
  {
    var b := Broadcast(pred, labels).value;
    BroadcastSpec(pred, labels);
    CountCorrectOfAtMostCount(b.0, b.1, c);
    var t := Count(labels, c);
    if t > 0 {
      DivideBounds(CountCorrectOf(b.0, b.1, c) as real, t as real, 0.0, 1.0);
    }
  }

  /** The correct predictions of the classes 0 .. n-1, added up. */
  function SumCorrectOf(pred: seq<nat>, labels: seq<int>, n: nat): nat
    requires |pred| == |labels|
  {
    if n == 0 then 0 else SumCorrectOf(pred, labels, n - 1) + CountCorrectOf(pred, labels, n - 1)
  }

  lemma {:induction false} SumCorrectOfEmpty(n: nat)
    ensures SumCorrectOf([], [], n) == 0
  {
    if n > 0 {
      SumCorrectOfEmpty(n - 1);
    }
  }

  lemma {:induction false} SumCorrectOfSnoc(pred: seq<nat>, labels: seq<int>, p: nat, l: int, n: nat)
    requires |pred| == |labels|
    ensures SumCorrectOf(pred + [p], labels + [l], n) ==
      SumCorrectOf(pred, labels, n) + (if p == l && 0 <= l < n then 1 else 0)
  {
    if n > 0 {
      SumCorrectOfSnoc(pred, labels, p, l, n - 1);
      assert (pred + [p])[..|pred|] == pred;
      assert (labels + [l])[..|labels|] == labels;
    }
  }

  /** With every label a class in [0, n), the per-class correct counts add up
      to the overall correct count. */
  lemma {:induction false} CorrectIsSumOverClasses(pred: seq<nat>, labels: seq<int>, n: nat)
    requires |pred| == |labels|
    requires forall i :: 0 <= i < |labels| ==> 0 <= labels[i] < n
    ensures SumCorrectOf(pred, labels, n) == CountCorrect(pred, labels)
  {
    if pred == [] {
      SumCorrectOfEmpty(n);
    } else {
      var p0, l0 := pred[..|pred| - 1], labels[..|labels| - 1];
      CorrectIsSumOverClasses(p0, l0, n);
      assert pred == p0 + [pred[|pred| - 1]];
      assert labels == l0 + [labels[|labels| - 1]];
      SumCorrectOfSnoc(p0, l0, pred[|pred| - 1], labels[|labels| - 1], n);
    }
  }

  /** The dict `evaluate_predictions` returns; an accuracy of None is the NaN
      of 0 / 0 on an empty label array. */
  datatype Evaluation = Evaluation(
    accuracy: Option<real>,
    correctPredictions: nat,
    totalPredictions: nat,
    perClassAccuracy: map<string, real>)

  /** The `per_class_accuracy` dict built over `names` in order: a later
      duplicate name overwrites an earlier one. */
  function PerClassAccuracies(pred: seq<nat>, labels: seq<int>, names: seq<string>): map<string, real>
    requires Broadcastable(|pred|, |labels|)
  {
    if names == [] then map[]
    else PerClassAccuracies(pred, labels, names[..|names| - 1])[names[|names| - 1] := ClassAccuracy(pred, labels, |names| - 1)]
  }

  /** One accuracy per class name, that of the name's last position, and,
      while no label is repeated, each a fraction. */
  lemma {:induction false} PerClassAccuraciesSpec(pred: seq<nat>, labels: seq<int>, names: seq<string>)
    requires Broadcastable(|pred|, |labels|)
    ensures PerClassAccuracies(pred, labels, names).Keys == set n | n in names
    ensures forall c :: 0 <= c < |names| && LastOccurrence(names, c) ==>
      PerClassAccuracies(pred, labels, names)[names[c]] == ClassAccuracy(pred, labels, c)
    ensures LabelsKept(|pred|, |labels|) ==> forall k :: k in PerClassAccuracies(pred, labels, names) ==>
      0.0 <= PerClassAccuracies(pred, labels, names)[k] <= 1.0
  {
    if names != [] {
      var init := names[..|names| - 1];
      PerClassAccuraciesSpec(pred, labels, init);
      if LabelsKept(|pred|, |labels|) {
        ClassAccuracyInUnitRange(pred, labels, |names| - 1);
      }
      SnocMembers(names);
      LastOccurrenceOfPrefix(names);
    }
  }

  /** `evaluate_predictions` for the network's scores of the images: what the
      network raises, the arg-max error of an empty row, numpy's ValueError
      when the predictions and the labels do not broadcast, or the metrics of
      the broadcast pairs. */
  function EvaluationOf(scores: Option<seq<seq<real>>>, labels: seq<int>, names: seq<string>): Result<Evaluation> {
    match scores
    case None => Err(Raised("model.predict failed"))
    case Some(rows) =>
      match PredictedClasses(rows)
      case Err(e) => Err(e)
      case Ok(pred) =>
        match Broadcast(pred, labels)
        case None => Err(ValueError("operands could not be broadcast together"))
        case Some(b) =>
          var correct := CountCorrect(b.0, b.1);
          Ok(Evaluation(
            if |labels| > 0 then Some(correct as real / |labels| as real) else None,
            correct, |labels|, PerClassAccuracies(pred, labels, names)))
  }

  /** The evaluation succeeds exactly when the network scores the images, no
      row is empty and there is one row per label, or one row, or one label. */
  lemma EvaluationOkIff(scores: Option<seq<seq<real>>>, labels: seq<int>, names: seq<string>)
    ensures EvaluationOf(scores, labels, names).Ok? <==>
      && scores.Some? && (forall i :: 0 <= i < |scores.value| ==> scores.value[i] != [])
      && Broadcastable(|scores.value|, |labels|)
  {
  }

  /** The predicted classes are the rows' arg-max indices, the correct count
      is the number of hits among the broadcast pairs and, while no label is
      repeated, at most the total. */
  lemma EvaluationCounts(scores: Option<seq<seq<real>>>, labels: seq<int>, names: seq<string>)
    requires EvaluationOf(scores, labels, names).Ok?
    ensures forall i :: 0 <= i < |scores.value| ==> PredictedClasses(scores.value).value[i] == ArgMax(scores.value[i])
    ensures var b := Broadcast(PredictedClasses(scores.value).value, labels).value;
      EvaluationOf(scores, labels, names).value.correctPredictions == CountCorrect(b.0, b.1)
    ensures EvaluationOf(scores, labels, names).value.totalPredictions == |labels|
    ensures LabelsKept(|scores.value|, |labels|) ==>
      EvaluationOf(scores, labels, names).value.correctPredictions <= |labels|
  {
    var pred := PredictedClasses(scores.value).value;
    var b := Broadcast(pred, labels).value;
    if LabelsKept(|scores.value|, |labels|) {
      BroadcastSpec(pred, labels);
      CountCorrectAtMostTotal(b.0, b.1);
    }
  }

  /** Every position of two sequences agreeing makes every position correct. */
  lemma {:induction false} CountCorrectAll(pred: seq<nat>, labels: seq<int>)
    requires |pred| == |labels|
    requires forall k :: 0 <= k < |pred| ==> pred[k] == labels[k]
    ensures CountCorrect(pred, labels) == |pred|
  {
    if pred != [] {
      CountCorrectAll(pred[..|pred| - 1], labels[..|labels| - 1]);
    }
  }

  /** A single label is compared with every prediction, while the total
      stays 1: the accuracy is the number of hits, so with every prediction
      right it is the number of images, above 1 for two images or more. */
  lemma EvaluationOfOneLabel(scores: Option<seq<seq<real>>>, labels: seq<int>, names: seq<string>)
    requires EvaluationOf(scores, labels, names).Ok? && |labels| == 1
    ensures var e := EvaluationOf(scores, labels, names).value;
      && e.totalPredictions == 1 && e.accuracy == Some(e.correctPredictions as real)
      && ((forall i :: 0 <= i < |scores.value| ==> ArgMax(scores.value[i]) == labels[0]) ==>
        e.correctPredictions == |scores.value|)
  {
    var pred := PredictedClasses(scores.value).value;
    var b := Broadcast(pred, labels).value;
    BroadcastSpec(pred, labels);
    if forall i :: 0 <= i < |scores.value| ==> ArgMax(scores.value[i]) == labels[0] {
      CountCorrectAll(b.0, b.1);
    }
  }

  /** Three images all scored as class 2 against the single label 2: three
      hits out of a total of one, an accuracy of 3.0. */
  lemma EvaluationAccuracyAboveOne()
    ensures var row := [0.0, 0.0, 1.0];
      var e := EvaluationOf(Some([row, row, row]), [2], ["Airplane", "Automobile", "Bird"]);
      && e.Ok? && e.value.correctPredictions == 3 && e.value.accuracy == Some(3.0)
      && e.value.perClassAccuracy["Bird"] == 3.0
  {
    var row := [0.0, 0.0, 1.0];
    var scores := Some([row, row, row]);
    var names := ["Airplane", "Automobile", "Bird"];
    assert ArgMax(row) == 2;
    var pred := PredictedClasses(scores.value).value;
    assert pred == [2, 2, 2];
    EvaluationOfOneLabel(scores, [2], names);
    var b := Broadcast(pred, [2]).value;
    assert b.1 == seq(3, _ => 2);
    assert b.1 == [2, 2, 2];
    assert b == ([2, 2, 2], [2, 2, 2]);
    assert CountCorrectOf(b.0, b.1, 2) == 3 by {
      assert b.0[..2] == [2, 2] && b.1[..2] == [2, 2];
      assert b.0[..2][..1] == [2] && b.1[..2][..1] == [2];
    }
    assert Count([2], 2) == 1 by { assert [2][..0] == []; }
    assert ClassAccuracy(pred, [2], 2) == 3.0;
    PerClassAccuraciesSpec(pred, [2], names);
    assert LastOccurrence(names, 2);
  }

  /** The accuracy is defined for a non-empty label array (0 / 0 is NaN),
      and is then the ratio of correct predictions to all, a fraction while
      no label is repeated. */
  lemma EvaluationAccuracy(scores: Option<seq<seq<real>>>, labels: seq<int>, names: seq<string>)
    requires EvaluationOf(scores, labels, names).Ok?
    ensures EvaluationOf(scores, labels, names).value.accuracy.Some? <==> |labels| > 0
    ensures EvaluationOf(scores, labels, names).value.accuracy.Some? ==>
      var e := EvaluationOf(scores, labels, names).value;
      e.accuracy.value == e.correctPredictions as real / e.totalPredictions as real
    ensures EvaluationOf(scores, labels, names).value.accuracy.Some? && LabelsKept(|scores.value|, |labels|) ==>
      0.0 <= EvaluationOf(scores, labels, names).value.accuracy.value <= 1.0
  {
    var pred := PredictedClasses(scores.value).value;
    var b := Broadcast(pred, labels).value;
    var correct := CountCorrect(b.0, b.1);
    if |labels| > 0 && LabelsKept(|pred|, |labels|) {
      BroadcastSpec(pred, labels);
      CountCorrectAtMostTotal(b.0, b.1);
      DivideBounds(correct as real, |labels| as real, 0.0, 1.0);
    }
  }

  /** Every class name gets the accuracy of its class index, 0.0 when that
      class has no label, and every per-class accuracy is a fraction. */
  lemma EvaluationPerClassSpec(scores: Option<seq<seq<real>>>, labels: seq<int>, names: seq<string>)
    requires EvaluationOf(scores, labels, names).Ok?
    ensures var pred := PredictedClasses(scores.value).value;
      var e := EvaluationOf(scores, labels, names).value;
      && e.perClassAccuracy.Keys == (set n | n in names)
      && (forall c :: 0 <= c < |names| && LastOccurrence(names, c) ==>
        e.perClassAccuracy[names[c]] == ClassAccuracy(pred, labels, c))
      && (forall c :: 0 <= c < |names| && LastOccurrence(names, c) && c !in labels ==>
        e.perClassAccuracy[names[c]] == 0.0)
      && (LabelsKept(|pred|, |labels|) ==> forall k :: k in e.perClassAccuracy ==> 0.0 <= e.perClassAccuracy[k] <= 1.0)
  {
    var pred := PredictedClasses(scores.value).value;
    assert EvaluationOf(scores, labels, names).value.perClassAccuracy == PerClassAccuracies(pred, labels, names);
    PerClassAccuraciesSpec(pred, labels, names);
    forall c | 0 <= c < |names| && LastOccurrence(names, c) && c !in labels
      ensures ClassAccuracy(pred, labels, c) == 0.0
    {
      CountPositiveIff(labels, c);
    }
  }

  // ------------------------------------------------------------- statistics

  /** The values numpy averages as numbers: ints, floats, bools and numpy scalars. */
  function AsNumber(v: Value): Option<real> {
    match v
    case Int(i) => Some(i as real)
    case Float(x) => Some(x)
    case Bool(b) => Some(if b then 1.0 else 0.0)
    case NumpyNumber(x, _) => Some(x)
    case _ => None
  }

  /** `[p[key] for p in h]` as numbers, or None when one is not a number. */
  function Numbers(h: seq<Entry>, key: string): (r: Option<seq<real>>)
    requires forall i :: 0 <= i < |h| ==> key in h[i]
    ensures r.Some? <==> forall i :: 0 <= i < |h| ==> AsNumber(h[i][key]).Some?
    ensures r.Some? ==> |r.value| == |h| && forall i :: 0 <= i < |h| ==> r.value[i] == AsNumber(h[i][key]).value
  {
    if forall i :: 0 <= i < |h| ==> AsNumber(h[i][key]).Some? then
      Some(seq(|h|, i requires 0 <= i < |h| => AsNumber(h[i][key]).value))
    else None
  }

  /** The class name a record holds, when it holds one as a string. */
  function ClassOf(e: Entry): Option<string> {
    if "predicted_class" in e && e["predicted_class"].Str? then Some(e["predicted_class"].s) else None
  }

  function ClassesOf(h: seq<Entry>): (r: seq<Option<string>>)
    ensures |r| == |h| && forall i :: 0 <= i < |h| ==> r[i] == ClassOf(h[i])
  {
    seq(|h|, i requires 0 <= i < |h| => ClassOf(h[i]))
  }

  /** One turn of the counting loop of `get_prediction_statistics`: KeyError
      for a record without a class or with a class that is not a key, TypeError
      for an unhashable (dict) class. */
  function CountRecord(m: map<string, nat>, e: Entry): Result<map<string, nat>> {
    if "predicted_class" !in e then Err(KeyError)
    else match e["predicted_class"]
      case Dict(_) => Err(TypeError)
      case Str(s) => if s in m then Ok(m[s := m[s] + 1]) else Err(KeyError)
      case _ => Err(KeyError)
  }

  /** The counting loop over `h` from `{name: 0 for name in names}`. */
  function CountClasses(h: seq<Entry>, names: seq<string>): Result<map<string, nat>> {
    if h == [] then Ok(map n | n in names :: 0)
    else
      match CountClasses(h[..|h| - 1], names)
      case Err(e) => Err(e)
      case Ok(m) => CountRecord(m, h[|h| - 1])
  }

  /** A turn succeeds exactly on a record whose class is a key, and bumps
      that key's count. */
  lemma CountRecordSpec(m: map<string, nat>, e: Entry)
    ensures CountRecord(m, e).Ok? <==> ClassOf(e).Some? && ClassOf(e).value in m
    ensures CountRecord(m, e).Ok? ==> CountRecord(m, e).value == m[ClassOf(e).value := m[ClassOf(e).value] + 1]
  {
  }

  /** The loop succeeds exactly when every record's class is a class name, and
      then every name counts the records of its class. */
  lemma {:induction false} CountClassesSpec(h: seq<Entry>, names: seq<string>)
    ensures CountClasses(h, names).Ok? <==>
      forall i :: 0 <= i < |h| ==> ClassOf(h[i]).Some? && ClassOf(h[i]).value in names
    ensures CountClasses(h, names).Ok? ==> CountClasses(h, names).value.Keys == set n | n in names
    ensures CountClasses(h, names).Ok? ==> forall n :: n in names ==>
      n in CountClasses(h, names).value && CountClasses(h, names).value[n] == Count(ClassesOf(h), Some(n))
  {
    if h != [] {
      var init := h[..|h| - 1];
      var e := h[|h| - 1];
      CountClassesSpec(init, names);
      assert forall i :: 0 <= i < |init| ==> init[i] == h[i];
      if CountClasses(init, names).Ok? {
        var m := CountClasses(init, names).value;
        CountRecordSpec(m, e);
        if CountRecord(m, e).Ok? {
          var c := ClassOf(e).value;
          assert ClassesOf(h) == ClassesOf(init) + [ClassOf(e)];
          forall n | n in names
            ensures m[c := m[c] + 1][n] == Count(ClassesOf(h), Some(n))
          {
            CountSnoc(ClassesOf(init), ClassOf(e), Some(n));
          }
        }
      } else {
        var i :| 0 <= i < |init| && !(ClassOf(init[i]).Some? && ClassOf(init[i]).value in names);
        assert h[i] == init[i];
      }
    }
  }

  /** The dict `get_prediction_statistics` returns. */
  datatype Statistics =
    | NoPredictions
    | Summary(
        totalPredictions: nat,
        averageConfidence: real,
        minConfidence: real,
        maxConfidence: real,
        averagePredictionTimeMs: real,
        predictionsPerClass: map<string, nat>)

  /** `get_prediction_statistics` of a history: the message on an empty
      history, otherwise the summary; the errors come in the order the source
      meets them (missing confidences, missing times, the counting loop, then
      the numpy reductions on values that are not numbers). */
  function StatisticsOf(h: seq<Entry>, names: seq<string>): Result<Statistics> {
    if h == [] then Ok(NoPredictions)
    else if exists i :: 0 <= i < |h| && "confidence" !in h[i] then Err(KeyError)
    else if exists i :: 0 <= i < |h| && "prediction_time_ms" !in h[i] then Err(KeyError)
    else
      match CountClasses(h, names)
      case Err(e) => Err(e)
      case Ok(counts) =>
        match (Numbers(h, "confidence"), Numbers(h, "prediction_time_ms"))
        case (Some(conf), Some(times)) =>
          Ok(Summary(|h|, Mean(conf), MinOf(conf), MaxOf(conf), Mean(times), counts))
        case _ => Err(TypeError)
  }

  function SomeNames(names: seq<string>): (r: seq<Option<string>>)
    ensures |r| == |names| && forall i :: 0 <= i < |names| ==> r[i] == Some(names[i])
  {
    seq(|names|, i requires 0 <= i < |names| => Some(names[i]))
  }

  lemma {:induction false} TotalCountOfClassCounts(h: seq<Entry>, m: map<string, nat>, names: seq<string>, n: nat)
    requires n <= |names|
    requires forall k :: k in names ==> k in m && m[k] == Count(ClassesOf(h), Some(k))
    ensures TotalCount(m, names[..n]) == SumCounts(ClassesOf(h), SomeNames(names[..n]))
  {
    if n > 0 {
      assert names[..n][..n - 1] == names[..n - 1];
      TotalCountOfClassCounts(h, m, names, n - 1);
      assert SomeNames(names[..n])[..n - 1] == SomeNames(names[..n - 1]);
    }
  }

  /** With duplicate-free class names every counted record is counted once:
      the per-class counts add up to the number of records. */
  lemma ClassCountsTotal(h: seq<Entry>, names: seq<string>)
    requires Distinct(names)
    requires CountClasses(h, names).Ok?
    ensures TotalCount(CountClasses(h, names).value, names) == |h|
  {
    CountClassesSpec(h, names);
    var counts := CountClasses(h, names).value;
    TotalCountOfClassCounts(h, counts, names, |names|);
    assert names[..|names|] == names;
    var keys := SomeNames(names);
    assert Distinct(keys) by {
      forall a, b | 0 <= a < b < |keys| ensures keys[a] != keys[b] {
        assert names[a] != names[b];
      }
    }
    forall i | 0 <= i < |h| ensures ClassesOf(h)[i] in keys {
      var c := ClassOf(h[i]).value;
      var j :| 0 <= j < |names| && names[j] == c;
      assert keys[j] == ClassesOf(h)[i];
    }
    CountPartition(ClassesOf(h), keys);
  }

  /** The message exactly on an empty history. */
  lemma StatisticsEmpty(h: seq<Entry>, names: seq<string>)
    ensures StatisticsOf(h, names) == Ok(NoPredictions) <==> h == []
  {
  }

  /** A summary counts the history's records, has its average confidence
      between the minimum and the maximum, one count per class name equal to
      the records of that class, and with duplicate-free names counts that add
      up to the total. */
  lemma StatisticsSpec(h: seq<Entry>, names: seq<string>)
    requires StatisticsOf(h, names).Ok? && StatisticsOf(h, names).value.Summary?
    ensures var s := StatisticsOf(h, names).value;
      && s.totalPredictions == |h|
      && s.minConfidence <= s.averageConfidence <= s.maxConfidence
      && s.predictionsPerClass.Keys == (set n | n in names)
      && (forall n :: n in names ==> s.predictionsPerClass[n] == Count(ClassesOf(h), Some(n)))
      && (Distinct(names) ==> TotalCount(s.predictionsPerClass, names) == |h|)
  {
    CountClassesSpec(h, names);
    var conf := Numbers(h, "confidence").value;
    assert StatisticsOf(h, names).value.averageConfidence == Mean(conf);
    MeanBetweenMinAndMax(conf);
    if Distinct(names) {
      ClassCountsTotal(h, names);
    }
  }

  /** The history records of a sequence of predictions. */
  function Entries(recs: seq<PredictionRecord>): (h: seq<Entry>)
    ensures |h| == |recs| && forall i :: 0 <= i < |recs| ==> h[i] == ToEntry(recs[i])
  {
    seq(|recs|, i requires 0 <= i < |recs| => ToEntry(recs[i]))
  }

  /** A non-empty history of prediction records whose classes are class
      names always has a summary. */
  lemma StatisticsOfRecords(recs: seq<PredictionRecord>, names: seq<string>)
    requires recs != []
    requires forall i :: 0 <= i < |recs| ==> recs[i].predictedClass in names
    ensures StatisticsOf(Entries(recs), names).Ok?
    ensures StatisticsOf(Entries(recs), names).value.Summary?
  {
    var h := Entries(recs);
    forall i | 0 <= i < |h|
      ensures ClassOf(h[i]) == Some(recs[i].predictedClass)
      ensures "confidence" in h[i] && AsNumber(h[i]["confidence"]).Some?
      ensures "prediction_time_ms" in h[i] && AsNumber(h[i]["prediction_time_ms"]).Some?
    {
      EntryNumbers(recs[i]);
    }
    CountClassesSpec(h, names);
  }

  /** A record dict holds its class as a string and its confidence and time
      as numbers. */
  lemma EntryNumbers(r: PredictionRecord)
    ensures ClassOf(ToEntry(r)) == Some(r.predictedClass)
    ensures "confidence" in ToEntry(r) && AsNumber(ToEntry(r)["confidence"]) == Some(r.confidence)
    ensures "prediction_time_ms" in ToEntry(r) && AsNumber(ToEntry(r)["prediction_time_ms"]) == Some(r.timeMs)
  {
  }

  // --------------------------------------------------------------- persistence

  /** `if self.persistence_file`: set and not the empty string. */
  predicate Configured(f: Option<string>) {
    f.Some? && f.value != ""
  }

  /** What `json.dump` leaves in the file: the records, or a broken document
      when one of them cannot be written (the dump fails half way). */
  function DumpedContent(h: seq<Entry>): RecordContent {
    if forall i :: 0 <= i < |h| ==> SerializableEntry(h[i]) then JsonArray(h) else Malformed
  }

  /** What `save_to_persistence` writes: the sanitised records. */
  function PersistedContent(h: seq<Entry>): RecordContent {
    DumpedContent(SanitizeAll(h))
  }

  /** The history `load_from_persistence` installs for what the path holds:
      the records of a JSON array, and an empty history for empty, corrupt or
      unreadable content. */
  function LoadedHistory(s: Stored): (r: seq<Entry>)
    ensures forall i :: 0 <= i < |r| ==> SerializableEntry(r[i])
  {
    match s
    case RecordFile(JsonArray(es)) => es
    case _ => []
  }

  /** Saving a history of writable records and loading it back, in any
      predictor, restores it record for record. */
  lemma SaveLoadRoundTrip(h: seq<Entry>)
    requires forall i :: 0 <= i < |h| ==> SerializableEntry(h[i])
    ensures PersistedContent(h) == JsonArray(h)
    ensures LoadedHistory(RecordFile(PersistedContent(h))) == h
  {
    SanitizeAllKeepsSerializable(h);
  }

  /** Every record written has the keys of its history record, and an
      unwritable record only ever comes from a nested dict holding objects. */
  lemma PersistedRecordsKeepKeys(h: seq<Entry>)
    ensures PersistedContent(h).JsonArray? ==>
      |PersistedContent(h).entries| == |h| &&
      forall i :: 0 <= i < |h| ==> PersistedContent(h).entries[i].Keys == h[i].Keys
    ensures PersistedContent(h).Malformed? ==>
      exists i, k :: 0 <= i < |h| && k in h[i] && h[i][k].Dict? && !Serializable(SanitizeValue(h[i][k]))
  {
    var s := SanitizeAll(h);
    if PersistedContent(h).Malformed? {
      var i :| 0 <= i < |s| && !SerializableEntry(s[i]);
      var k :| k in s[i] && !Serializable(s[i][k]);
      assert s[i][k] == SanitizeValue(h[i][k]);
      SanitizedValueSerializableIff(h[i][k]);
    }
  }

  /** The inner loop of `save_to_persistence` over one record's items. */
  method SanitizeRecord(pred: Entry) returns (safe: Entry)
    ensures safe == Sanitize(pred)
  {
    safe := map[];
    var keys := pred.Keys;
    while keys != {}
      invariant keys <= pred.Keys
      invariant forall k :: k in safe <==> k in pred && k !in keys
      invariant forall k :: k in safe ==> safe[k] == SanitizeValue(pred[k])
      decreases |keys|
    {
      var k :| k in keys;
      safe := safe[k := SanitizeValue(pred[k])];
      keys := keys - {k};
    }
    SanitizedByKeys(pred, safe);
  }

  /** A dict with the record's keys, each holding its sanitised value, is the
      sanitised record. */
  lemma SanitizedByKeys(pred: Entry, safe: Entry)
    requires forall k :: k in safe <==> k in pred
    requires forall k :: k in safe ==> safe[k] == SanitizeValue(pred[k])
    ensures safe == Sanitize(pred)
  {
    var expected := Sanitize(pred);
    assert safe.Keys == expected.Keys;
  }

  // ----------------------------------------------------------- the predictor

  /** Appending a writable record to a writable history keeps it writable. */
  lemma AppendWritable(h: seq<Entry>, e: Entry)
    requires forall i :: 0 <= i < |h| ==> SerializableEntry(h[i])
    requires SerializableEntry(e)
    ensures forall i :: 0 <= i < |h + [e]| ==> SerializableEntry((h + [e])[i])
  {
  }

  /** `ImagePredictor`. The network is shared by reference with whoever else
      holds it; the history is the `prediction_history` list. */
  class ImagePredictor {
    const network: Network
    const classNames: seq<string>
    const hasPreprocessor: bool
    const persistenceFile: Option<string>
    const disk: Disk
    var history: seq<Entry>

    /** Every record in the history is one json.dump can write: records come
        from predictions or from a parsed JSON file. */
    ghost predicate Valid()
      reads this
    {
      forall i :: 0 <= i < |history| ==> SerializableEntry(history[i])
    }

    constructor (network: Network, classNames: seq<string>, hasPreprocessor: bool,
                 persistenceFile: Option<string>, disk: Disk)
      ensures this.network == network && this.classNames == classNames
      ensures this.hasPreprocessor == hasPreprocessor && this.persistenceFile == persistenceFile
      ensures this.disk == disk
      ensures history == [] && Valid()
    {
      this.network := network;
      this.classNames := classNames;
      this.hasPreprocessor := hasPreprocessor;
      this.persistenceFile := persistenceFile;
      this.disk := disk;
      history := [];
    }

    /** `predict_single_image`: on success exactly one record is appended and
        the earlier ones are kept; on an exception the history is unchanged. */
    method PredictSingleImage(image: Tensor, withProbabilities: bool, elapsedMs: real, timestamp: string)
      returns (r: Result<PredictionRecord>)
      requires Valid()
      modifies this
      ensures Valid()
      ensures r == SinglePrediction(network.weights, classNames, image, withProbabilities, elapsedMs, timestamp)
      ensures r.Ok? ==> history == old(history) + [ToEntry(r.value)]
      ensures r.Err? ==> history == old(history)
    {
      r := SinglePrediction(network.weights, classNames, image, withProbabilities, elapsedMs, timestamp);
      if r.Ok? {
        history := history + [ToEntry(r.value)];
      }
    }

    /** `predict_from_file`: the dict `predict_single_image` appends to the
        history is the one the file keys are added to, so on success the
        history ends with the returned record, file keys included. */
    method PredictFromFile(path: string, decoded: Result<Pixels>, elapsedMs: real, timestamp: string)
      returns (r: Result<Entry>)
      requires Valid()
      modifies this
      ensures Valid()
      ensures r == FilePrediction(network.weights, classNames, hasPreprocessor, path, decoded, elapsedMs, timestamp)
      ensures r.Ok? ==> history == old(history) + [r.value]
      ensures r.Err? ==> history == old(history)
    {
      if !hasPreprocessor {
        return Err(ValueError("Preprocessor is required for file predictions"));
      }
      var loaded := LoadAndPreprocessUploadedImage(decoded);
      if loaded.Err? {
        return Err(loaded.error);
      }
      var p := SinglePrediction(network.weights, classNames, loaded.value, true, elapsedMs, timestamp);
      if p.Err? {
        return Err(p.error);
      }
      var entry := WithFile(ToEntry(p.value), path);
      AppendWritable(history, entry);
      history := history + [entry];
      r := Ok(entry);
    }

    /** `predict_batch`: what the network raises, TypeError for a
        zero-dimensional input, ZeroDivisionError for an empty batch, the
        first row's classification error, or one result per row. The history
        is not touched. */
    method PredictBatch(images: Tensor, elapsedMs: real, timestamp: string) returns (r: Result<BatchInfo>)
      ensures match network.weights.score(images)
        case None => r == Err(Raised("model.predict failed"))
        case Some(rows) =>
          if images.shape == [] then r == Err(TypeError)
          else if images.shape[0] == 0 then r == Err(ZeroDivisionError)
          else match BatchItems(rows, classNames)
            case Err(e) => r == Err(e)
            case Ok(items) =>
              r == Ok(BatchInfo(images.shape[0], elapsedMs, elapsedMs / images.shape[0] as real, timestamp, items))
    {
      var scored := network.weights.score(images);
      if scored.None? {
        return Err(Raised("model.predict failed"));
      }
      var rows := scored.value;
      if images.shape == [] {
        return Err(TypeError);
      }
      var n := images.shape[0];
      if n == 0 {
        return Err(ZeroDivisionError);
      }
      var avg := elapsedMs / n as real;
      var results: seq<BatchItem> := [];
      var i := 0;
      while i < |rows|
        invariant 0 <= i <= |rows|
        invariant BatchItems(rows[..i], classNames) == Ok(results)
      {
        var c := Classify(rows[i], classNames, true);
        BatchItemsSnoc(rows, classNames, i, results);
        if c.Err? {
          BatchPrefixError(rows, classNames, i + 1);
          return Err(c.error);
        }
        results := results + [ItemOf(i, c.value)];
        i := i + 1;
      }
      assert rows[..i] == rows;
      r := Ok(BatchInfo(n, elapsedMs, avg, timestamp, results));
    }

    /** `get_top_k_predictions`: the image is given a batch axis but, unlike
        `predict_single_image`, not rescaled. */
    function GetTopKPredictions(image: Tensor, k: int): (r: Result<seq<TopEntry>>)
      reads network
      ensures FirstRow(network.weights, WithBatchAxis(image)).Err? ==>
        r == Err(FirstRow(network.weights, WithBatchAxis(image)).error)
      ensures FirstRow(network.weights, WithBatchAxis(image)).Ok? ==>
        r == TopK(FirstRow(network.weights, WithBatchAxis(image)).value, classNames, k)
    {
      match FirstRow(network.weights, WithBatchAxis(image))
      case Err(e) => Err(e)
      case Ok(row) => TopK(row, classNames, k)
    }

    /** `evaluate_predictions`: the metrics of `EvaluationOf` for the
        network's scores, computed class by class; the history is not touched. */
    method EvaluatePredictions(images: Tensor, trueLabels: seq<int>) returns (r: Result<Evaluation>)
      ensures r == EvaluationOf(network.weights.score(images), trueLabels, classNames)
    {
      var scored := network.weights.score(images);
      if scored.None? {
        return Err(Raised("model.predict failed"));
      }
      var predicted := PredictedClasses(scored.value);
      if predicted.Err? {
        return Err(predicted.error);
      }
      var pred := predicted.value;
      var broadcast := Broadcast(pred, trueLabels);
      if broadcast.None? {
        return Err(ValueError("operands could not be broadcast together"));
      }
      var b := broadcast.value;
      var correct := CountCorrect(b.0, b.1);
      var total := |trueLabels|;
      var accuracy: Option<real> := None;
      if total > 0 {
        accuracy := Some(correct as real / total as real);
      }
      var perClass: map<string, real> := map[];
      var c := 0;
      while c < |classNames|
        invariant 0 <= c <= |classNames|
        invariant perClass == PerClassAccuracies(pred, trueLabels, classNames[..c])
      {
        assert classNames[..c + 1][..c] == classNames[..c];
        var classTotal := Count(trueLabels, c);
        if classTotal > 0 {
          perClass := perClass[classNames[c] := CountCorrectOf(b.0, b.1, c) as real / classTotal as real];
        } else {
          perClass := perClass[classNames[c] := 0.0];
        }
        c := c + 1;
      }
      assert classNames[..c] == classNames;
      r := Ok(Evaluation(accuracy, correct, total, perClass));
    }

    /** `get_prediction_statistics`: the guards of the source, the counting
        loop, then the numpy reductions. */
    method GetPredictionStatistics() returns (r: Result<Statistics>)
      ensures r == StatisticsOf(history, classNames)
    {
      if history == [] {
        return Ok(NoPredictions);
      }
      if exists i :: 0 <= i < |history| && "confidence" !in history[i] {
        return Err(KeyError);
      }
      if exists i :: 0 <= i < |history| && "prediction_time_ms" !in history[i] {
        return Err(KeyError);
      }
      var counted := CountHistoryClasses();
      if counted.Err? {
        return Err(counted.error);
      }
      var conf := Numbers(history, "confidence");
      var times := Numbers(history, "prediction_time_ms");
      if conf.None? || times.None? {
        return Err(TypeError);
      }
      var counts := counted.value;
      r := Ok(Summary(|history|, Mean(conf.value), MinOf(conf.value), MaxOf(conf.value), Mean(times.value), counts));
    }

    /** The loop of `get_prediction_statistics` that counts the records per
        class, starting from 0 for every class name. */
    method CountHistoryClasses() returns (r: Result<map<string, nat>>)
      ensures r == CountClasses(history, classNames)
    {
      var counts: map<string, nat> := map n | n in classNames :: 0;
      var i := 0;
      while i < |history|
        invariant 0 <= i <= |history|
        invariant CountClasses(history[..i], classNames) == Ok(counts)
      {
        assert history[..i + 1][..i] == history[..i];
        var pred := history[i];
        assert CountClasses(history[..i + 1], classNames) == CountRecord(counts, pred);
        if "predicted_class" !in pred {
          r := Err(KeyError);
        } else {
          match pred["predicted_class"] {
            case Dict(_) => r := Err(TypeError);
            case Str(s) =>
              if s in counts {
                counts := counts[s := counts[s] + 1];
                i := i + 1;
                continue;
              }
              r := Err(KeyError);
            case _ => r := Err(KeyError);
          }
        }
        assert CountClasses(history[..i + 1], classNames) == r;
        CountPrefixError(history, classNames, i + 1);
        return;
      }
      assert history[..i] == history;
      r := Ok(counts);
    }

    /** `clear_history`; the record file is not touched. */
    method ClearHistory()
      modifies this
      ensures history == [] && Valid()
    {
      history := [];
    }

    /** `save_predictions`: the history as json.dump writes it, unsanitised;
        a record json.dump cannot write raises TypeError and leaves the file
        broken. */
    method SavePredictions(path: string, canWrite: bool) returns (err: Option<Error>)
      modifies disk
      ensures canWrite ==> disk.files == old(disk.files)[path := RecordFile(DumpedContent(history))]
      ensures canWrite ==> (err == None <==> DumpedContent(history).JsonArray?)
      ensures canWrite && DumpedContent(history).Malformed? ==> err == Some(TypeError)
      ensures !canWrite ==> err == Some(OSError("cannot open " + path)) && disk.files == old(disk.files)
    {
      if !canWrite {
        return Some(OSError("cannot open " + path));
      }
      var content := DumpedContent(history);
      disk.Write(path, RecordFile(content));
      err := if content.Malformed? then Some(TypeError) else None;
    }

    /** `load_predictions`: the file's records replace the history; a missing
        file, a document that does not parse and an unreadable file raise and
        leave the history as it was. */
    method LoadPredictions(path: string) returns (err: Option<Error>)
      requires Valid()
      modifies this
      ensures Valid()
      ensures path !in disk.files ==> err == Some(FileNotFoundError(path)) && history == old(history)
      ensures path in disk.files && disk.files[path].RecordFile? && disk.files[path].content.JsonArray? ==>
        err == None && history == disk.files[path].content.entries
      ensures path in disk.files && disk.files[path].RecordFile? && !disk.files[path].content.JsonArray? ==>
        err == Some(ValueError("JSONDecodeError")) && history == old(history)
      ensures path in disk.files && !disk.files[path].RecordFile? ==>
        err == Some(OSError("cannot read " + path)) && history == old(history)
    {
      if path !in disk.files {
        return Some(FileNotFoundError(path));
      }
      match disk.files[path]
      case RecordFile(content) =>
        if content.JsonArray? {
          history := content.entries;
          err := None;
        } else {
          err := Some(ValueError("JSONDecodeError"));
        }
      case _ =>
        err := Some(OSError("cannot read " + path));
    }

    /** `save_to_persistence`: nothing happens when no file is configured, the
        history is empty, the file name has no directory part (`os.makedirs('')`
        raises) or the file cannot be written; otherwise the sanitised records
        are dumped. Any exception is swallowed. */
    method SaveToPersistence(canWrite: bool)
      modifies disk
      ensures
        if Configured(persistenceFile) && history != [] && Dirname(persistenceFile.value) != "" && canWrite
        then disk.files == old(disk.files)[persistenceFile.value := RecordFile(PersistedContent(history))]
        else disk.files == old(disk.files)
    {
      if !Configured(persistenceFile) || history == [] {
        return;
      }
      var path := persistenceFile.value;
      if Dirname(path) == "" || !canWrite {
        return;
      }
      var serializable: seq<Entry> := [];
      var i := 0;
      while i < |history|
        invariant 0 <= i <= |history|
        invariant |serializable| == i
        invariant forall j :: 0 <= j < i ==> serializable[j] == Sanitize(history[j])
        invariant unchanged(disk)
      {
        var safe := SanitizeRecord(history[i]);
        serializable := serializable + [safe];
        i := i + 1;
      }
      assert serializable == SanitizeAll(history);
      disk.Write(path, RecordFile(DumpedContent(serializable)));
    }

    /** `load_from_persistence`: with a configured file that exists, the
        history becomes the file's records, or empty for empty, corrupt or
        unreadable content; a corrupt file is also renamed to `<file>.backup`
        when the operating system allows it. Without one, nothing changes. */
    method LoadFromPersistence(canRename: bool)
      requires Valid()
      modifies this, disk
      ensures Valid()
      ensures
        if Configured(persistenceFile) && persistenceFile.value in old(disk.files) then
          var path := persistenceFile.value;
          var stored := old(disk.files)[path];
          && history == LoadedHistory(stored)
          && (if stored == RecordFile(Malformed) && canRename
              then disk.files == (old(disk.files) - {path})[path + ".backup" := stored]
              else disk.files == old(disk.files))
        else history == old(history) && disk.files == old(disk.files)
    {
      if !Configured(persistenceFile) || !disk.Exists(persistenceFile.value) {
        return;
      }
      var path := persistenceFile.value;
      var stored := disk.files[path];
      match stored
      case RecordFile(Blank) =>
        history := [];
      case RecordFile(JsonArray(es)) =>
        history := es;
      case RecordFile(Malformed) =>
        history := [];
        var _ := disk.Rename(path, path + ".backup", canRename);
      case _ =>
        history := [];
    }
  }

  /** An error in a prefix of the rows is the error of the whole batch. */
  lemma {:induction false} BatchPrefixError(rows: seq<seq<real>>, names: seq<string>, n: nat)
    requires n <= |rows| && BatchItems(rows[..n], names).Err?
    ensures BatchItems(rows, names) == Err(BatchItems(rows[..n], names).error)
    decreases |rows| - n
  {
    if n < |rows| {
      assert rows[..n + 1][..n] == rows[..n];
      BatchPrefixError(rows, names, n + 1);
    } else {
      assert rows[..n] == rows;
    }
  }

  /** An error in a prefix of the history is the error of the whole count. */
  lemma {:induction false} CountPrefixError(h: seq<Entry>, names: seq<string>, n: nat)
    requires n <= |h| && CountClasses(h[..n], names).Err?
    ensures CountClasses(h, names) == Err(CountClasses(h[..n], names).error)
    decreases |h| - n
  {
    if n < |h| {
      assert h[..n + 1][..n] == h[..n];
      CountPrefixError(h, names, n + 1);
    } else {
      assert h[..n] == h;
    }
  }
}
