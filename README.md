# MLOps image classification: a verified model of the serving core

This project models the serving core of a CIFAR-10 image classification service. The core:

- holds a Keras classifier;
- answers prediction requests against it;
- keeps a history of predictions and persists it to a JSON record file;
- derives statistics from that history;
- retrains the classifier in a background job guarded by a process-wide flag.

The network itself is opaque: `Weights.score` gives one probability row per input, or nothing when the network raises.

Modules, one per part of the program:

- `Base`: Python's exceptions, `os.path` on POSIX, and list aggregates.
- `Artifact`: the Keras model object (`Network`, shared by reference and updated in place by `fit`), the per-epoch curves of a fit, and the `training_metadata` dict.
- `Records`: the JSON-like values of a prediction dict and the sanitising step of `save_to_persistence`.
- `Storage`: the file system as the core sees it. It holds the model files, the pickles, the record file and the uploaded images.
- `Scoring`: `np.argmax`, the probability table and `np.argsort`-based top-k ranking.
- `Preprocessing`: `DataPreprocessor` and `get_data_statistics` from `src/preprocessing.py`.
- `Prediction`: `ImagePredictor` from `src/prediction.py`, as a class whose `history` field is `prediction_history`. Each operation is specified by a function, and the lemmas are proved about that function.
- `Lifecycle`: `ImageClassificationModel` and `load_latest_model` from `src/model.py`.
- `Service`: the globals and handlers of `app.py`, as a class `Server`. The retraining job is split into explicit steps run one after the other.

Clocks are parameters: latencies, ISO timestamps, start and end times. So are other sources of nondeterminism:

- what PIL decodes from a file, as `Result<Pixels>`;
- what `model.fit` does, as `FitOutcome`;
- whether the operating system allows a write or a rename, as `canWrite` and `canRename`.

Behaviour of the code worth knowing:

- Retraining fits the live classifier's network in place (`app.py:403`, `src/model.py:183`); it does not train a private copy and then publish it. The predictor serving requests shares that network, so it sees the new weights as soon as the fit returns. This holds even when saving the model then fails and the status says "failed" (`Service.Server.JobRetrain`).
- A successful retrain publishes a new `ImagePredictor` with an empty history, and it does not reload the record file (`app.py:413-418`). The next flush therefore rewrites the record file with the newer predictions only.
- A freshly created model at startup is not marked in its metadata; its `training_metadata` stays `{}`.
- `model.fit` updates the network's weights in place batch by batch, so a fit that raises part-way leaves the network with the weights it had reached (`FitFailed.reached`), and the predictor serving requests sees them.
- `evaluate_predictions` compares with numpy broadcasting: a single label is compared with every prediction, and a single prediction with every label. With one label and several images the accuracy and a per-class accuracy can exceed 1 (`Prediction.EvaluationAccuracyAboveOne`).

## Model

| member | source | states |
|---|---|---|
| Base.Lower | MLOps_Image_Classification/app.py:98 | same length, each ASCII capital lowered and every other character kept |
| Base.JoinSpec | MLOps_Image_Classification/app.py:368 | `Join`: an absolute second part replaces the first; otherwise the result starts with the first part, ends with the second and has at most one separator added |
| Base.Basename | MLOps_Image_Classification/src/prediction.py:146 | the result has no '/' and ends the path |
| Base.DirnameOfJoin | MLOps_Image_Classification/src/model.py:302 | the directory part of a directory joined with a plain file name is that directory |
| Artifact.Summarize | MLOps_Image_Classification/src/model.py:130-140 | succeeds exactly when all four curves are non-empty (else IndexError); `epochs_trained` is the number of loss values, each final value is the last of its curve, batch size and requested epochs are copied |
| Artifact.RetrainSummary | MLOps_Image_Classification/src/model.py:192-198 | succeeds exactly when both accuracy curves are non-empty; `retrain_epochs` is the number of loss values and the accuracies are the last of their curves |
| Artifact.AppendRetrain | MLOps_Image_Classification/src/model.py:200-201 | the training summary is kept and 'retraining_history' (created when absent) gains exactly one entry at its end, the earlier entries kept in order |
| Records.SanitizeInner | MLOps_Image_Classification/src/prediction.py:325-326 | numpy numbers inside a dict become floats, other values are kept |
| Records.SanitizeValue | MLOps_Image_Classification/src/prediction.py:321-328 | primitives are kept, a dict keeps its keys with each value sanitised, anything else becomes its string form |
| Records.Sanitize | MLOps_Image_Classification/src/prediction.py:320-329 | the safe record has the same keys and each value is sanitised |
| Records.SanitizeAll | MLOps_Image_Classification/src/prediction.py:316-332 | one safe record per record, in history order |
| Records.SanitizeValueKeepsSerializable | MLOps_Image_Classification/src/prediction.py:322-326 | a value `json.dump` can already write is left unchanged |
| Records.SanitizeKeepsSerializable | MLOps_Image_Classification/src/prediction.py:320-329 | a writable record is left unchanged |
| Records.SanitizeAllKeepsSerializable | MLOps_Image_Classification/src/prediction.py:316-332 | a history of writable records is left unchanged |
| Records.SanitizeValueIdempotent | MLOps_Image_Classification/src/prediction.py:321-328 | sanitising twice is sanitising once |
| Records.SanitizeIdempotent | MLOps_Image_Classification/src/prediction.py:320-329 | sanitising a record twice is sanitising it once |
| Records.SanitizedValueSerializableIff | MLOps_Image_Classification/src/prediction.py:324-328 | a sanitised value is writable exactly when no dict field nests an object that is not a numpy number (such an object passes through and breaks the dump) |
| Storage.Disk.Write | MLOps_Image_Classification/app.py:226 | the path now holds the written content and nothing else changes |
| Storage.Disk.Remove | MLOps_Image_Classification/app.py:237 | the path is gone and nothing else changes |
| Storage.Disk.Rename | MLOps_Image_Classification/src/prediction.py:356-361 | a rename happens exactly when it is allowed and the source exists; it moves the content to the target and otherwise changes nothing |
| Scoring.ArgMax | MLOps_Image_Classification/src/prediction.py:58 | the index of a maximal value, the first one among equal maxima |
| Scoring.ProbabilityMap | MLOps_Image_Classification/src/prediction.py:72-75 | the keys are exactly the class names, and each name maps to the probability at its last position |
| Scoring.ClassifySpec | MLOps_Image_Classification/src/prediction.py:58-75 | `Classify`: a row is classified exactly when it is non-empty, its arg-max has a name and (with probabilities) every name has a probability. The error is ValueError for an empty row and IndexError otherwise. The result is a maximal, first-maximal index, with its probability as confidence and its name as class; the table is present exactly when asked for and covers the class names |
| Scoring.ArgSort | MLOps_Image_Classification/src/prediction.py:205 | the argsort holds each index below n exactly once |
| Scoring.InsertSorted | MLOps_Image_Classification/src/prediction.py:205 | inserting the next index into a sorted argsort keeps it sorted |
| Scoring.ArgSortSorted | MLOps_Image_Classification/src/prediction.py:205 | the argsort is in ascending order of probability, ties by index |
| Scoring.TopKIndices | MLOps_Image_Classification/src/prediction.py:205 | every selected index is a position of the row |
| Scoring.TopKIndicesSpec | MLOps_Image_Classification/src/prediction.py:205 | min(k, n) indices for k >= 1 and all n for k = 0, distinct, in non-increasing order of probability; no index left out is more probable than one kept |
| Preprocessing.NormalizeImages | MLOps_Image_Classification/src/preprocessing.py:45 | same shape, and each pixel p becomes a value in [0, 1] that is p/255 |
| Preprocessing.PreprocessSingleImage | MLOps_Image_Classification/src/preprocessing.py:76-86 | succeeds exactly when the shape is (32, 32, 3), else ValueError; the result has shape (1, 32, 32, 3) with the normalised values, all in [0, 1] |
| Preprocessing.LoadAndPreprocessUploadedImage | MLOps_Image_Classification/src/preprocessing.py:115-129 | a decoding error is passed on, a decoded image is preprocessed |
| Preprocessing.FlattenColumn | MLOps_Image_Classification/src/preprocessing.py:60 | an (N, 1) label column flattens to its N labels in order |
| Preprocessing.ToCategorical | MLOps_Image_Classification/src/preprocessing.py:59 | succeeds exactly when every label indexes a class (negative labels count from the end); one one-hot row per label |
| Preprocessing.OneHotSumsToOne | MLOps_Image_Classification/src/preprocessing.py:59 | a one-hot row sums to 1 and has its single 1 at the label |
| Preprocessing.OneHotArgMax | MLOps_Image_Classification/src/preprocessing.py:59 | the arg-max of a one-hot row is its label |
| Preprocessing.PreprocessLabels | MLOps_Image_Classification/src/preprocessing.py:58-60 | categorical gives the one-hot rows of the flattened labels, otherwise the flattened labels themselves |
| Preprocessing.PreprocessLabelsOneHot | MLOps_Image_Classification/src/preprocessing.py:58-59 | for labels in range: one row per label, of length 10, summing to 1, with its arg-max at the label |
| Preprocessing.PrepareTrainingData | MLOps_Image_Classification/src/preprocessing.py:156-190 | normalised images and one-hot labels, the fixed class names, shape and count; 'data_generator' is present exactly with augmentation, and the other seven keys always are |
| Preprocessing.Unbatch | MLOps_Image_Classification/src/preprocessing.py:210 | removing the batch axis drops the first dimension |
| Preprocessing.Accepted | MLOps_Image_Classification/src/preprocessing.py:205-213 | only directory entries with an image extension that load to a (32, 32, 3) image are kept, each under its own name |
| Preprocessing.AcceptedComplete | MLOps_Image_Classification/src/preprocessing.py:205-213 | every entry with an image extension that loads is kept |
| Preprocessing.BatchPreprocessImages | MLOps_Image_Classification/src/preprocessing.py:192-217 | both lists are None exactly when nothing was kept; otherwise they are equally long and aligned, image k with file name k |
| Preprocessing.ClassDistributionSpec | MLOps_Image_Classification/src/preprocessing.py:244-246 | `ClassDistribution`: for labels in range: a key for exactly the classes present, each counting its labels, at most one key per class, counts summing to the number of labels |
| Preprocessing.ClassDistributionOutOfRange | MLOps_Image_Classification/src/preprocessing.py:245-246 | a label that indexes no class name raises IndexError |
| Preprocessing.GetDataStatistics | MLOps_Image_Classification/src/preprocessing.py:220-248 | the sample count is the first dimension, the image shape the rest; pixel min <= mean <= max; the class distribution as above; a scalar or empty array raises |
| Prediction.EnsureUnitRange | MLOps_Image_Classification/src/prediction.py:49-50 | if any value exceeds 1, every value is divided by 255, otherwise the tensor is unchanged; an empty tensor raises |
| Prediction.EnsureUnitRangeOfPixels | MLOps_Image_Classification/src/prediction.py:48-50 | raw pixels in [0, 255] end up in [0, 1], and the step is idempotent |
| Prediction.PreprocessedImageScoredAsIs | MLOps_Image_Classification/src/prediction.py:137-144 | an image preprocessed by the preprocessor already has its batch axis and values in [0, 1], so `predict_single_image` scores it as it is, without a second division by 255 |
| Prediction.SinglePrediction | MLOps_Image_Classification/src/prediction.py:44-75 | a scoring error is passed on; otherwise the record exists exactly when the row can be classified, with class, index, confidence and probability table as the arg-max gives them, each class name mapped to the probability at its last position, and the given latency and timestamp |
| Prediction.ProbabilitiesValue | MLOps_Image_Classification/src/prediction.py:72-75 | the table as a dict of floats with the same keys, writable by `json.dump` |
| Prediction.ToEntry | MLOps_Image_Classification/src/prediction.py:63-75 | the record dict is writable and has exactly the five record keys plus 'all_probabilities' when present |
| Prediction.WithFile | MLOps_Image_Classification/src/prediction.py:145-146 | adds exactly 'file_path' and 'file_name' and keeps the dict writable |
| Prediction.ToEntryFields | MLOps_Image_Classification/src/prediction.py:63-75 | each key holds its field of the record |
| Prediction.FromEntryIgnoresOtherKeys | MLOps_Image_Classification/src/prediction.py:145-146 | adding a key outside the record keys does not change the record read back |
| Prediction.EntryRoundTrip | MLOps_Image_Classification/src/prediction.py:63-78 | reading the dict back gives the record, also after the file keys are added |
| Prediction.ProbabilitiesRoundTrip | MLOps_Image_Classification/src/prediction.py:72-75 | the table read back from its dict is the table |
| Prediction.FilePredictionSpec | MLOps_Image_Classification/src/prediction.py:137-148 | `FilePrediction`: without a preprocessor it raises; with one it succeeds exactly when loading and predicting do, and the dict reads back as the single-image record, with the file path and its base name and the probability table |
| Prediction.BatchItemsOkIff | MLOps_Image_Classification/src/prediction.py:100-115 | the batch succeeds exactly when every row can be classified |
| Prediction.BatchItemsSpec | MLOps_Image_Classification/src/prediction.py:100-115 | `BatchItems`: one result per row, result i being row i's classification with `image_index` i |
| Prediction.BatchItemsFirstError | MLOps_Image_Classification/src/prediction.py:100-115 | a failing batch raises the error of its first failing row |
| Prediction.TopK | MLOps_Image_Classification/src/prediction.py:205-215 | succeeds exactly when every selected index has a class name, else IndexError; entry a is the name, index and probability of the a-th selected index |
| Prediction.TopKSpec | MLOps_Image_Classification/src/prediction.py:205-215 | a row no longer than the class names always succeeds: min(k, n) entries for k >= 1, all for k = 0, distinct classes, non-increasing probabilities, and no class left out is more probable than one listed |
| Prediction.PredictedClasses | MLOps_Image_Classification/src/prediction.py:229 | succeeds exactly when no row is empty; class i is the arg-max of row i |
| Prediction.CountCorrectAtMostTotal | MLOps_Image_Classification/src/prediction.py:232-233 | correct <= total |
| Prediction.CountCorrectOfAtMostCount | MLOps_Image_Classification/src/prediction.py:241-244 | a class's correct count is at most its number of true examples |
| Prediction.ClassAccuracyInUnitRange | MLOps_Image_Classification/src/prediction.py:240-247 | while no label is repeated by the broadcast, a per-class accuracy lies in [0, 1] |
| Prediction.CorrectIsSumOverClasses | MLOps_Image_Classification/src/prediction.py:232-245 | with labels in range, the per-class correct counts add up to the overall correct count |
| Prediction.Broadcast | MLOps_Image_Classification/src/prediction.py:232 | numpy's broadcast succeeds exactly for equal lengths or a side of length 1, and pairs the two sides into equally long arrays |
| Prediction.BroadcastSpec | MLOps_Image_Classification/src/prediction.py:232 | position k of the broadcast is position k of each side, or the only element of a side of length 1; the length is the labels' when there is one prediction and the predictions' otherwise; a broadcast that repeats no label keeps the labels as they are |
| Prediction.PerClassAccuraciesSpec | MLOps_Image_Classification/src/prediction.py:237-247 | a key for exactly the class names, each holding its class's accuracy (the last duplicate name wins), all in [0, 1] while no label is repeated by the broadcast |
| Prediction.EvaluationOkIff | MLOps_Image_Classification/src/prediction.py:228-242 | `EvaluationOf` succeeds exactly when the network scores the images, no row is empty and the predictions broadcast against the labels (equal counts, one row or one label) |
| Prediction.EvaluationCounts | MLOps_Image_Classification/src/prediction.py:228-233 | `correct_predictions` counts the hits among the broadcast pairs of arg-maxes and labels, `total_predictions` is the number of labels, and correct <= total while no label is repeated |
| Prediction.EvaluationAccuracy | MLOps_Image_Classification/src/prediction.py:231-234 | the accuracy is defined exactly for non-empty labels and is correct/total, in [0, 1] while no label is repeated |
| Prediction.EvaluationPerClassSpec | MLOps_Image_Classification/src/prediction.py:236-247 | every class name has an entry, 0.0 for a class without true examples, all in [0, 1] while no label is repeated |
| Prediction.EvaluationOfOneLabel | MLOps_Image_Classification/src/prediction.py:231-234 | with a single label the total is 1 and the accuracy is the number of hits, which is the number of images when every arg-max is that label |
| Prediction.EvaluationAccuracyAboveOne | MLOps_Image_Classification/src/prediction.py:228-247 | three images scored as class 2 against the single label 2 give 3 correct predictions, accuracy 3.0 and a per-class accuracy of 3.0 for Bird |
| Prediction.Numbers | MLOps_Image_Classification/src/prediction.py:266-267 | the field of every record, in order, when every one is a number |
| Prediction.CountRecordSpec | MLOps_Image_Classification/src/prediction.py:271-272 | `CountRecord`: one turn of the counting loop succeeds exactly on a record whose class is already a key, and adds one to that key alone |
| Prediction.CountClassesSpec | MLOps_Image_Classification/src/prediction.py:270-272 | the count loop succeeds exactly when every record's class is a class name; every name then counts the records of its class |
| Prediction.ClassCountsTotal | MLOps_Image_Classification/src/prediction.py:270-272 | with distinct class names the per-class counts sum to the number of records |
| Prediction.StatisticsEmpty | MLOps_Image_Classification/src/prediction.py:263-264 | the "no predictions" answer comes exactly for an empty history |
| Prediction.StatisticsSpec | MLOps_Image_Classification/src/prediction.py:263-281 | `StatisticsOf`: the total is the history length, min <= average <= max confidence, a count for every class name summing to the total |
| Prediction.StatisticsOfRecords | MLOps_Image_Classification/src/prediction.py:263-281 | a non-empty history of prediction records with known classes always yields a summary |
| Prediction.LoadedHistory | MLOps_Image_Classification/src/prediction.py:342-364 | what loading installs is always writable again |
| Prediction.SaveLoadRoundTrip | MLOps_Image_Classification/src/prediction.py:334-347 | a history of writable records is saved unchanged and loads back record for record |
| Prediction.PersistedRecordsKeepKeys | MLOps_Image_Classification/src/prediction.py:316-335 | the file holds one record per history record with the same keys, or is broken only because a dict field held an object |
| Prediction.SanitizeRecord | MLOps_Image_Classification/src/prediction.py:320-329 | the loop over the keys builds the sanitised record |
| Prediction.ImagePredictor.constructor | MLOps_Image_Classification/src/prediction.py:17-31 | the model, the class names, the preprocessor and the persistence file are kept; the history starts empty |
| Prediction.ImagePredictor.PredictSingleImage | MLOps_Image_Classification/src/prediction.py:33-80 | the result is the single-image prediction; on success exactly that record is appended and earlier records are kept, on an exception nothing changes |
| Prediction.ImagePredictor.PredictFromFile | MLOps_Image_Classification/src/prediction.py:127-148 | the result is the file prediction, and the very dict returned is the one appended |
| Prediction.ImagePredictor.PredictBatch | MLOps_Image_Classification/src/prediction.py:82-125 | the history is not touched; a scalar batch raises TypeError, an empty one ZeroDivisionError; otherwise the batch info has `total_images` = number of images and the per-row results |
| Prediction.ImagePredictor.GetTopKPredictions | MLOps_Image_Classification/src/prediction.py:186-215 | the top-k entries of the image's first scored row, or the scoring error |
| Prediction.ImagePredictor.EvaluatePredictions | MLOps_Image_Classification/src/prediction.py:217-254 | the loop over the classes builds the evaluation specified by the evaluation lemmas |
| Prediction.ImagePredictor.GetPredictionStatistics | MLOps_Image_Classification/src/prediction.py:256-281 | the guards, the counting loop and the reductions compute the statistics specified by the statistics lemmas |
| Prediction.ImagePredictor.CountHistoryClasses | MLOps_Image_Classification/src/prediction.py:269-272 | the loop computes the per-class counts of the history, or the error of the first record whose class is missing, unhashable or not a class name |
| Prediction.ImagePredictor.ClearHistory | MLOps_Image_Classification/src/prediction.py:283-285 | the history is empty |
| Prediction.ImagePredictor.SavePredictions | MLOps_Image_Classification/src/prediction.py:287-296 | the unsanitised history is dumped; it fails with TypeError, leaving a broken file, exactly when a record cannot be written; or the open fails and nothing changes |
| Prediction.ImagePredictor.LoadPredictions | MLOps_Image_Classification/src/prediction.py:298-307 | the history becomes the file's records; a missing, unparsable or unreadable file raises and keeps the history |
| Prediction.ImagePredictor.SaveToPersistence | MLOps_Image_Classification/src/prediction.py:309-338 | a no-op without a configured file, with an empty history, with no directory part or when the write fails; otherwise the file holds the sanitised records |
| Prediction.ImagePredictor.LoadFromPersistence | MLOps_Image_Classification/src/prediction.py:340-364 | a missing file changes nothing; otherwise the history becomes the file's records, or empty for blank, corrupt or unreadable content; a corrupt file is renamed to `.backup` when allowed |
| Lifecycle.RetrainingThreshold | MLOps_Image_Classification/src/model.py:326-337 | `CheckRetrainingNeeded`: retraining is needed strictly below the threshold (not at it), monotonically, with default 0.75 |
| Lifecycle.SavedFilesSpec | MLOps_Image_Classification/src/model.py:263-289 | `SavedFiles`: `save_model` writes exactly the model file, the SavedModel directory, the metadata pickle and, with curves, the curve pickle; every other file is kept |
| Lifecycle.LoadFromSpec | MLOps_Image_Classification/src/model.py:291-309 | `LoadFrom`: loading succeeds exactly when the path holds a model and the metadata beside it can be read, and gives those weights and that metadata |
| Lifecycle.Accuracy | MLOps_Image_Classification/src/model.py:229 | defined for non-empty lists, in [0, 1], and times the count it gives the number of agreeing positions |
| Lifecycle.ImageClassificationModel.constructor | MLOps_Image_Classification/src/model.py:21-26 | no model, no curves, metadata `{}` |
| Lifecycle.ImageClassificationModel.CreateCnnModel | MLOps_Image_Classification/src/model.py:28-80 | a fresh network becomes the model; curves and metadata kept |
| Lifecycle.ImageClassificationModel.TrainModel | MLOps_Image_Classification/src/model.py:82-142 | creates a network when there is none, fits it in place, keeps the curves and replaces the metadata wholesale by the fit's summary (dropping 'retraining_history'); a fit that raises leaves the weights it reached and changes nothing else |
| Lifecycle.ImageClassificationModel.RetrainModel | MLOps_Image_Classification/src/model.py:144-203 | ValueError and no change without a model; otherwise the same network is updated in place (to the fitted weights, or to the weights reached when the fit raises), exactly one retrain entry is appended on success and the stored curves are left alone |
| Lifecycle.ImageClassificationModel.EvaluateModel | MLOps_Image_Classification/src/model.py:205-229 | ValueError without a model; the predictions and truths are the row arg-maxes, one per test label, and the accuracy is their agreement rate |
| Lifecycle.ImageClassificationModel.SaveModel | MLOps_Image_Classification/src/model.py:249-289 | ValueError without a model, FileNotFoundError for an empty directory; otherwise `name.h5`, the SavedModel `name`, the metadata pickle and, only with curves, the history pickle |
| Lifecycle.ImageClassificationModel.LoadModel | MLOps_Image_Classification/src/model.py:291-309 | a path without a model raises and changes nothing; otherwise a fresh network with the stored weights, and the metadata replaced only when the model directory has a metadata file (`{}` when its key is missing) |
| Lifecycle.ImageClassificationModel.GetModelSummary | MLOps_Image_Classification/src/model.py:311-324 | "No model created yet." without a model, else the network's summary |
| Lifecycle.LatestModelPrecedence | MLOps_Image_Classification/src/model.py:352-364 | `LatestModel`: the `.h5` file wins over the SavedModel directory, and FileNotFoundError comes exactly when neither exists |
| Lifecycle.SaveThenLoadLatest | MLOps_Image_Classification/src/model.py:263-308 | `SavedFiles` then `LatestModel`, `LoadFrom` and `MetadataAfterLoad`: loading the latest model from a directory just saved to gives back the same weights and metadata |
| Lifecycle.LoadLatestModel | MLOps_Image_Classification/src/model.py:340-364 | a new classifier holding what the precedence rule finds, or its error |
| Service.AllowedFileSplit | MLOps_Image_Classification/app.py:95-98 | `AllowedFile`: for a name written as head, '.', dot-free extension, the file is allowed exactly when the lower-cased extension is |
| Service.NoDotNotAllowed | MLOps_Image_Classification/app.py:95-98 | a name without a '.' is never allowed |
| Service.AllowedFileIsImageExtension | MLOps_Image_Classification/app.py:95-98 | with png, jpg and jpeg, the upload filter accepts exactly the names the folder filter accepts |
| Service.PredictRejection | MLOps_Image_Classification/app.py:208-220 | the guards answer in order: no file uploaded, no file selected, invalid file type |
| Service.PredictRejectionIff | MLOps_Image_Classification/app.py:214-220 | a request passes the guards exactly when it has a file part with an allowed name |
| Service.BatchRejection | MLOps_Image_Classification/app.py:253-261 | passes exactly with a non-empty list whose first name is non-empty, else the message for the missing part or the empty selection |
| Service.PartitionCounts | MLOps_Image_Classification/app.py:269-298 | `Partition`: every allowed file lands in exactly one of results and errors, so `total_processed + total_errors` is the number of allowed files; every error names an allowed file |
| Service.PartitionNoneAllowed | MLOps_Image_Classification/app.py:269-286 | a batch without allowed names gives no results and no errors |
| Service.UploadRejection | MLOps_Image_Classification/app.py:342-352 | passes exactly with a non-empty selection and as many labels as files, else the message of the first failing guard |
| Service.SavedUploadsSpec | MLOps_Image_Classification/app.py:363-374 | `SavedUploads` has one entry per allowed file, each an allowed file saved under its own label |
| Service.SavedAsName | MLOps_Image_Classification/app.py:365-368 | the saved name is `label + "_" + secured name` and the path is that name joined to the upload directory |
| Service.SavedAsAbsoluteLabel | MLOps_Image_Classification/app.py:365-368 | a label starting with '/' replaces the upload directory: the path is the label, an underscore and the secured name |
| Service.SavedAsEscapes | MLOps_Image_Classification/app.py:365-368 | the label "/etc/evil" on "cat.png" is saved at /etc/evil_cat.png |
| Service.ConfinedSavedAsInDir | MLOps_Image_Classification/app.py:365-368 | with the label cleaned of separators the save lands directly in the upload directory, and equals the code's save for a label without separators |
| Service.StoredUploadsSpec | MLOps_Image_Classification/app.py:363-369 | `StoredUploads`: every saved entry's path holds an image, every new path is a saved entry's, and every other path is as it was |
| Service.Server.constructor | MLOps_Image_Classification/app.py:84-92 | not retraining and an empty status |
| Service.Server.Predict | MLOps_Image_Classification/app.py:204-246 | a rejected request changes nothing; otherwise the answer is the file prediction, which alone is appended, the history is flushed only on success, and the upload is removed either way |
| Service.Server.PredictUpload | MLOps_Image_Classification/app.py:270-286 | one file is saved, predicted from and removed again |
| Service.Server.PredictBatch | MLOps_Image_Classification/app.py:249-302 | a rejected request changes nothing; otherwise the answer holds the partition with its counts, the successful records extend the history in order, the uploads are removed and the history is flushed once |
| Service.Server.BatchStep | MLOps_Image_Classification/app.py:269-286 | one more file: a disallowed name changes nothing, an allowed one adds its record to the results and the history or its error to the errors, and its upload is written and removed again |
| Service.Server.UploadTrainingData | MLOps_Image_Classification/app.py:338-386 | a rejected request changes nothing; otherwise every allowed file is stored under its labelled name and listed |
| Service.Server.TriggerRetraining | MLOps_Image_Classification/app.py:442-481 | while running it answers with the current status and changes nothing; a data error leaves the flag down; otherwise the flag goes up before the job, with the prepared data |
| Service.Server.JobStart | MLOps_Image_Classification/app.py:396-400 | the status becomes in progress |
| Service.Server.JobRetrain | MLOps_Image_Classification/app.py:402-436 | completed with the last accuracies and a new predictor with an empty history on success; failed with the error and the old predictor otherwise; the network holds the fitted weights, or those reached by a fit that raised; the metadata gains the retrain entry once the summary succeeds; the disk holds the saved files on success and is untouched otherwise |
| Service.Server.JobFinally | MLOps_Image_Classification/app.py:438-439 | the flag is down |
| Service.Server.RetrainModelBackground | MLOps_Image_Classification/app.py:389-439 | afterwards the flag is down and the status is final: completed exactly when fit, summary and save succeed (then a new predictor with an empty history), failed otherwise with the predictor unchanged; the network, the metadata and the disk end as after `JobRetrain` |
| Service.Server.GetRetrainingStatus | MLOps_Image_Classification/app.py:484-490 | returns the flag and the status and changes nothing |
| Service.Startup | MLOps_Image_Classification/app.py:101-136 | the latest saved model, or a new one exactly when none is found; any other load error is fatal and changes nothing; the predictor shares its network and reloads the persisted history; the only disk change is a corrupt record file renamed to `.backup` when the rename is allowed |

## Left out

- The network's architecture, compilation, `fit`, `predict`, `summary` and `model.save`/`load_model` internals: the network is an opaque scoring function, and a fit either returns weights and curves or raises, leaving the weights it reached.
- Training callbacks, early stopping and the requested epoch and batch counts of a fit: they only affect what the opaque fit returns.
- sklearn precision, recall, F1, confusion matrix and classification report in `evaluate_model`: they are foreign library calls; only accuracy is modelled.
- Lifecycle.ImageClassificationModel.EvaluateModel: the empty test set is answered with no accuracy instead of what sklearn does on empty input.
- Prediction.ImagePredictor.EvaluatePredictions: `true_labels` is taken to be a numpy array; given a plain list, `true_labels == i` is a single False and every per-class accuracy would be 0.0. An empty label list gives no accuracy, standing for numpy's NaN.
- Scoring.ArgSort and Scoring.TopKIndicesSpec: `np.argsort` is taken to be a stable ascending sort, so equal probabilities in the top-k list come out by descending class index; numpy's default sort is not documented as stable.
- Floating point: probabilities, confidences and pixel means are exact reals, and the pixel standard deviation is not computed.
- PIL decoding, colour conversion and resizing: a file's decoded content is an input.
- werkzeug's `secure_filename`: the secured name is an input of each upload.
- `file.save`, `os.makedirs` with existing directories, and pickle and JSON I/O, apart from the failure cases named in the table: file writes are taken to succeed.
- JSON record files whose top-level value is not a list of objects: they are not distinguished from a list.
- `str.lower` is modelled for ASCII letters only.
- `to_categorical` on a column of labels returns a 2-D array here; the 3-D shape numpy would give for nested labels is not modelled.
- The daemon thread and the race between the check and the set of `is_retraining`: the job steps run one after the other.
- `predict_from_folder` and `visualize_prediction` in `src/prediction.py`: folder listing and plotting are outside the core.
- Flask routing, JSON shaping, CORS, rate limits, logging, health, model info, uptime, visualisation and static endpoints, and `/api/model/evaluate`.
- The CIFAR-10 download and `config.py`: the raw dataset and the configured paths are inputs; the allowed extensions are the constant set png, jpg, jpeg.
- The load-test clients and the training script.

## Findings

| source | as written | input that shows it | evidently intended | confidence | as-written member | corrected member |
|---|---|---|---|---|---|---|
| MLOps_Image_Classification/app.py:365-368 | the upload label is put into the file name without `secure_filename`, and `os.path.join` drops the upload directory when that name starts with '/' | label "/etc/evil" with file "cat.png" is saved at /etc/evil_cat.png; a label holding "../" climbs out of the directory the same way | every upload lands directly in `<train dir>/uploaded`, with the label cleaned like the file name | not executed | Service.SavedAsEscapes | Service.ConfinedSavedAsInDir |

`Service.Server.UploadTrainingData` keeps the code's behaviour (`Service.SavedAs`); `Service.ConfinedSavedAs` is the corrected save, proved to stay in the upload directory and to agree with the code on labels without separators.
