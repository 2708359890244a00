/** The serving process: the upload validators, the decisions of the
    prediction and upload handlers, and the retraining orchestration over the
    process-wide `model_classifier`, `predictor`, `is_retraining` and
    `retraining_status`. */
module Service {
  import opened Base
  import opened Artifact
  import opened Records
  import opened Storage
  import opened Preprocessing
  import opened Prediction
  import opened Lifecycle

  /** The configured ALLOWED_EXTENSIONS. */
  const AllowedExtensions: set<string> := {"png", "jpg", "jpeg"}

  // ------------------------------------------------------------ validators

  /** `allowed_file`: the name has a '.' and the lower-cased text after the
      last one is an allowed extension. */
  predicate AllowedFile(filename: string, allowed: set<string>) {
    match LastIndexOf(filename, '.')
    case None => false
    case Some(i) => Lower(filename[i + 1..]) in allowed
  }

  /** `rsplit('.', 1)`: for any way of writing the name as a head, a dot and
      a dot-free extension, the file is allowed exactly when that extension,
      lower-cased, is allowed; a name without a dot never is. */
  lemma AllowedFileSplit(filename: string, allowed: set<string>, head: string, ext: string)
    requires filename == head + "." + ext && '.' !in ext
    ensures AllowedFile(filename, allowed) <==> Lower(ext) in allowed
  {
    var k := |head|;
    assert filename[k] == '.';
    assert forall j :: k < j < |filename| ==> filename[j] == ext[j - k - 1];
    LastIndexOfUnique(filename, '.', k);
    assert filename[k + 1..] == ext;
  }

  lemma NoDotNotAllowed(filename: string, allowed: set<string>)
    requires '.' !in filename
    ensures !AllowedFile(filename, allowed)
  {
  }

  lemma LowerKeepsDots(s: string)
    ensures forall i :: 0 <= i < |s| ==> (Lower(s)[i] == '.' <==> s[i] == '.')
  {
  }

  lemma LowerSuffix(s: string, i: nat)
    requires i <= |s|
    ensures Lower(s)[i..] == Lower(s[i..])
  {
  }

  /** The lower-cased name ends with a dot and the lower-cased text after it. */
  lemma LowerEndsWithTail(filename: string, i: nat)
    requires i < |filename| && filename[i] == '.'
    ensures EndsWith(Lower(filename), "." + Lower(filename[i + 1..]))
  {
    var l := Lower(filename);
    LowerSuffix(filename, i + 1);
    assert l[i..] == [l[i]] + l[i + 1..];
  }

  lemma EndsWithExtension(l: string, ext: string)
    requires ext in AllowedExtensions
    requires EndsWith(l, "." + ext)
    ensures EndsWith(l, ".png") || EndsWith(l, ".jpg") || EndsWith(l, ".jpeg")
  {
    OneOfTheExtensions(ext);
  }

  lemma AllowedIsImageExtension(filename: string)
    requires AllowedFile(filename, AllowedExtensions)
    ensures HasImageExtension(filename)
  {
    var i := LastIndexOf(filename, '.').value;
    var ext := Lower(filename[i + 1..]);
    LowerEndsWithTail(filename, i);
    EndsWithExtension(Lower(filename), ext);
  }

  lemma OneOfTheExtensions(e: string)
    requires e in AllowedExtensions
    ensures e == "png" || e == "jpg" || e == "jpeg"
  {
  }

  /** A name whose lower-cased form ends with '.' and a dot-free allowed
      extension is allowed. */
  lemma EndingAllowed(filename: string, ext: string)
    requires ext in AllowedExtensions && '.' !in ext
    requires EndsWith(Lower(filename), "." + ext)
    ensures AllowedFile(filename, AllowedExtensions)
  {
    var l := Lower(filename);
    var k := |l| - |ext| - 1;
    assert l[k..] == "." + ext;
    LowerKeepsDots(filename);
    LowerSuffix(filename, k + 1);
    var tail := filename[k + 1..];
    assert Lower(tail) == l[k + 1..] == ext;
    LowerKeepsDots(tail);
    assert '.' !in tail by {
      forall j | 0 <= j < |tail| ensures tail[j] != '.' {
        assert Lower(tail)[j] == ext[j];
      }
    }
    assert filename == filename[..k] + "." + tail;
    AllowedFileSplit(filename, AllowedExtensions, filename[..k], tail);
  }

  lemma ImageExtensionIsAllowed(filename: string)
    requires HasImageExtension(filename)
    ensures AllowedFile(filename, AllowedExtensions)
  {
    var l := Lower(filename);
    if EndsWith(l, ".png") {
      EndingAllowed(filename, "png");
    } else if EndsWith(l, ".jpg") {
      EndingAllowed(filename, "jpg");
    } else {
      EndingAllowed(filename, "jpeg");
    }
  }

  /** With the configured extensions, the upload filter and the folder filter
      of `batch_preprocess_images` accept the same names. */
  lemma AllowedFileIsImageExtension(filename: string)
    ensures AllowedFile(filename, AllowedExtensions) <==> HasImageExtension(filename)
  {
    if AllowedFile(filename, AllowedExtensions) {
      AllowedIsImageExtension(filename);
    }
    if HasImageExtension(filename) {
      ImageExtensionIsAllowed(filename);
    }
  }

  // ------------------------------------------------------------ requests

  /** One uploaded file part: the client's file name, what `secure_filename`
      makes of it, what PIL decodes from its bytes, and the latency and the
      clock reading its prediction would record. */
  datatype Upload = Upload(filename: string, securedName: string, decoded: Result<Pixels>,
                           elapsedMs: real, timestamp: string)

  /** An HTTP answer: the JSON body, a 400 with its message, or a 500 with
      the exception. */
  datatype Response<T> = Success(body: T) | BadRequest(message: string) | ServerError(error: Error)

  /** The rejection `/api/predict` answers with, checked in order: no 'file'
      part, an empty file name, a disallowed extension. */
  function PredictRejection(part: Option<Upload>): (r: Option<string>)
    ensures part.None? ==> r == Some("No file uploaded")
    ensures part.Some? && part.value.filename == "" ==> r == Some("No file selected")
    ensures part.Some? && part.value.filename != "" && !AllowedFile(part.value.filename, AllowedExtensions) ==>
      r == Some("Invalid file type. Allowed: png, jpg, jpeg")
  {
    if part.None? then Some("No file uploaded")
    else if part.value.filename == "" then Some("No file selected")
    else if !AllowedFile(part.value.filename, AllowedExtensions) then Some("Invalid file type. Allowed: png, jpg, jpeg")
    else None
  }

  /** A request gets through the guards exactly when it has a file part with
      an allowed name: the empty-name check only chooses the message. */
  lemma PredictRejectionIff(part: Option<Upload>)
    ensures PredictRejection(part).None? <==> part.Some? && AllowedFile(part.value.filename, AllowedExtensions)
  {
    if part.Some? && part.value.filename == "" {
      NoDotNotAllowed(part.value.filename, AllowedExtensions);
    }
  }

  /** The rejection of `/api/predict/batch`: no 'files' part, or an empty
      list or an empty first file name. */
  function BatchRejection(files: Option<seq<Upload>>): (r: Option<string>)
    ensures r.None? <==> files.Some? && files.value != [] && files.value[0].filename != ""
    ensures files.None? ==> r == Some("No files uploaded")
    ensures files.Some? && (files.value == [] || files.value[0].filename == "") ==> r == Some("No files selected")
  {
    if files.None? then Some("No files uploaded")
    else if files.value == [] || files.value[0].filename == "" then Some("No files selected")
    else None
  }

  /** `save_to_persistence` as a function of the disk. */
  function PersistedFiles(files: map<string, Stored>, persistenceFile: Option<string>, h: seq<Entry>, canWrite: bool)
    : map<string, Stored>
  {
    if Configured(persistenceFile) && h != [] && Dirname(persistenceFile.value) != "" && canWrite
    then files[persistenceFile.value := RecordFile(PersistedContent(h))]
    else files
  }

  // ---------------------------------------------------------- batch partition

  /** An entry of the 'errors' list. */
  datatype FileError = FileError(filename: string, error: Error)

  /** The number of files whose names pass `allowed_file`. */
  function CountAllowed(files: seq<Upload>): nat {
    if files == [] then 0
    else CountAllowed(files[..|files| - 1]) + if AllowedFile(files[|files| - 1].filename, AllowedExtensions) then 1 else 0
  }

  /** The 'predictions' and 'errors' lists of `/api/predict/batch`: each
      allowed file contributes its record or its error, in upload order. */
  function Partition(w: Weights, names: seq<string>, hasPreprocessor: bool, folder: string, files: seq<Upload>)
    : (r: (seq<Entry>, seq<FileError>))
  {
    if files == [] then ([], [])
    else
      var (results, errors) := Partition(w, names, hasPreprocessor, folder, files[..|files| - 1]);
      var f := files[|files| - 1];
      if !AllowedFile(f.filename, AllowedExtensions) then (results, errors)
      else match FilePrediction(w, names, hasPreprocessor, Join(folder, f.securedName), f.decoded, f.elapsedMs, f.timestamp)
        case Ok(e) => (results + [e], errors)
        case Err(e) => (results, errors + [FileError(f.securedName, e)])
  }

  /** The secured names of the allowed files. */
  function AllowedNames(files: seq<Upload>): set<string> {
    set i | 0 <= i < |files| && AllowedFile(files[i].filename, AllowedExtensions) :: files[i].securedName
  }

  /** Every allowed file lands in exactly one of the two lists, every
      disallowed one in neither, and an error names an allowed file by its
      secured name. */
  lemma {:induction false} PartitionCounts(w: Weights, names: seq<string>, hasPreprocessor: bool, folder: string, files: seq<Upload>)
    ensures |Partition(w, names, hasPreprocessor, folder, files).0| + |Partition(w, names, hasPreprocessor, folder, files).1|
      == CountAllowed(files)
    ensures forall k :: 0 <= k < |Partition(w, names, hasPreprocessor, folder, files).1| ==>
      Partition(w, names, hasPreprocessor, folder, files).1[k].filename in AllowedNames(files)
  {
    if files != [] {
      var init := files[..|files| - 1];
      PartitionCounts(w, names, hasPreprocessor, folder, init);
      var errors := Partition(w, names, hasPreprocessor, folder, files).1;
      var prior := Partition(w, names, hasPreprocessor, folder, init).1;
      assert errors[..|prior|] == prior;
      assert AllowedNames(init) <= AllowedNames(files) by {
        forall x | x in AllowedNames(init) ensures x in AllowedNames(files) {
          var i :| 0 <= i < |init| && AllowedFile(init[i].filename, AllowedExtensions) && init[i].securedName == x;
          assert files[i] == init[i];
        }
      }
      if |errors| > |prior| {
        assert errors[|prior|].filename == files[|files| - 1].securedName;
      }
    }
  }

  /** A batch of files none of which is allowed gives two empty lists. */
  lemma {:induction false} PartitionNoneAllowed(w: Weights, names: seq<string>, hasPreprocessor: bool, folder: string,
                                                files: seq<Upload>)
    requires forall i :: 0 <= i < |files| ==> !AllowedFile(files[i].filename, AllowedExtensions)
    ensures Partition(w, names, hasPreprocessor, folder, files) == ([], [])
  {
    if files != [] {
      PartitionNoneAllowed(w, names, hasPreprocessor, folder, files[..|files| - 1]);
    }
  }

  /** The upload paths a batch writes and removes again. */
  function UploadPaths(folder: string, files: seq<Upload>): set<string> {
    if files == [] then {}
    else
      var last := files[|files| - 1];
      UploadPaths(folder, files[..|files| - 1]) + (if AllowedFile(last.filename, AllowedExtensions) then {Join(folder, last.securedName)} else {})
  }

  /** One more file with a disallowed name changes neither the two lists nor
      the written paths. */
  lemma PartitionSkip(w: Weights, names: seq<string>, folder: string, fs: seq<Upload>, i: nat)
    requires i < |fs| && !AllowedFile(fs[i].filename, AllowedExtensions)
    ensures Partition(w, names, true, folder, fs[..i + 1]) == Partition(w, names, true, folder, fs[..i])
    ensures UploadPaths(folder, fs[..i + 1]) == UploadPaths(folder, fs[..i])
  {
    assert fs[..i + 1][..i] == fs[..i];
  }

  /** One more file with an allowed name adds its upload path to the written
      paths. */
  lemma UploadPathsTake(folder: string, fs: seq<Upload>, i: nat)
    requires i < |fs| && AllowedFile(fs[i].filename, AllowedExtensions)
    ensures UploadPaths(folder, fs[..i + 1]) == UploadPaths(folder, fs[..i]) + {Join(folder, fs[i].securedName)}
  {
    var prefix := fs[..i + 1];
    assert prefix[..|prefix| - 1] == fs[..i] && prefix[|prefix| - 1] == fs[i];
  }

  /** One more file with an allowed name adds its record `r` or its error to
      the two lists. */
  lemma PartitionTake(w: Weights, names: seq<string>, folder: string, fs: seq<Upload>, i: nat, r: Result<Entry>)
    requires i < |fs| && AllowedFile(fs[i].filename, AllowedExtensions)
    requires r == FilePrediction(w, names, true, Join(folder, fs[i].securedName), fs[i].decoded, fs[i].elapsedMs, fs[i].timestamp)
    ensures var (results, errors) := Partition(w, names, true, folder, fs[..i]);
      Partition(w, names, true, folder, fs[..i + 1]) ==
        if r.Ok? then (results + [r.value], errors) else (results, errors + [FileError(fs[i].securedName, r.error)])
  {
    var prefix := fs[..i + 1];
    assert prefix[..|prefix| - 1] == fs[..i] && prefix[|prefix| - 1] == fs[i];
  }

  lemma RemoveOneMore(m: map<string, Stored>, a: set<string>, p: string)
    ensures (m - a) - {p} == m - (a + {p})
  {
  }

  /** The body of a successful batch answer. */
  datatype BatchResponse = BatchResponse(totalProcessed: nat, totalErrors: nat, predictions: seq<Entry>, errors: seq<FileError>)

  // ---------------------------------------------------------- training upload

  /** An entry of the 'files' list of `/api/upload/training-data`. */
  datatype SavedUpload = SavedUpload(filename: string, labelName: string, path: string)

  /** The rejection of `/api/upload/training-data`: no 'files' part, an empty
      list or empty first name, or as many labels as files not given. */
  function UploadRejection(files: Option<seq<Upload>>, labels: seq<string>): (r: Option<string>)
    ensures r.None? <==> files.Some? && files.value != [] && files.value[0].filename != "" && |files.value| == |labels|
    ensures files.None? ==> r == Some("No files uploaded")
    ensures files.Some? && (files.value == [] || files.value[0].filename == "") ==> r == Some("No files selected")
    ensures files.Some? && files.value != [] && files.value[0].filename != "" && |files.value| != |labels| ==>
      r == Some("Number of files and labels must match")
  {
    if files.None? then Some("No files uploaded")
    else if files.value == [] || files.value[0].filename == "" then Some("No files selected")
    else if |files.value| != |labels| then Some("Number of files and labels must match")
    else None
  }

  /** What the upload saves for file `f` with label `labelName`: `<label>_<name>` in
      the 'uploaded' directory. */
  function SavedAs(dir: string, f: Upload, labelName: string): SavedUpload {
    var name := labelName + "_" + f.securedName;
    SavedUpload(name, labelName, Join(dir, name))
  }

  /** The 'files' list: one entry per allowed file, in order. */
  function SavedUploads(dir: string, files: seq<Upload>, labels: seq<string>): (r: seq<SavedUpload>)
    requires |files| == |labels|
  {
    if files == [] then []
    else
      var prior := SavedUploads(dir, files[..|files| - 1], labels[..|labels| - 1]);
      var f := files[|files| - 1];
      if AllowedFile(f.filename, AllowedExtensions) then prior + [SavedAs(dir, f, labels[|labels| - 1])] else prior
  }

  /** What the upload would save for each allowed file. */
  function AllowedSaves(dir: string, files: seq<Upload>, labels: seq<string>): set<SavedUpload>
    requires |files| == |labels|
  {
    set i | 0 <= i < |files| && AllowedFile(files[i].filename, AllowedExtensions) :: SavedAs(dir, files[i], labels[i])
  }

  /** One entry per allowed file, and every entry is an allowed file's name
      prefixed by that file's own label and an underscore, its path that name
      joined to the upload directory (which a label with a '/' escapes, see
      `SavedAsAbsoluteLabel`). */
  lemma {:induction false} SavedUploadsSpec(dir: string, files: seq<Upload>, labels: seq<string>)
    requires |files| == |labels|
    ensures |SavedUploads(dir, files, labels)| == CountAllowed(files)
    ensures forall k :: 0 <= k < |SavedUploads(dir, files, labels)| ==>
      SavedUploads(dir, files, labels)[k] in AllowedSaves(dir, files, labels)
  {
    if files != [] {
      var n := |files| - 1;
      SavedUploadsSpec(dir, files[..n], labels[..n]);
      var r := SavedUploads(dir, files, labels);
      var prior := SavedUploads(dir, files[..n], labels[..n]);
      assert r[..|prior|] == prior;
      assert AllowedSaves(dir, files[..n], labels[..n]) <= AllowedSaves(dir, files, labels) by {
        forall x | x in AllowedSaves(dir, files[..n], labels[..n]) ensures x in AllowedSaves(dir, files, labels) {
          var i :| 0 <= i < n && AllowedFile(files[..n][i].filename, AllowedExtensions)
            && SavedAs(dir, files[..n][i], labels[..n][i]) == x;
          assert files[..n][i] == files[i] && labels[..n][i] == labels[i];
        }
      }
      if |r| > |prior| {
        assert r[|prior|] == SavedAs(dir, files[n], labels[n]);
      }
    }
  }

  lemma SavedAsName(dir: string, f: Upload, labelName: string)
    ensures SavedAs(dir, f, labelName).filename == labelName + "_" + f.securedName
    ensures SavedAs(dir, f, labelName).labelName == labelName
    ensures SavedAs(dir, f, labelName).path == Join(dir, labelName + "_" + f.securedName)
  {
  }

  /** The label is not passed through `secure_filename`: a label starting
      with '/' makes `os.path.join` drop the upload directory, so the file is
      written wherever the label says. */
  lemma SavedAsAbsoluteLabel(dir: string, f: Upload, labelName: string)
    requires StartsWith(labelName, "/")
    ensures SavedAs(dir, f, labelName).path == labelName + "_" + f.securedName
  {
    assert (labelName + "_" + f.securedName)[..1] == labelName[..1];
  }

  /** The label "/etc/evil" on "cat.png" is saved as /etc/evil_cat.png,
      outside the upload directory. */
  lemma SavedAsEscapes(f: Upload)
    requires f.securedName == "cat.png"
    ensures SavedAs("train/uploaded", f, "/etc/evil").path == "/etc/evil_cat.png"
  {
    SavedAsAbsoluteLabel("train/uploaded", f, "/etc/evil");
  }

  /** The label with its path separators dropped. */
  function WithoutSeparators(s: string): (r: string)
    ensures '/' !in r
    ensures |r| <= |s|
  {
    if s == [] then []
    else WithoutSeparators(s[..|s| - 1]) + (if s[|s| - 1] == '/' then [] else [s[|s| - 1]])
  }

  /** A label without separators is kept as it is. */
  lemma {:induction false} WithoutSeparatorsKeeps(s: string)
    requires '/' !in s
    ensures WithoutSeparators(s) == s
  {
    if s != [] {
      WithoutSeparatorsKeeps(s[..|s| - 1]);
      assert s == s[..|s| - 1] + [s[|s| - 1]];
    }
  }

  /** The save as evidently intended: the label cleaned of separators, like
      the file name, before it prefixes the file name. */
  function ConfinedSavedAs(dir: string, f: Upload, labelName: string): SavedUpload {
    var name := WithoutSeparators(labelName) + "_" + f.securedName;
    SavedUpload(name, labelName, Join(dir, name))
  }

  /** With a file name that `secure_filename` has cleaned of separators,
      the confined save always lands directly in the upload directory, and
      for a label without separators it is the save of the code. */
  lemma ConfinedSavedAsInDir(dir: string, f: Upload, labelName: string)
    requires !EndsWith(dir, "/") && '/' !in f.securedName
    ensures Dirname(ConfinedSavedAs(dir, f, labelName).path) == dir
    ensures '/' !in labelName ==> ConfinedSavedAs(dir, f, labelName) == SavedAs(dir, f, labelName)
  {
    var name := WithoutSeparators(labelName) + "_" + f.securedName;
    assert '/' !in name;
    DirnameOfJoin(dir, name);
    if '/' !in labelName {
      WithoutSeparatorsKeeps(labelName);
    }
  }

  /** The disk after the upload loop: every saved path holds an image and
      every other path is as it was. */
  function StoredUploads(m: map<string, Stored>, dir: string, files: seq<Upload>, labels: seq<string>): map<string, Stored>
    requires |files| == |labels|
  {
    if files == [] then m
    else
      var prior := StoredUploads(m, dir, files[..|files| - 1], labels[..|labels| - 1]);
      var f := files[|files| - 1];
      if AllowedFile(f.filename, AllowedExtensions)
      then prior[SavedAs(dir, f, labels[|labels| - 1]).path := ImageFile(f.decoded)]
      else prior
  }

  /** Every saved entry's path holds an image, every new path is a saved
      entry's, and every other path is as it was. */
  lemma {:induction false} StoredUploadsSpec(m: map<string, Stored>, dir: string, files: seq<Upload>, labels: seq<string>)
    requires |files| == |labels|
    ensures var r := StoredUploads(m, dir, files, labels);
      && (forall s :: s in SavedUploads(dir, files, labels) ==> s.path in r && r[s.path].ImageFile?)
      && (forall p :: p in r && p !in m ==> exists s :: s in SavedUploads(dir, files, labels) && s.path == p)
      && (forall p :: p in m && (forall s :: s in SavedUploads(dir, files, labels) ==> s.path != p) ==>
        p in r && r[p] == m[p])
  {
    if files != [] {
      var n := |files| - 1;
      StoredUploadsSpec(m, dir, files[..n], labels[..n]);
    }
  }

  // ---------------------------------------------------------- retraining

  /** `retraining_status`: `{}` until a job starts, then the payload of the
      job's last step. */
  datatype RetrainingStatus =
    | NoStatus
    | InProgress(startTime: string)
    | Completed(endTime: string, finalAccuracy: real, finalValAccuracy: real)
    | Failed(endTime: string, error: Error)

  /** The answers of `/api/retrain`. */
  datatype TriggerResponse =
    | AlreadyRunning(status: RetrainingStatus)  // 400 with the current status
    | TriggerFailed(error: Error)               // 500
    | Started                                   // the job is handed to a thread

  /** The globals of `app.py` and the configured paths. */
  class Server {
    const classNames: seq<string>
    const uploadFolder: string
    const trainDir: string
    const modelDir: string
    const persistenceFile: Option<string>
    const disk: Disk
    const classifier: ImageClassificationModel
    var predictor: ImagePredictor
    var isRetraining: bool
    var status: RetrainingStatus

    /** The published predictor serves the classifier's own network, so both
        see every in-place update of its weights, and everything shares one
        disk. */
    ghost predicate Valid()
      reads this, classifier, predictor
    {
      && classifier.model != null
      && predictor.network == classifier.model
      && classifier.disk == disk && predictor.disk == disk
      && predictor.classNames == classNames
      && predictor.persistenceFile == persistenceFile
      && predictor.hasPreprocessor
      && predictor.Valid()
    }

    constructor (classifier: ImageClassificationModel, predictor: ImagePredictor, uploadFolder: string,
                 trainDir: string, modelDir: string, persistenceFile: Option<string>, disk: Disk)
      ensures this.classifier == classifier && this.predictor == predictor && this.disk == disk
      ensures this.uploadFolder == uploadFolder && this.trainDir == trainDir && this.modelDir == modelDir
      ensures this.persistenceFile == persistenceFile && this.classNames == ClassNames
      ensures !isRetraining && status == NoStatus
    {
      this.classifier := classifier;
      this.predictor := predictor;
      this.uploadFolder := uploadFolder;
      this.trainDir := trainDir;
      this.modelDir := modelDir;
      this.persistenceFile := persistenceFile;
      this.disk := disk;
      classNames := ClassNames;
      isRetraining := false;
      status := NoStatus;
    }

    /** `/api/predict`: the guards in order, then the upload is saved, the
        predictor records the prediction and the history is flushed; the
        upload is removed afterwards whatever happened. A failed prediction
        skips the flush. */
    method Predict(part: Option<Upload>, canWrite: bool) returns (resp: Response<Entry>)
      requires Valid()
      modifies predictor, disk
      ensures Valid() && predictor == old(predictor)
      ensures PredictRejection(part).Some? ==>
        && resp == BadRequest(PredictRejection(part).value)
        && predictor.history == old(predictor.history) && disk.files == old(disk.files)
      ensures PredictRejection(part).None? ==>
        var up := part.value;
        var path := Join(uploadFolder, up.securedName);
        var f := FilePrediction(predictor.network.weights, classNames, true, path, up.decoded, up.elapsedMs, up.timestamp);
        var saved := old(disk.files)[path := ImageFile(up.decoded)];
        && (f.Ok? ==>
          && resp == Success(f.value)
          && predictor.history == old(predictor.history) + [f.value]
          && disk.files == PersistedFiles(saved, persistenceFile, predictor.history, canWrite) - {path})
        && (f.Err? ==>
          && resp == ServerError(f.error)
          && predictor.history == old(predictor.history)
          && disk.files == saved - {path})
    {
      var rejection := PredictRejection(part);
      if rejection.Some? {
        return BadRequest(rejection.value);
      }
      var up := part.value;
      var path := Join(uploadFolder, up.securedName);
      disk.Write(path, ImageFile(up.decoded));
      var r := predictor.PredictFromFile(path, up.decoded, up.elapsedMs, up.timestamp);
      if r.Err? {
        disk.Remove(path);
        return ServerError(r.error);
      }
      predictor.SaveToPersistence(canWrite);
      disk.Remove(path);
      resp := Success(r.value);
    }

    /** One file of `/api/predict/batch`: it is saved, predicted from and
        removed again; an exception is caught. */
    method PredictUpload(f: Upload) returns (r: Result<Entry>)
      requires Valid()
      modifies predictor, disk
      ensures Valid() && predictor == old(predictor)
      ensures r == FilePrediction(predictor.network.weights, classNames, true, Join(uploadFolder, f.securedName),
                                  f.decoded, f.elapsedMs, f.timestamp)
      ensures r.Ok? ==> predictor.history == old(predictor.history) + [r.value]
      ensures r.Err? ==> predictor.history == old(predictor.history)
      ensures disk.files == old(disk.files) - {Join(uploadFolder, f.securedName)}
    {
      var path := Join(uploadFolder, f.securedName);
      disk.Write(path, ImageFile(f.decoded));
      r := predictor.PredictFromFile(path, f.decoded, f.elapsedMs, f.timestamp);
      disk.Remove(path);
    }

    /** One turn of the batch loop: a disallowed file is skipped, an allowed
        one is predicted from and its record or its error collected. */
    method BatchStep(fs: seq<Upload>, i: nat, results: seq<Entry>, errors: seq<FileError>,
                     ghost h0: seq<Entry>, ghost d0: map<string, Stored>)
      returns (results': seq<Entry>, errors': seq<FileError>)
      requires i < |fs| && Valid()
      requires (results, errors) == Partition(predictor.network.weights, classNames, true, uploadFolder, fs[..i])
      requires predictor.history == h0 + results
      requires disk.files == d0 - UploadPaths(uploadFolder, fs[..i])
      modifies predictor, disk
      ensures Valid() && predictor == old(predictor) && predictor.network.weights == old(predictor.network.weights)
      ensures (results', errors') == Partition(predictor.network.weights, classNames, true, uploadFolder, fs[..i + 1])
      ensures predictor.history == h0 + results'
      ensures disk.files == d0 - UploadPaths(uploadFolder, fs[..i + 1])
    {
      var f := fs[i];
      ghost var w := predictor.network.weights;
      if !AllowedFile(f.filename, AllowedExtensions) {
        PartitionSkip(w, classNames, uploadFolder, fs, i);
        return results, errors;
      }
      RemoveOneMore(d0, UploadPaths(uploadFolder, fs[..i]), Join(uploadFolder, f.securedName));
      var r := PredictUpload(f);
      PartitionTake(w, classNames, uploadFolder, fs, i, r);
      UploadPathsTake(uploadFolder, fs, i);
      if r.Ok? {
        results', errors' := results + [r.value], errors;
      } else {
        results', errors' := results, errors + [FileError(f.securedName, r.error)];
      }
    }

    /** `/api/predict/batch`: the guards, then every allowed file is saved,
        predicted from and removed again, its record or its error collected;
        disallowed files are skipped. The successful records extend the
        history in order and the history is flushed once at the end. */
    method PredictBatch(files: Option<seq<Upload>>, canWrite: bool) returns (resp: Response<BatchResponse>)
      requires Valid()
      modifies predictor, disk
      ensures Valid() && predictor == old(predictor)
      ensures BatchRejection(files).Some? ==>
        && resp == BadRequest(BatchRejection(files).value)
        && predictor.history == old(predictor.history) && disk.files == old(disk.files)
      ensures BatchRejection(files).None? ==>
        var (results, errors) := Partition(predictor.network.weights, classNames, true, uploadFolder, files.value);
        && resp == Success(BatchResponse(|results|, |errors|, results, errors))
        && predictor.history == old(predictor.history) + results
        && disk.files == PersistedFiles(old(disk.files) - UploadPaths(uploadFolder, files.value), persistenceFile,
                                        predictor.history, canWrite)
    {
      var rejection := BatchRejection(files);
      if rejection.Some? {
        return BadRequest(rejection.value);
      }
      var fs := files.value;
      ghost var w := predictor.network.weights;
      ghost var h0 := predictor.history;
      ghost var d0 := disk.files;
      var results: seq<Entry> := [];
      var errors: seq<FileError> := [];
      var i := 0;
      while i < |fs|
        invariant 0 <= i <= |fs|
        invariant Valid() && predictor == old(predictor) && predictor.network.weights == w
        invariant (results, errors) == Partition(w, classNames, true, uploadFolder, fs[..i])
        invariant predictor.history == h0 + results
        invariant disk.files == d0 - UploadPaths(uploadFolder, fs[..i])
      {
        results, errors := BatchStep(fs, i, results, errors, h0, d0);
        i := i + 1;
      }
      assert fs[..i] == fs;
      predictor.SaveToPersistence(canWrite);
      resp := Success(BatchResponse(|results|, |errors|, results, errors));
    }

    /** `/api/upload/training-data`: the guards, then every allowed file is
        saved as `label_name` under `<train dir>/uploaded`; the answer lists
        what was saved. */
    method UploadTrainingData(files: Option<seq<Upload>>, labels: seq<string>) returns (resp: Response<seq<SavedUpload>>)
      modifies disk
      ensures UploadRejection(files, labels).Some? ==>
        resp == BadRequest(UploadRejection(files, labels).value) && disk.files == old(disk.files)
      ensures UploadRejection(files, labels).None? ==>
        var dir := Join(trainDir, "uploaded");
        && resp == Success(SavedUploads(dir, files.value, labels))
        && disk.files == StoredUploads(old(disk.files), dir, files.value, labels)
    {
      var rejection := UploadRejection(files, labels);
      if rejection.Some? {
        return BadRequest(rejection.value);
      }
      var fs := files.value;
      var dir := Join(trainDir, "uploaded");
      var saved: seq<SavedUpload> := [];
      var i := 0;
      while i < |fs|
        invariant 0 <= i <= |fs|
        invariant saved == SavedUploads(dir, fs[..i], labels[..i])
        invariant disk.files == StoredUploads(old(disk.files), dir, fs[..i], labels[..i])
      {
        assert fs[..i + 1][..i] == fs[..i] && labels[..i + 1][..i] == labels[..i];
        if AllowedFile(fs[i].filename, AllowedExtensions) {
          var s := SavedAs(dir, fs[i], labels[i]);
          disk.Write(s.path, ImageFile(fs[i].decoded));
          saved := saved + [s];
        }
        i := i + 1;
      }
      assert fs[..i] == fs && labels[..i] == labels;
      resp := Success(saved);
    }

    /** `/api/retrain`: while a job runs, the current status is returned and
        nothing changes; otherwise the training data is prepared, and a
        failure leaves the flag down while success raises it before the job
        starts. */
    method TriggerRetraining(raw: Result<RawDataset>) returns (resp: TriggerResponse, data: Option<TrainingData>)
      modifies this
      ensures predictor == old(predictor) && status == old(status)
      ensures old(isRetraining) ==> resp == AlreadyRunning(old(status)) && isRetraining && data == None
      ensures !old(isRetraining) && (raw.Err? || PrepareTrainingData(raw.value, false).Err?) ==>
        && resp == TriggerFailed(if raw.Err? then raw.error else PrepareTrainingData(raw.value, false).error)
        && !isRetraining && data == None
      ensures !old(isRetraining) && raw.Ok? && PrepareTrainingData(raw.value, false).Ok? ==>
        resp == Started && isRetraining && data == Some(PrepareTrainingData(raw.value, false).value)
    {
      data := None;
      if isRetraining {
        return AlreadyRunning(status), data;
      }
      if raw.Err? {
        isRetraining := false;
        return TriggerFailed(raw.error), data;
      }
      var prepared := PrepareTrainingData(raw.value, false);
      if prepared.Err? {
        isRetraining := false;
        return TriggerFailed(prepared.error), data;
      }
      isRetraining := true;
      resp, data := Started, Some(prepared.value);
    }

    /** The first step of `retrain_model_background`. */
    method JobStart(startTime: string)
      modifies this
      ensures status == InProgress(startTime)
      ensures predictor == old(predictor) && isRetraining == old(isRetraining)
    {
      status := InProgress(startTime);
    }

    /** The body of `retrain_model_background`'s `try`: the live classifier
        is retrained in place and saved, then a brand-new predictor with an
        empty history is published and the status records the last
        accuracies. Any exception leaves the published predictor as it was and
        records the error, although the fit, whether it succeeded or raised
        part-way, has already changed the network that predictor serves. */
    method JobRetrain(outcome: FitOutcome, timestamp: string, endTime: string)
      requires Valid()
      modifies this, classifier, classifier.model, disk
      ensures Valid() && classifier.model == old(classifier.model) && isRetraining == old(isRetraining)
      ensures outcome.FitFailed? ==>
        && status == Failed(endTime, Raised(outcome.message))
        && predictor == old(predictor) && classifier.model.weights == outcome.reached
        && classifier.trainingMetadata == old(classifier.trainingMetadata) && disk.files == old(disk.files)
      ensures outcome.Fitted? ==> classifier.model.weights == outcome.weights
      ensures outcome.Fitted? && RetrainSummary(outcome.history, timestamp).Err? ==>
        && status == Failed(endTime, IndexError)
        && predictor == old(predictor) && classifier.trainingMetadata == old(classifier.trainingMetadata)
        && disk.files == old(disk.files)
      ensures outcome.Fitted? && RetrainSummary(outcome.history, timestamp).Ok? ==>
        var h := outcome.history;
        && classifier.trainingMetadata == AppendRetrain(old(classifier.trainingMetadata), RetrainSummary(h, timestamp).value)
        && (modelDir == "" ==>
          && status.Failed? && status.endTime == endTime && status.error.FileNotFoundError?
          && predictor == old(predictor) && disk.files == old(disk.files))
        && (modelDir != "" ==>
          && status == Completed(endTime, h.accuracy[|h.accuracy| - 1], h.valAccuracy[|h.valAccuracy| - 1])
          && fresh(predictor) && predictor.history == []
          && disk.files == SavedFiles(old(disk.files), modelDir, ModelName, outcome.weights, classifier.inputShape,
                                      classifier.numClasses, classifier.trainingMetadata, classifier.history))
    {
      var r := classifier.RetrainModel(outcome, timestamp);
      if r.Err? {
        status := Failed(endTime, r.error);
        return;
      }
      var h := r.value;
      var err := classifier.SaveModel(modelDir, ModelName);
      if err.Some? {
        status := Failed(endTime, err.value);
        return;
      }
      predictor := new ImagePredictor(classifier.model, classNames, true, persistenceFile, disk);
      status := Completed(endTime, h.accuracy[|h.accuracy| - 1], h.valAccuracy[|h.valAccuracy| - 1]);
    }

    /** The `finally` of `retrain_model_background`. */
    method JobFinally()
      modifies this
      ensures !isRetraining && status == old(status) && predictor == old(predictor)
    {
      isRetraining := false;
    }

    /** `retrain_model_background` run to its end: whatever happened, the
        flag is down and the status is a final one. */
    method RetrainModelBackground(outcome: FitOutcome, timestamp: string, startTime: string, endTime: string)
      requires Valid()
      modifies this, classifier, classifier.model, disk
      ensures Valid() && !isRetraining
      ensures status.Completed? || status.Failed?
      ensures status.Completed? <==>
        outcome.Fitted? && RetrainSummary(outcome.history, timestamp).Ok? && modelDir != ""
      ensures status.Completed? ==> fresh(predictor) && predictor.history == [] && status.endTime == endTime
      ensures status.Failed? ==> predictor == old(predictor) && status.endTime == endTime
      ensures classifier.model == old(classifier.model)
      ensures outcome.FitFailed? ==>
        && status == Failed(endTime, Raised(outcome.message)) && classifier.model.weights == outcome.reached
        && classifier.trainingMetadata == old(classifier.trainingMetadata) && disk.files == old(disk.files)
      ensures outcome.Fitted? ==> classifier.model.weights == outcome.weights
      ensures outcome.Fitted? && RetrainSummary(outcome.history, timestamp).Err? ==>
        && status == Failed(endTime, IndexError)
        && classifier.trainingMetadata == old(classifier.trainingMetadata) && disk.files == old(disk.files)
      ensures outcome.Fitted? && RetrainSummary(outcome.history, timestamp).Ok? ==>
        && classifier.trainingMetadata
           == AppendRetrain(old(classifier.trainingMetadata), RetrainSummary(outcome.history, timestamp).value)
        && (modelDir == "" ==> status.error.FileNotFoundError? && disk.files == old(disk.files))
        && (modelDir != "" ==>
          disk.files == SavedFiles(old(disk.files), modelDir, ModelName, outcome.weights, classifier.inputShape,
                                   classifier.numClasses, classifier.trainingMetadata, classifier.history))
    {
      JobStart(startTime);
      JobRetrain(outcome, timestamp, endTime);
      JobFinally();
    }

    /** `/api/retrain/status`: it only reads the state. */
    method GetRetrainingStatus() returns (running: bool, s: RetrainingStatus)
      ensures running == isRetraining && s == status
    {
      running, s := isRetraining, status;
    }
  }

  /** `load_model_on_startup`: the latest saved model, or a freshly created
      one when there is none (any other loading error is fatal), wrapped in a
      predictor that reloads the persisted history; the only change to the
      disk is a corrupt record file moved aside to `.backup`. */
  method Startup(modelDir: string, uploadFolder: string, trainDir: string, persistenceFile: Option<string>,
                 disk: Disk, initial: Weights, canRename: bool) returns (r: Result<Server>)
    modifies disk
    ensures var latest := old(LatestModel(disk.files, modelDir));
      && (r.Err? <==> latest.Err? && !latest.error.FileNotFoundError?)
      && (r.Err? ==> r.error == latest.error && disk.files == old(disk.files))
    ensures r.Ok? ==>
      var latest := old(LatestModel(disk.files, modelDir));
      && fresh(r.value) && r.value.Valid() && !r.value.isRetraining && r.value.status == NoStatus
      && r.value.disk == disk && r.value.modelDir == modelDir && r.value.persistenceFile == persistenceFile
      && r.value.classifier.model.weights == (if latest.Ok? then latest.value.0 else initial)
      && r.value.classifier.trainingMetadata == (if latest.Ok? then latest.value.1 else EmptyMetadata)
      && (Configured(persistenceFile) && persistenceFile.value in old(disk.files) ==>
        r.value.predictor.history == LoadedHistory(old(disk.files)[persistenceFile.value]))
      && (!Configured(persistenceFile) || persistenceFile.value !in old(disk.files) ==> r.value.predictor.history == [])
    ensures r.Ok? ==>
      if Configured(persistenceFile) && persistenceFile.value in old(disk.files)
         && old(disk.files)[persistenceFile.value] == RecordFile(Malformed) && canRename
      then
        var path := persistenceFile.value;
        disk.files == (old(disk.files) - {path})[path + ".backup" := old(disk.files)[path]]
      else disk.files == old(disk.files)
  {
    var loaded := LoadLatestModel(modelDir, disk);
    var classifier: ImageClassificationModel;
    if loaded.Ok? {
      classifier := loaded.value;
    } else if loaded.error.FileNotFoundError? {
      classifier := new ImageClassificationModel(InputShape, NumClasses, disk);
      var _ := classifier.CreateCnnModel(initial);
    } else {
      return Err(loaded.error);
    }
    var predictor := new ImagePredictor(classifier.model, ClassNames, true, persistenceFile, disk);
    predictor.LoadFromPersistence(canRename);
    var server := new Server(classifier, predictor, uploadFolder, trainDir, modelDir, persistenceFile, disk);
    r := Ok(server);
  }
}
