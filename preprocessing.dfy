/** The data preprocessing rules: pixel normalisation, single-image shape
    validation, label encodings, the training-data bundle, the folder filter
    and the dataset statistics. Images arrive as arrays of 8-bit pixels (what
    CIFAR-10 and PIL hand over); the normalised forms are real tensors. */
module Preprocessing {
  import opened Base
  import opened Artifact
  import opened Scoring

  const ClassNames: seq<string> :=
    ["Airplane", "Automobile", "Bird", "Cat", "Deer", "Dog", "Frog", "Horse", "Ship", "Truck"]
  const InputShape: seq<nat> := [32, 32, 3]
  const NumClasses: nat := 10

  type Byte = x: int | 0 <= x < 256

  /** A uint8 numpy array: its shape and its pixels in row-major order. */
  datatype Pixels = Pixels(shape: seq<nat>, values: seq<Byte>)

  /** `images.astype('float32') / 255.0`: every pixel becomes a real in [0, 1]
      that is the pixel's 255th part. */
  function NormalizeImages(a: Pixels): (r: Tensor)
    ensures r.shape == a.shape && |r.values| == |a.values|
    ensures forall i :: 0 <= i < |a.values| ==>
      0.0 <= r.values[i] <= 1.0 && r.values[i] * 255.0 == a.values[i] as real
  {
    Tensor(a.shape, seq(|a.values|, i requires 0 <= i < |a.values| => a.values[i] as real / 255.0))
  }

  /** `preprocess_single_image`: ValueError unless the shape is exactly
      (32, 32, 3); otherwise the normalised image with a batch axis in front. */
  function PreprocessSingleImage(img: Pixels): (r: Result<Tensor>)
    ensures r.Ok? <==> img.shape == InputShape
    ensures r.Ok? ==> (
      && r.value.shape == [1, 32, 32, 3]
      && r.value.values == NormalizeImages(img).values
      && (forall i :: 0 <= i < |r.value.values| ==> 0.0 <= r.value.values[i] <= 1.0))
  {
    if img.shape != InputShape then Err(ValueError("Image must have shape (32, 32, 3)"))
    else
      var n := NormalizeImages(img);
      Ok(Tensor([1] + n.shape, n.values))
  }

  /** `load_and_preprocess_uploaded_image`. Opening the file, converting it to
      RGB and resizing it to 32x32 are PIL's work: `decoded` is the array that
      gives, or the exception PIL raised. */
  function LoadAndPreprocessUploadedImage(decoded: Result<Pixels>): (r: Result<Tensor>)
    ensures decoded.Err? ==> r == Err(decoded.error)
    ensures decoded.Ok? ==> r == PreprocessSingleImage(decoded.value)
  {
    match decoded
    case Err(e) => Err(e)
    case Ok(img) => PreprocessSingleImage(img)
  }

  // ----------------------------------------------------------------- labels

  /** `labels.flatten()` of a two-dimensional label array, row by row. */
  function Flatten(rows: seq<seq<int>>): (r: seq<int>) {
    if rows == [] then [] else Flatten(rows[..|rows| - 1]) + rows[|rows| - 1]
  }

  /** A column of labels, shape (N, 1) as CIFAR-10 gives it, flattens to its
      N labels in order. */
  lemma {:induction false} FlattenColumn(rows: seq<seq<int>>)
    requires forall i :: 0 <= i < |rows| ==> |rows[i]| == 1
    ensures |Flatten(rows)| == |rows|
    ensures forall i :: 0 <= i < |rows| ==> Flatten(rows)[i] == rows[i][0]
  {
    if rows != [] {
      FlattenColumn(rows[..|rows| - 1]);
    }
  }

  /** The one-hot row of class `k` among `n`. */
  function OneHot(k: nat, n: nat): (r: seq<real>)
    ensures |r| == n
  {
    seq(n, j requires 0 <= j < n => if j == k then 1.0 else 0.0)
  }

  /** `to_categorical(labels, n)` on flat labels: one one-hot row per label,
      with numpy's wrap-around for negative labels; IndexError for any label
      outside [-n, n). */
  function ToCategorical(labels: seq<int>, n: nat): (r: Result<seq<seq<real>>>)
    ensures r.Ok? <==> forall i :: 0 <= i < |labels| ==> PyIndex(labels[i], n).Some?
    ensures r.Ok? ==> |r.value| == |labels|
    ensures r.Ok? ==> forall i :: 0 <= i < |labels| ==> r.value[i] == OneHot(PyIndex(labels[i], n).value, n)
  {
    if forall i :: 0 <= i < |labels| ==> PyIndex(labels[i], n).Some? then
      Ok(seq(|labels|, i requires 0 <= i < |labels| => OneHot(PyIndex(labels[i], n).value, n)))
    else Err(IndexError)
  }

  /** A one-hot row holds a single 1 at its class, so it sums to 1. */
  lemma OneHotSumsToOne(k: nat, n: nat)
    requires k < n
    ensures Sum(OneHot(k, n)) == 1.0
    ensures forall j :: 0 <= j < n ==> (OneHot(k, n)[j] == 1.0 <==> j == k)
  {
    OneHotPrefixSum(k, n, n);
    assert OneHot(k, n)[..n] == OneHot(k, n);
  }

  lemma {:induction false} OneHotPrefixSum(k: nat, n: nat, m: nat)
    requires k < n && m <= n
    ensures Sum(OneHot(k, n)[..m]) == if k < m then 1.0 else 0.0
  {
    if m > 0 {
      OneHotPrefixSum(k, n, m - 1);
      assert OneHot(k, n)[..m][..m - 1] == OneHot(k, n)[..m - 1];
    } else {
      assert OneHot(k, n)[..m] == [];
    }
  }

  /** Decoding a one-hot row with arg-max gives its class back. */
  lemma OneHotArgMax(k: nat, n: nat)
    requires k < n
    ensures ArgMax(OneHot(k, n)) == k
  {
    var r := OneHot(k, n);
    var a := ArgMax(r);
    assert r[k] == 1.0;
    assert r[a] == 1.0;
  }

  datatype Labels = Categorical(rows: seq<seq<real>>) | FlatLabels(values: seq<int>)

  /** `preprocess_labels`: one-hot rows over the ten classes when
      `categorical`, otherwise the flattened labels. */
  function PreprocessLabels(labels: seq<seq<int>>, categorical: bool): (r: Result<Labels>)
    ensures !categorical ==> r == Ok(FlatLabels(Flatten(labels)))
    ensures categorical ==> match ToCategorical(Flatten(labels), NumClasses)
      case Ok(rows) => r == Ok(Categorical(rows))
      case Err(e) => r == Err(e)
  {
    if categorical then
      match ToCategorical(Flatten(labels), NumClasses)
      case Ok(rows) => Ok(Categorical(rows))
      case Err(e) => Err(e)
    else Ok(FlatLabels(Flatten(labels)))
  }

  /** Categorical labels of a CIFAR-10 label column: one row of ten per label,
      summing to 1, whose arg-max is the label. */
  lemma PreprocessLabelsOneHot(labels: seq<seq<int>>)
    requires forall i :: 0 <= i < |labels| ==> |labels[i]| == 1 && 0 <= labels[i][0] < NumClasses
    ensures PreprocessLabels(labels, true).Ok?
    ensures PreprocessLabels(labels, true).value.Categorical?
    ensures |PreprocessLabels(labels, true).value.rows| == |labels|
    ensures forall i :: 0 <= i < |labels| ==>
      var row := PreprocessLabels(labels, true).value.rows[i];
      |row| == NumClasses && Sum(row) == 1.0 && ArgMax(row) == labels[i][0]
  {
    FlattenColumn(labels);
    var flat := Flatten(labels);
    var rows := ToCategorical(flat, NumClasses).value;
    forall i | 0 <= i < |labels|
      ensures |rows[i]| == NumClasses && Sum(rows[i]) == 1.0 && ArgMax(rows[i]) == labels[i][0]
    {
      assert flat[i] == labels[i][0];
      OneHotSumsToOne(labels[i][0], NumClasses);
      OneHotArgMax(labels[i][0], NumClasses);
    }
  }

  // ------------------------------------------------------- training bundle

  /** The options of the `ImageDataGenerator` that augmentation adds. */
  datatype Augmentation = Augmentation(
    rotationRange: int,
    widthShiftRange: real,
    heightShiftRange: real,
    horizontalFlip: bool,
    zoomRange: real,
    fillMode: string)

  const DefaultAugmentation := Augmentation(15, 0.1, 0.1, true, 0.1, "nearest")

  /** The CIFAR-10 arrays as `cifar10.load_data` returns them. */
  datatype RawDataset = RawDataset(
    trainImages: Pixels,
    trainLabels: seq<seq<int>>,
    testImages: Pixels,
    testLabels: seq<seq<int>>)

  /** The dict `prepare_training_data` returns; `dataGenerator` is the
      optional 'data_generator' key. */
  datatype TrainingData = TrainingData(
    xTrain: Tensor,
    yTrain: seq<seq<real>>,
    xTest: Tensor,
    yTest: seq<seq<real>>,
    classNames: seq<string>,
    inputShape: seq<nat>,
    numClasses: nat,
    dataGenerator: Option<Augmentation>)

  const AlwaysKeys: set<string> :=
    {"X_train", "y_train", "X_test", "y_test", "class_names", "input_shape", "num_classes"}

  /** The keys of the dict. */
  function Keys(d: TrainingData): set<string> {
    AlwaysKeys + (if d.dataGenerator.Some? then {"data_generator"} else {})
  }

  function PrepareTrainingData(raw: RawDataset, withAugmentation: bool): (r: Result<TrainingData>)
    ensures r.Ok? <==>
      ToCategorical(Flatten(raw.trainLabels), NumClasses).Ok? && ToCategorical(Flatten(raw.testLabels), NumClasses).Ok?
    ensures r.Ok? ==> (
      && r.value.xTrain == NormalizeImages(raw.trainImages)
      && r.value.xTest == NormalizeImages(raw.testImages)
      && r.value.yTrain == ToCategorical(Flatten(raw.trainLabels), NumClasses).value
      && r.value.yTest == ToCategorical(Flatten(raw.testLabels), NumClasses).value
      && r.value.classNames == ClassNames && r.value.inputShape == InputShape
      && r.value.numClasses == NumClasses
      && (withAugmentation ==> r.value.dataGenerator == Some(DefaultAugmentation)))
    ensures r.Ok? ==> ("data_generator" in Keys(r.value) <==> withAugmentation)
    ensures r.Ok? ==> AlwaysKeys <= Keys(r.value) && |Keys(r.value)| == if withAugmentation then 8 else 7
  {
    match (PreprocessLabels(raw.trainLabels, true), PreprocessLabels(raw.testLabels, true))
    case (Ok(Categorical(yTrain)), Ok(Categorical(yTest))) =>
      Ok(TrainingData(NormalizeImages(raw.trainImages), yTrain, NormalizeImages(raw.testImages), yTest,
        ClassNames, InputShape, NumClasses, if withAugmentation then Some(DefaultAugmentation) else None))
    case _ => Err(IndexError)
  }

  // ---------------------------------------------------------- folder batch

  /** One directory entry: its name and what loading it would give. */
  datatype FolderEntry = FolderEntry(name: string, decoded: Result<Pixels>)

  /** `filename.lower().endswith(('.png', '.jpg', '.jpeg'))`. */
  predicate HasImageExtension(name: string) {
    var l := Lower(name);
    EndsWith(l, ".png") || EndsWith(l, ".jpg") || EndsWith(l, ".jpeg")
  }

  /** `img[0]` of a batch of one. */
  function Unbatch(t: Tensor): (r: Tensor)
    requires t.shape != []
    ensures r.shape == t.shape[1..]
  {
    Tensor(t.shape[1..], t.values)
  }

  /** The entries `batch_preprocess_images` keeps, in directory order: those
      with an image extension whose loading succeeds, with their unbatched
      images. */
  function Accepted(entries: seq<FolderEntry>): (r: seq<(Tensor, string)>)
    ensures |r| <= |entries|
    ensures forall k :: 0 <= k < |r| ==> HasImageExtension(r[k].1)
    ensures forall k :: 0 <= k < |r| ==> r[k].0.shape == InputShape
    ensures forall k :: 0 <= k < |r| ==> exists j :: 0 <= j < |entries| && entries[j].name == r[k].1
  {
    if entries == [] then []
    else
      var init := Accepted(entries[..|entries| - 1]);
      var e := entries[|entries| - 1];
      if HasImageExtension(e.name) && LoadAndPreprocessUploadedImage(e.decoded).Ok? then
        init + [(Unbatch(LoadAndPreprocessUploadedImage(e.decoded).value), e.name)]
      else init
  }

  /** Every entry with an image extension that loads is kept. */
  lemma {:induction false} AcceptedComplete(entries: seq<FolderEntry>, j: nat)
    requires j < |entries|
    requires HasImageExtension(entries[j].name) && LoadAndPreprocessUploadedImage(entries[j].decoded).Ok?
    ensures exists k :: 0 <= k < |Accepted(entries)| && Accepted(entries)[k].1 == entries[j].name
  {
    var init := entries[..|entries| - 1];
    if j < |entries| - 1 {
      AcceptedComplete(init, j);
      var k :| 0 <= k < |Accepted(init)| && Accepted(init)[k].1 == init[j].name;
      assert Accepted(entries)[k] == Accepted(init)[k];
    } else {
      assert Accepted(entries)[|Accepted(init)|].1 == entries[j].name;
    }
  }

  /** `batch_preprocess_images`: the images and the file names of the entries
      kept, as two aligned lists, or (None, None) when none was kept. */
  method BatchPreprocessImages(entries: seq<FolderEntry>) returns (images: Option<seq<Tensor>>, filenames: Option<seq<string>>)
    ensures images.None? <==> Accepted(entries) == []
    ensures filenames.None? <==> images.None?
    ensures images.Some? ==> (
      && |images.value| == |filenames.value| == |Accepted(entries)|
      && (forall k :: 0 <= k < |images.value| ==>
        images.value[k] == Accepted(entries)[k].0 && filenames.value[k] == Accepted(entries)[k].1))
  {
    var imgs: seq<Tensor> := [];
    var names: seq<string> := [];
    var i := 0;
    while i < |entries|
      invariant 0 <= i <= |entries|
      invariant |imgs| == |names| == |Accepted(entries[..i])|
      invariant forall k :: 0 <= k < |imgs| ==>
        imgs[k] == Accepted(entries[..i])[k].0 && names[k] == Accepted(entries[..i])[k].1
    {
      var e := entries[i];
      assert entries[..i + 1][..i] == entries[..i];
      if HasImageExtension(e.name) {
        var loaded := LoadAndPreprocessUploadedImage(e.decoded);
        if loaded.Ok? {
          imgs := imgs + [Unbatch(loaded.value)];
          names := names + [e.name];
        }
      }
      i := i + 1;
    }
    assert entries[..i] == entries;
    if imgs != [] {
      images, filenames := Some(imgs), Some(names);
    } else {
      images, filenames := None, None;
    }
  }

  // ------------------------------------------------------------- statistics

  /** A bound on the magnitude of every label. */
  function MaxMagnitude(y: seq<int>): (m: nat)
    ensures forall i :: 0 <= i < |y| ==> -(m as int) <= y[i] <= m
  {
    if y == [] then 0
    else
      var m := MaxMagnitude(y[..|y| - 1]);
      var a := if y[|y| - 1] < 0 then -y[|y| - 1] else y[|y| - 1];
      if a > m then a else m
  }

  /** The class-distribution dict built over the distinct labels in [lo, hi),
      in ascending order: `class_names[label]` maps to the label's count, a
      later label overwriting an earlier one of the same name. */
  function DistributionBelow(y: seq<int>, names: seq<string>, lo: int, hi: int): (r: Result<map<string, nat>>)
    decreases hi - lo
  {
    if hi <= lo then Ok(map[])
    else
      match DistributionBelow(y, names, lo, hi - 1)
      case Err(e) => Err(e)
      case Ok(m) =>
        var v := hi - 1;
        if v !in y then Ok(m)
        else match PyIndex(v, |names|)
          case None => Err(IndexError)
          case Some(k) => Ok(m[names[k] := Count(y, v)])
  }

  /** The 'class_distribution' entry of `get_data_statistics`. */
  function ClassDistribution(y: seq<int>, names: seq<string>): Result<map<string, nat>> {
    var m := MaxMagnitude(y);
    DistributionBelow(y, names, -(m as int), m + 1)
  }

  lemma {:induction false} DistributionBelowSpec(y: seq<int>, names: seq<string>, lo: int, hi: int)
    ensures DistributionBelow(y, names, lo, hi).Ok? <==>
      forall i :: 0 <= i < |y| && lo <= y[i] < hi ==> PyIndex(y[i], |names|).Some?
    ensures DistributionBelow(y, names, lo, hi).Ok? ==>
      forall k :: k in DistributionBelow(y, names, lo, hi).value ==> k in names
    decreases hi - lo
  {
    if hi > lo {
      DistributionBelowSpec(y, names, lo, hi - 1);
      var v := hi - 1;
      if v in y && PyIndex(v, |names|).None? {
        var i :| 0 <= i < |y| && y[i] == v;
      }
    }
  }

  /** With duplicate-free names and labels in [0, n), class `c` has an entry
      exactly when it occurs, and the entry is its number of occurrences. */
  lemma {:induction false} DistributionBelowCounts(y: seq<int>, names: seq<string>, lo: int, hi: int)
    requires Distinct(names)
    requires forall i :: 0 <= i < |y| ==> 0 <= y[i] < |names|
    requires DistributionBelow(y, names, lo, hi).Ok?
    ensures forall c :: 0 <= c < |names| ==>
      (names[c] in DistributionBelow(y, names, lo, hi).value <==> c in y && lo <= c < hi)
    ensures forall c :: 0 <= c < |names| && names[c] in DistributionBelow(y, names, lo, hi).value ==>
      DistributionBelow(y, names, lo, hi).value[names[c]] == Count(y, c)
    decreases hi - lo
  {
    if hi > lo {
      DistributionBelowCounts(y, names, lo, hi - 1);
    }
  }

  /** The classes 0, 1, ..., n - 1. */
  function Classes(n: nat): (r: seq<int>)
    ensures |r| == n && forall c :: 0 <= c < n ==> r[c] == c
  {
    if n == 0 then [] else Classes(n - 1) + [n - 1]
  }

  lemma {:induction false} TotalCountIsSumCounts(y: seq<int>, m: map<string, nat>, names: seq<string>, n: nat)
    requires n <= |names|
    requires forall c :: 0 <= c < |names| ==> (names[c] in m <==> c in y)
    requires forall c :: 0 <= c < |names| && names[c] in m ==> m[names[c]] == Count(y, c)
    ensures TotalCount(m, names[..n]) == SumCounts(y, Classes(n))
  {
    if n > 0 {
      assert names[..n][..n - 1] == names[..n - 1];
      TotalCountIsSumCounts(y, m, names, n - 1);
      assert Classes(n)[..n - 1] == Classes(n - 1);
      CountPositiveIff(y, n - 1);
    }
  }

  /** `get_data_statistics` on labels in [0, n) and duplicate-free class names:
      one entry per class present, at most n entries, and the counts add up to
      the number of labels. */
  lemma ClassDistributionSpec(y: seq<int>, names: seq<string>)
    requires Distinct(names)
    requires forall i :: 0 <= i < |y| ==> 0 <= y[i] < |names|
    ensures ClassDistribution(y, names).Ok?
    ensures forall c :: 0 <= c < |names| ==> (names[c] in ClassDistribution(y, names).value <==> c in y)
    ensures forall c :: 0 <= c < |names| && c in y ==> ClassDistribution(y, names).value[names[c]] == Count(y, c)
    ensures |ClassDistribution(y, names).value| <= |names|
    ensures TotalCount(ClassDistribution(y, names).value, names) == |y|
  {
    var mag := MaxMagnitude(y);
    var lo, hi := -(mag as int), mag + 1;
    var d := ClassDistribution(y, names);
    assert d == DistributionBelow(y, names, lo, hi);
    DistributionBelowSpec(y, names, lo, hi);
    DistributionBelowCounts(y, names, lo, hi);
    var m := d.value;
    KeysAtMostNames(m, names);
    TotalCountOfCounts(y, m, names);
  }

  /** A dict keyed by class names has at most one key per name. */
  lemma KeysAtMostNames(m: map<string, nat>, names: seq<string>)
    requires forall k :: k in m ==> k in names
    ensures |m| <= |names|
  {
    assert m.Keys <= set n | n in names;
    ElementsAtMostLength(names);
    SubsetSize(m.Keys, set n | n in names);
  }

  lemma TotalCountOfCounts(y: seq<int>, m: map<string, nat>, names: seq<string>)
    requires Distinct(names)
    requires forall i :: 0 <= i < |y| ==> 0 <= y[i] < |names|
    requires forall c :: 0 <= c < |names| ==> (names[c] in m <==> c in y)
    requires forall c :: 0 <= c < |names| && names[c] in m ==> m[names[c]] == Count(y, c)
    ensures TotalCount(m, names) == |y|
  {
    assert names[..|names|] == names;
    TotalCountIsSumCounts(y, m, names, |names|);
    forall i | 0 <= i < |y| ensures y[i] in Classes(|names|) {
      assert Classes(|names|)[y[i]] == y[i];
    }
    CountPartition(y, Classes(|names|));
  }

  /** Labels outside [-n, n) make the distribution raise IndexError. */
  lemma ClassDistributionOutOfRange(y: seq<int>, names: seq<string>, i: nat)
    requires i < |y| && PyIndex(y[i], |names|).None?
    ensures ClassDistribution(y, names) == Err(IndexError)
  {
    var mag := MaxMagnitude(y);
    DistributionBelowSpec(y, names, -(mag as int), mag + 1);
    DistributionBelowErr(y, names, -(mag as int), mag + 1);
  }

  lemma {:induction false} DistributionBelowErr(y: seq<int>, names: seq<string>, lo: int, hi: int)
    ensures DistributionBelow(y, names, lo, hi).Err? ==> DistributionBelow(y, names, lo, hi).error == IndexError
    decreases hi - lo
  {
    if hi > lo {
      DistributionBelowErr(y, names, lo, hi - 1);
    }
  }

  /** The dict `get_data_statistics` returns, less 'pixel_std'. */
  datatype DataStatistics = DataStatistics(
    totalSamples: nat,
    imageShape: seq<nat>,
    numClasses: nat,
    classNames: seq<string>,
    pixelMean: real,
    pixelMin: real,
    pixelMax: real,
    classDistribution: map<string, nat>)

  /** `get_data_statistics`: TypeError for a zero-dimensional array (it has no
      length), ValueError for an empty one (`X.min()` has no identity), the
      distribution's IndexError for a label outside the class names. */
  function GetDataStatistics(x: Tensor, y: seq<int>, names: seq<string>): (r: Result<DataStatistics>)
    ensures x.shape == [] ==> r == Err(TypeError)
    ensures x.shape != [] && x.values == [] ==> r == Err(ValueError("zero-size array"))
    ensures r.Ok? <==> x.shape != [] && x.values != [] && ClassDistribution(y, names).Ok?
    ensures r.Ok? ==> (
      && r.value.totalSamples == x.shape[0] && r.value.imageShape == x.shape[1..]
      && r.value.numClasses == |names| && r.value.classNames == names
      && r.value.pixelMin <= r.value.pixelMean <= r.value.pixelMax
      && r.value.classDistribution == ClassDistribution(y, names).value)
  {
    if x.shape == [] then Err(TypeError)
    else if x.values == [] then Err(ValueError("zero-size array"))
    else
      match ClassDistribution(y, names)
      case Err(e) => Err(e)
      case Ok(dist) =>
        MeanBetweenMinAndMax(x.values);
        Ok(DataStatistics(x.shape[0], x.shape[1..], |names|, names,
          Mean(x.values), MinOf(x.values), MaxOf(x.values), dist))
  }
}
