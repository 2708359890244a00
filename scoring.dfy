/** The pure selection logic of the prediction engine: arg-max over one
    probability row, the record it builds, and the top-k ranking obtained from
    numpy's argsort. */
module Scoring {
  import opened Base

  /** `np.argmax`: the first index of a maximal value. */
  function ArgMax(s: seq<real>): (r: nat)
    requires s != []
    ensures r < |s|
    ensures forall j :: 0 <= j < |s| ==> s[j] <= s[r]
    ensures forall j :: 0 <= j < r ==> s[j] < s[r]
  {
    if |s| == 1 then 0
    else
      var k := ArgMax(s[..|s| - 1]);
      if s[|s| - 1] > s[k] then |s| - 1 else k
  }

  /** `{names[i]: row[i] for i in range(len(names))}`; a later duplicate name
      overwrites an earlier one. */
  function ProbabilityMap(names: seq<string>, row: seq<real>): (m: map<string, real>)
    requires |names| <= |row|
    ensures m.Keys == set n | n in names
    ensures forall i :: 0 <= i < |names| && LastOccurrence(names, i) ==> m[names[i]] == row[i]
  {
    if names == [] then map[]
    else
      SnocMembers(names);
      LastOccurrenceOfPrefix(names);
      ProbabilityMap(names[..|names| - 1], row)[names[|names| - 1] := row[|names| - 1]]
  }

  /** What `predict_single_image` and `predict_batch` derive from one row. */
  datatype Classification = Classification(
    index: nat,
    className: string,
    confidence: real,
    probabilities: Option<map<string, real>>)

  /** The arg-max class of one probability row: ValueError on an empty row,
      IndexError when the class index or the probability table runs past the
      class names. */
  function Classify(row: seq<real>, names: seq<string>, withProbabilities: bool): Result<Classification> {
    if row == [] then Err(ValueError("attempt to get argmax of an empty sequence"))
    else
      var idx := ArgMax(row);
      if idx >= |names| then Err(IndexError)
      else if withProbabilities && |row| < |names| then Err(IndexError)
      else
        Ok(Classification(idx, names[idx], row[idx],
          if withProbabilities then Some(ProbabilityMap(names, row)) else None))
  }

  /** A row is classified exactly when it is non-empty, its arg-max has a
      class name and, when the probability table is asked for, every class
      name has a probability; the class is then the first most probable one,
      with its probability as the confidence and its name, and the table
      covers exactly the class names. */
  lemma ClassifySpec(row: seq<real>, names: seq<string>, withProbabilities: bool)
    ensures Classify(row, names, withProbabilities).Ok? <==>
      row != [] && ArgMax(row) < |names| && (withProbabilities ==> |names| <= |row|)
    ensures row == [] ==> Classify(row, names, withProbabilities).error.ValueError?
    ensures row != [] && Classify(row, names, withProbabilities).Err? ==>
      Classify(row, names, withProbabilities).error == IndexError
    ensures Classify(row, names, withProbabilities).Ok? ==> (
      var c := Classify(row, names, withProbabilities).value;
      && c.index < |row| && c.index < |names|
      && c.confidence == row[c.index]
      && (forall j :: 0 <= j < |row| ==> row[j] <= c.confidence)
      && (forall j :: 0 <= j < c.index ==> row[j] < c.confidence)
      && c.className == names[c.index]
      && (c.probabilities.Some? <==> withProbabilities)
      && (withProbabilities ==> c.probabilities.value.Keys == set n | n in names)
      && (withProbabilities ==> forall i :: 0 <= i < |names| && LastOccurrence(names, i) ==>
        c.probabilities.value[names[i]] == row[i]))
  {
  }

  // ------------------------------------------------------------------ top-k

  /** `x` precedes `y` in a stable ascending argsort of `p`. */
  predicate Before(p: seq<real>, x: nat, y: nat)
    requires x < |p| && y < |p|
  {
    p[x] < p[y] || (p[x] == p[y] && x < y)
  }

  predicate SortedAscending(p: seq<real>, s: seq<nat>) {
    && (forall a :: 0 <= a < |s| ==> s[a] < |p|)
    && (forall a, b :: 0 <= a < b < |s| ==> Before(p, s[a], s[b]))
  }

  /** Insertion of index `i`, larger than every index in `s`, after every
      index whose probability is at most `p[i]`. */
  function Insert(p: seq<real>, i: nat, s: seq<nat>): (r: seq<nat>)
    requires i < |p|
    requires forall a :: 0 <= a < |s| ==> s[a] < i
    ensures |r| == |s| + 1
    ensures forall x :: x in r <==> x == i || x in s
  {
    if s == [] then [i]
    else if p[s[|s| - 1]] <= p[i] then s + [i]
    else
      var init := s[..|s| - 1];
      assert forall x :: x in s <==> x in init || x == s[|s| - 1];
      Insert(p, i, init) + [s[|s| - 1]]
  }

  lemma {:induction false} InsertSorted(p: seq<real>, i: nat, s: seq<nat>)
    requires i < |p|
    requires forall a :: 0 <= a < |s| ==> s[a] < i
    requires SortedAscending(p, s)
    ensures SortedAscending(p, Insert(p, i, s))
  {
    if s == [] {
    } else if p[s[|s| - 1]] <= p[i] {
      var r := s + [i];
      assert Insert(p, i, s) == r;
      forall a, b | 0 <= a < b < |r| ensures Before(p, r[a], r[b]) {
        if b == |s| && a < |s| - 1 {
          assert Before(p, s[a], s[|s| - 1]);
        }
      }
    } else {
      var init := s[..|s| - 1];
      var last := s[|s| - 1];
      InsertSorted(p, i, init);
      var r := Insert(p, i, init);
      assert Insert(p, i, s) == r + [last];
      forall a | 0 <= a < |r| ensures Before(p, r[a], last) {
        assert r[a] in r;
        if r[a] != i {
          assert r[a] in init;
          var b :| 0 <= b < |init| && init[b] == r[a];
          assert Before(p, s[b], s[|s| - 1]);
        }
      }
      var r' := r + [last];
      forall a, b | 0 <= a < b < |r'| ensures Before(p, r'[a], r'[b]) {
        if b < |r| {
          assert r'[a] == r[a] && r'[b] == r[b];
        }
      }
    }
  }

  /** numpy's argsort of `p[..n]`, taken as a stable ascending sort. */
  function ArgSort(p: seq<real>, n: nat): (r: seq<nat>)
    requires n <= |p|
    ensures |r| == n
    ensures forall x: nat :: x in r <==> x < n
    ensures forall a :: 0 <= a < |r| ==> r[a] < n
  {
    if n == 0 then []
    else
      var s := ArgSort(p, n - 1);
      var r := Insert(p, n - 1, s);
      assert forall a :: 0 <= a < |r| ==> r[a] in r;
      r
  }

  lemma {:induction false} ArgSortSorted(p: seq<real>, n: nat)
    requires n <= |p|
    ensures SortedAscending(p, ArgSort(p, n))
  {
    if n > 0 {
      ArgSortSorted(p, n - 1);
      InsertSorted(p, n - 1, ArgSort(p, n - 1));
    }
  }

  /** `np.argsort(p)[-k:][::-1]`. */
  function TopKIndices(p: seq<real>, k: int): (r: seq<nat>)
    ensures forall a :: 0 <= a < |r| ==> r[a] < |p|
  {
    var sorted := ArgSort(p, |p|);
    var tail := sorted[SliceStart(-k, |p|)..];
    seq(|tail|, j requires 0 <= j < |tail| => tail[|tail| - 1 - j])
  }

  /** The top-k indices: min(k, n) of them for k >= 1 and all n for k == 0
      (`[-0:]` is the whole list), each a class index, no index twice, in
      non-increasing order of probability with equal probabilities by
      descending index, and no class left out is more probable than one kept. */
  lemma TopKIndicesSpec(p: seq<real>, k: int)
    ensures |TopKIndices(p, k)| == |p| - SliceStart(-k, |p|)
    ensures k >= 1 ==> |TopKIndices(p, k)| == if k <= |p| then k else |p|
    ensures k == 0 ==> |TopKIndices(p, k)| == |p|
    ensures forall a :: 0 <= a < |TopKIndices(p, k)| ==> TopKIndices(p, k)[a] < |p|
    ensures Distinct(TopKIndices(p, k))
    ensures forall a, b :: 0 <= a < b < |TopKIndices(p, k)| ==>
      p[TopKIndices(p, k)[a]] >= p[TopKIndices(p, k)[b]]
    ensures forall a, b :: 0 <= a < b < |TopKIndices(p, k)| && p[TopKIndices(p, k)[a]] == p[TopKIndices(p, k)[b]] ==>
      TopKIndices(p, k)[a] > TopKIndices(p, k)[b]
    ensures forall x, a :: 0 <= x < |p| && x !in TopKIndices(p, k) && 0 <= a < |TopKIndices(p, k)| ==>
      p[x] <= p[TopKIndices(p, k)[a]]
  {
    var sorted := ArgSort(p, |p|);
    ArgSortSorted(p, |p|);
    var start := SliceStart(-k, |p|);
    var tail := sorted[start..];
    var r := TopKIndices(p, k);
    assert |r| == |tail|;
    assert forall j :: 0 <= j < |r| ==> r[j] == sorted[start + |tail| - 1 - j];
    forall a, b | 0 <= a < b < |r| ensures Before(p, r[b], r[a]) {
      assert Before(p, sorted[start + |tail| - 1 - b], sorted[start + |tail| - 1 - a]);
    }
    forall j | start <= j < |sorted| ensures sorted[j] in r {
      assert r[start + |tail| - 1 - j] == sorted[j];
    }
    forall x, a | 0 <= x < |p| && x !in r && 0 <= a < |r| ensures p[x] <= p[r[a]] {
      assert x in sorted;
      var q :| 0 <= q < |sorted| && sorted[q] == x;
      assert q < start;
      assert Before(p, sorted[q], sorted[start + |tail| - 1 - a]);
    }
  }
}
