/** Shared vocabulary of the model: the Python exceptions the core raises or
    lets through, an Option and a Result type, and the few string and path
    helpers of the Python standard library that the core relies on. */
module Base {

  datatype Option<+T> = None | Some(value: T)

  /** The exception kinds that the core raises or propagates. */
  datatype Error =
    | ValueError(message: string)
    | IndexError
    | KeyError
    | TypeError
    | ZeroDivisionError
    | FileNotFoundError(message: string)
    | OSError(message: string)
    | Raised(message: string)  // an exception raised inside an opaque collaborator

  datatype Result<+T> = Ok(value: T) | Err(error: Error)

  /** Python's `s[-1]`: the last element, or IndexError on an empty list. */
  function Last<T>(s: seq<T>): (r: Result<T>)
    ensures r.Ok? <==> |s| > 0
    ensures r.Ok? ==> r.value == s[|s| - 1]
  {
    if |s| == 0 then Err(IndexError) else Ok(s[|s| - 1])
  }

  /** Python's list indexing `xs[i]` for an int `i`: negative indices count from
      the end; anything outside [-n, n) raises IndexError (None here). */
  function PyIndex(i: int, n: nat): (r: Option<nat>)
    ensures r.Some? <==> -(n as int) <= i < n
    ensures r.Some? ==> r.value < n && (if i >= 0 then r.value == i else r.value == i + n)
  {
    if 0 <= i < n then Some(i) else if -(n as int) <= i < 0 then Some(i + n) else None
  }

  /** The first position kept by the Python slice `xs[start:]` of a list of length n. */
  function SliceStart(start: int, n: nat): (r: nat)
    ensures r <= n
    ensures start >= 0 ==> r == if start <= n then start else n
    ensures start < 0 ==> r == if -start <= n then n + start else 0
  {
    if start >= 0 then (if start <= n then start else n)
    else if -start <= n then n + start else 0
  }

  // ---------------------------------------------------------------- strings

  /** `str.lower()` restricted to ASCII letters. */
  function LowerChar(c: char): char {
    if 'A' <= c <= 'Z' then (c as int + 32) as char else c
  }

  function Lower(s: string): (r: string)
    ensures |r| == |s|
    ensures forall i :: 0 <= i < |s| ==> r[i] == LowerChar(s[i])
  {
    seq(|s|, i requires 0 <= i < |s| => LowerChar(s[i]))
  }

  predicate EndsWith(s: string, suffix: string) {
    |suffix| <= |s| && s[|s| - |suffix|..] == suffix
  }

  predicate StartsWith(s: string, prefix: string) {
    |prefix| <= |s| && s[..|prefix|] == prefix
  }

  /** The position of the last occurrence of `c` in `s`, if any (`str.rfind`). */
  function LastIndexOf(s: string, c: char): (r: Option<nat>)
    ensures r.None? <==> c !in s
    ensures r.Some? ==> r.value < |s| && s[r.value] == c
    ensures r.Some? ==> forall j :: r.value < j < |s| ==> s[j] != c
  {
    if |s| == 0 then None
    else if s[|s| - 1] == c then Some(|s| - 1)
    else LastIndexOf(s[..|s| - 1], c)
  }

  // ------------------------------------------------------------------ paths

  /** `os.path.join(a, b)` on POSIX for two components. */
  function Join(a: string, b: string): string {
    if StartsWith(b, "/") then b
    else if a == [] || EndsWith(a, "/") then a + b
    else a + "/" + b
  }

  /** An absolute second part replaces the first; otherwise the path starts
      with the first part, ends with the second and adds at most one '/'. */
  lemma JoinSpec(a: string, b: string)
    ensures StartsWith(b, "/") ==> Join(a, b) == b
    ensures !StartsWith(b, "/") ==>
      StartsWith(Join(a, b), a) && EndsWith(Join(a, b), b) && |a| + |b| <= |Join(a, b)| <= |a| + |b| + 1
  {
  }

  /** `os.path.basename`: the text after the last '/'. */
  function Basename(p: string): (r: string)
    ensures '/' !in r
    ensures EndsWith(p, r)
  {
    match LastIndexOf(p, '/')
    case None => p
    case Some(i) => p[i + 1..]
  }

  function StripTrailingSlashes(s: string): (r: string)
    ensures |r| <= |s| && r == s[..|r|]
    decreases |s|
  {
    if |s| > 0 && s[|s| - 1] == '/' then StripTrailingSlashes(s[..|s| - 1]) else s
  }

  predicate AllSlashes(s: string) {
    forall i :: 0 <= i < |s| ==> s[i] == '/'
  }

  /** `os.path.dirname` on POSIX: everything before the last '/', with the
      trailing slashes removed unless it consists of slashes only. */
  function Dirname(p: string): string {
    match LastIndexOf(p, '/')
    case None => ""
    case Some(i) =>
      var head := p[..i + 1];
      if AllSlashes(head) then head else StripTrailingSlashes(head)
  }

  /** Joining a directory (with no trailing '/') and a plain file name, and
      taking the directory part again, gives the directory back. */
  lemma {:induction false} DirnameOfJoin(dir: string, name: string)
    requires name != [] && '/' !in name
    requires !EndsWith(dir, "/")
    ensures Dirname(Join(dir, name)) == dir
  {
    if dir == [] {
      assert Join(dir, name) == name;
      assert LastIndexOf(name, '/') == None;
    } else {
      var p := dir + "/" + name;
      assert !StartsWith(name, "/") by { assert name[0] != '/'; }
      assert Join(dir, name) == p;
      var k := |dir|;
      assert p[k] == '/';
      assert forall j :: k < j < |p| ==> p[j] != '/' by {
        forall j | k < j < |p| ensures p[j] != '/' {
          assert p[j] == name[j - k - 1];
        }
      }
      LastIndexOfUnique(p, '/', k);
      var head := p[..k + 1];
      assert head == dir + "/";
      assert dir[|dir| - 1] != '/' by {
        assert dir[|dir| - 1..] == [dir[|dir| - 1]];
      }
      assert !AllSlashes(head) by { assert head[k - 1] == dir[k - 1]; }
      assert head[..k] == dir;
      assert StripTrailingSlashes(head) == StripTrailingSlashes(dir);
      assert StripTrailingSlashes(dir) == dir;
    }
  }

  /** The last occurrence is the unique position after which `c` does not occur. */
  lemma {:induction false} LastIndexOfUnique(s: string, c: char, k: nat)
    requires k < |s| && s[k] == c
    requires forall j :: k < j < |s| ==> s[j] != c
    ensures LastIndexOf(s, c) == Some(k)
  {
    if k < |s| - 1 {
      LastIndexOfUnique(s[..|s| - 1], c, k);
    }
  }

  // ------------------------------------------------------------ aggregates

  /** `sum` of a list of floats, taken as exact reals. */
  function Sum(s: seq<real>): real {
    if s == [] then 0.0 else Sum(s[..|s| - 1]) + s[|s| - 1]
  }

  /** `np.min` of a non-empty list. */
  function MinOf(s: seq<real>): (r: real)
    requires s != []
    ensures r in s
    ensures forall i :: 0 <= i < |s| ==> r <= s[i]
  {
    if |s| == 1 then s[0]
    else var m := MinOf(s[..|s| - 1]); if s[|s| - 1] < m then s[|s| - 1] else m
  }

  /** `np.max` of a non-empty list. */
  function MaxOf(s: seq<real>): (r: real)
    requires s != []
    ensures r in s
    ensures forall i :: 0 <= i < |s| ==> s[i] <= r
  {
    if |s| == 1 then s[0]
    else var m := MaxOf(s[..|s| - 1]); if s[|s| - 1] > m then s[|s| - 1] else m
  }

  /** `np.mean` of a non-empty list. */
  function Mean(s: seq<real>): real
    requires s != []
  {
    Sum(s) / (|s| as real)
  }

  lemma {:induction false} SumAtLeast(s: seq<real>, m: real)
    requires forall i :: 0 <= i < |s| ==> m <= s[i]
    ensures (|s| as real) * m <= Sum(s)
  {
    if s != [] {
      var p := s[..|s| - 1];
      SumAtLeast(p, m);
      assert (|s| as real) * m == (|p| as real) * m + m;
    }
  }

  lemma {:induction false} SumAtMost(s: seq<real>, m: real)
    requires forall i :: 0 <= i < |s| ==> s[i] <= m
    ensures Sum(s) <= (|s| as real) * m
  {
    if s != [] {
      var p := s[..|s| - 1];
      SumAtMost(p, m);
      assert (|s| as real) * m == (|p| as real) * m + m;
    }
  }

  /** The mean of a non-empty list lies between its minimum and its maximum. */
  lemma MeanBetweenMinAndMax(s: seq<real>)
    requires s != []
    ensures MinOf(s) <= Mean(s) <= MaxOf(s)
  {
    var lo, hi := MinOf(s), MaxOf(s);
    SumAtLeast(s, lo);
    SumAtMost(s, hi);
    DivideBounds(Sum(s), |s| as real, lo, hi);
  }

  lemma DivideBounds(total: real, n: real, lo: real, hi: real)
    requires n > 0.0
    requires n * lo <= total <= n * hi
    ensures lo <= total / n <= hi
  {
    assert total / n * n == total;
  }
  // -------------------------------------------------------------- counting

  predicate Distinct<T(==)>(s: seq<T>) {
    forall a, b :: 0 <= a < b < |s| ==> s[a] != s[b]
  }

  /** Position `i` holds the last occurrence of its element: a dict built from
      `s` in order keeps the value written at `i` for that key. */
  predicate LastOccurrence<T(==)>(s: seq<T>, i: int)
    requires 0 <= i < |s|
  {
    forall j :: i < j < |s| ==> s[j] != s[i]
  }

  /** The elements of a non-empty sequence are those of its prefix and its
      last element. */
  lemma SnocMembers<T>(s: seq<T>)
    requires s != []
    ensures forall x :: x in s <==> x in s[..|s| - 1] || x == s[|s| - 1]
  {
    assert s == s[..|s| - 1] + [s[|s| - 1]];
  }

  /** A last occurrence before the end is a last occurrence in the prefix,
      of an element other than the last one. */
  lemma LastOccurrenceOfPrefix<T>(s: seq<T>)
    requires s != []
    ensures forall i :: 0 <= i < |s| - 1 && LastOccurrence(s, i) ==>
      LastOccurrence(s[..|s| - 1], i) && s[i] != s[|s| - 1]
  {
  }

  /** The number of occurrences of `x` in `xs` (`list.count`). */
  function Count<T(==)>(xs: seq<T>, x: T): nat {
    if xs == [] then 0
    else Count(xs[..|xs| - 1], x) + (if xs[|xs| - 1] == x then 1 else 0)
  }

  /** The occurrences in `xs` of each key in turn, added up. */
  function SumCounts<T(==)>(xs: seq<T>, keys: seq<T>): nat {
    if keys == [] then 0
    else SumCounts(xs, keys[..|keys| - 1]) + Count(xs, keys[|keys| - 1])
  }

  lemma {:induction false} CountPositiveIff<T>(xs: seq<T>, x: T)
    ensures Count(xs, x) > 0 <==> x in xs
  {
    if xs != [] {
      var init := xs[..|xs| - 1];
      CountPositiveIff(init, x);
      assert xs == init + [xs[|xs| - 1]];
    }
  }

  lemma {:induction false} CountAtMostLength<T>(xs: seq<T>, x: T)
    ensures Count(xs, x) <= |xs|
  {
    if xs != [] {
      CountAtMostLength(xs[..|xs| - 1], x);
    }
  }

  lemma CountSnoc<T>(xs: seq<T>, y: T, x: T)
    ensures Count(xs + [y], x) == Count(xs, x) + (if y == x then 1 else 0)
  {
    assert (xs + [y])[..|xs|] == xs;
  }

  /** A key listed once is counted once. */
  lemma {:induction false} CountDistinct<T>(keys: seq<T>, x: T)
    requires Distinct(keys) && x in keys
    ensures Count(keys, x) == 1
  {
    var init := keys[..|keys| - 1];
    if keys[|keys| - 1] == x {
      assert x !in init;
      CountPositiveIff(init, x);
    } else {
      assert x in init by { assert keys == init + [keys[|keys| - 1]]; }
      CountDistinct(init, x);
    }
  }

  lemma {:induction false} SumCountsSnoc<T>(xs: seq<T>, y: T, keys: seq<T>)
    ensures SumCounts(xs + [y], keys) == SumCounts(xs, keys) + Count(keys, y)
  {
    if keys != [] {
      var init := keys[..|keys| - 1];
      SumCountsSnoc(xs, y, init);
      CountSnoc(xs, y, keys[|keys| - 1]);
    }
  }

  /** Counting every key of a duplicate-free list that covers `xs` counts
      every element of `xs` exactly once. */
  lemma {:induction false} CountPartition<T>(xs: seq<T>, keys: seq<T>)
    requires Distinct(keys)
    requires forall i :: 0 <= i < |xs| ==> xs[i] in keys
    ensures SumCounts(xs, keys) == |xs|
  {
    if xs == [] {
      SumCountsEmpty(keys);
    } else {
      var init := xs[..|xs| - 1];
      var y := xs[|xs| - 1];
      CountPartition(init, keys);
      assert xs == init + [y];
      SumCountsSnoc(init, y, keys);
      CountDistinct(keys, y);
    }
  }

  lemma {:induction false} SumCountsEmpty<T>(keys: seq<T>)
    ensures SumCounts([], keys) == 0
  {
    if keys != [] {
      SumCountsEmpty(keys[..|keys| - 1]);
    }
  }

  /** A list has at most as many distinct elements as it has elements;
      exactly as many when it is duplicate-free. */
  lemma {:induction false} ElementsAtMostLength<T>(s: seq<T>)
    ensures |set x | x in s| <= |s|
    ensures Distinct(s) ==> |set x | x in s| == |s|
  {
    if s != [] {
      var init := s[..|s| - 1];
      var last := s[|s| - 1];
      ElementsAtMostLength(init);
      assert (set x | x in s) == (set x | x in init) + {last};
      if Distinct(s) {
        assert Distinct(init);
        assert last !in init;
      }
    }
  }

  lemma {:induction false} SubsetSize<T>(a: set<T>, b: set<T>)
    requires a <= b
    ensures |a| <= |b|
    decreases |b|
  {
    if a != {} {
      var x :| x in a;
      SubsetSize(a - {x}, b - {x});
    }
  }

  /** The counts a dict holds for the given keys, added up (a key that is absent counts 0). */
  function TotalCount(m: map<string, nat>, keys: seq<string>): nat {
    if keys == [] then 0
    else
      var k := keys[|keys| - 1];
      TotalCount(m, keys[..|keys| - 1]) + (if k in m then m[k] else 0)
  }
}
