/** The values a prediction record holds. The history keeps records as Python
    dicts, and the persistence code inspects the Python type of each value, so
    the model keeps them as dynamically typed values too. */
module Records {

  /** A Python value found in a record. `NumpyNumber` is a numpy scalar that is
      not an instance of Python's int or float (np.float32, np.int64, ...);
      `Object` is any other object, carried with the text of its `str()`. */
  datatype Value =
    | Int(i: int)
    | Float(x: real)
    | Str(s: string)
    | Bool(b: bool)
    | Null
    | Dict(entries: map<string, Value>)
    | NumpyNumber(x: real, text: string)
    | Object(text: string)

  /** A record: a dict from field name to value. */
  type Entry = map<string, Value>

  /** `isinstance(v, (int, float, str, bool, type(None)))`. */
  predicate IsPrimitive(v: Value) {
    v.Int? || v.Float? || v.Str? || v.Bool? || v.Null?
  }

  /** What `json.dump` can write: no numpy scalars and no other objects, at any depth. */
  predicate Serializable(v: Value) {
    match v
    case NumpyNumber(_, _) => false
    case Object(_) => false
    case Dict(m) => forall k :: k in m ==> Serializable(m[k])
    case _ => true
  }

  predicate SerializableEntry(e: Entry) {
    forall k :: k in e ==> Serializable(e[k])
  }

  /** A value inside a dict field: numpy numbers become floats, anything else is kept. */
  function SanitizeInner(v: Value): (r: Value)
    ensures v.NumpyNumber? ==> r == Float(v.x)
    ensures !v.NumpyNumber? ==> r == v
  {
    if v.NumpyNumber? then Float(v.x) else v
  }

  /** One field of a record before writing: primitives are kept, dicts are kept
      key by key (with their numpy numbers made floats), anything else becomes
      its string form. */
  function SanitizeValue(v: Value): (r: Value)
    ensures IsPrimitive(v) ==> r == v
    ensures v.Dict? ==> (r.Dict? && r.entries.Keys == v.entries.Keys
      && forall k :: k in v.entries ==> r.entries[k] == SanitizeInner(v.entries[k]))
    ensures v.NumpyNumber? || v.Object? ==> r == Str(v.text)
  {
    match v
    case Dict(m) => Dict(map k | k in m :: SanitizeInner(m[k]))
    case NumpyNumber(_, text) => Str(text)
    case Object(text) => Str(text)
    case _ => v
  }

  /** A record as `save_to_persistence` writes it: same keys, each value sanitised. */
  function Sanitize(e: Entry): (r: Entry)
    ensures r.Keys == e.Keys
    ensures forall k :: k in e ==> r[k] == SanitizeValue(e[k])
  {
    map k | k in e :: SanitizeValue(e[k])
  }

  function SanitizeAll(h: seq<Entry>): (r: seq<Entry>)
    ensures |r| == |h|
    ensures forall i :: 0 <= i < |h| ==> r[i] == Sanitize(h[i])
  {
    seq(|h|, i requires 0 <= i < |h| => Sanitize(h[i]))
  }

  /** A value that json.dump can already write is left as it is. */
  lemma SanitizeValueKeepsSerializable(v: Value)
    requires Serializable(v)
    ensures SanitizeValue(v) == v
  {
    if v.Dict? {
      var m := v.entries;
      forall j | j in m ensures SanitizeInner(m[j]) == m[j] {
        assert Serializable(m[j]);
      }
      assert (map j | j in m :: SanitizeInner(m[j])) == m;
    }
  }

  /** A record that json.dump can already write is left exactly as it is. */
  lemma SanitizeKeepsSerializable(e: Entry)
    requires SerializableEntry(e)
    ensures Sanitize(e) == e
  {
    forall k | k in e ensures SanitizeValue(e[k]) == e[k] {
      SanitizeValueKeepsSerializable(e[k]);
    }
  }

  lemma SanitizeAllKeepsSerializable(h: seq<Entry>)
    requires forall i :: 0 <= i < |h| ==> SerializableEntry(h[i])
    ensures SanitizeAll(h) == h
  {
    forall i | 0 <= i < |h| ensures SanitizeAll(h)[i] == h[i] {
      SanitizeKeepsSerializable(h[i]);
    }
  }

  lemma SanitizeValueIdempotent(v: Value)
    ensures SanitizeValue(SanitizeValue(v)) == SanitizeValue(v)
  {
    if v.Dict? {
      var once := map j | j in v.entries :: SanitizeInner(v.entries[j]);
      assert SanitizeValue(v) == Dict(once);
      forall j | j in once ensures SanitizeInner(once[j]) == once[j] {
        assert !once[j].NumpyNumber?;
      }
      assert (map j | j in once :: SanitizeInner(once[j])) == once;
    }
  }

  /** Sanitising twice is the same as sanitising once. */
  lemma SanitizeIdempotent(e: Entry)
    ensures Sanitize(Sanitize(e)) == Sanitize(e)
  {
    forall k | k in e ensures SanitizeValue(SanitizeValue(e[k])) == SanitizeValue(e[k]) {
      SanitizeValueIdempotent(e[k]);
    }
  }

  /** A sanitised field can be written exactly when it is not a dict holding,
      below its first level, something json.dump cannot write. */
  lemma SanitizedValueSerializableIff(v: Value)
    ensures Serializable(SanitizeValue(v)) <==>
      (v.Dict? ==> forall j :: j in v.entries ==> v.entries[j].NumpyNumber? || Serializable(v.entries[j]))
  {
    if v.Dict? {
      var m := v.entries;
      var once := map j | j in m :: SanitizeInner(m[j]);
      assert SanitizeValue(v) == Dict(once);
      assert forall j :: j in m ==> (Serializable(once[j]) <==> m[j].NumpyNumber? || Serializable(m[j]));
    }
  }
}
