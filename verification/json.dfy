/**
 * The dynamically typed values the agent reads out of model replies and
 * passes around as Python dictionaries.
 */
module Json {

  import opened Wrappers

  /** A decoded JSON value; `Null` also stands for Python's `None`. */
  datatype Value =
    | Null
    | Bool(b: bool)
    | Int(i: int)
    | Real(r: real)
    | Str(s: string)
    | Array(items: seq<Value>)
    | Object(fields: Obj)

  /** A Python `dict` with string keys. */
  type Obj = map<string, Value>

  /** Python truthiness: `None`, `False`, zero, and empty strings and containers are false. */
  predicate Truthy(v: Value) {
    match v
    case Null => false
    case Bool(b) => b
    case Int(i) => i != 0
    case Real(r) => r != 0.0
    case Str(s) => |s| > 0
    case Array(items) => |items| > 0
    case Object(fields) => |fields| > 0
  }

  /** `d.get(key, default)`. */
  function Get(d: Obj, key: string, default: Value): Value {
    if key in d then d[key] else default
  }

  /** `v[:k]` is defined on strings and lists; on any other value Python raises. */
  predicate Sliceable(v: Value) {
    v.Str? || v.Array?
  }

  /** Lists and dicts are unhashable: they cannot be set members or `Counter` keys. */
  predicate Hashable(v: Value) {
    !v.Array? && !v.Object?
  }

  /**
   * `extend(v)` followed by hashing every item taken, as `set`, `Counter` and
   * `counter[c] += 1` do: a string yields its characters and a dict its
   * string keys, a list yields its items, which must be hashable, and any
   * other value is not iterable.
   */
  predicate CountableItems(v: Value) {
    match v
    case Str(_) => true
    case Object(_) => true
    case Array(items) => forall i :: 0 <= i < |items| ==> Hashable(items[i])
    case _ => false
  }

  /** The Python types behind the predicates above, on the values a model reply can carry. */
  lemma PythonTypeExamples()
    ensures Sliceable(Str("x")) && !Sliceable(Null) && !Sliceable(Int(3))
    ensures !CountableItems(Int(5)) && !CountableItems(Null) && CountableItems(Str("smoke"))
    ensures CountableItems(Array([Str("smoke"), Str("blood")])) && !CountableItems(Array([Array([])]))
    ensures Hashable(Null) && !Hashable(Array([Str("a")])) && !Hashable(Object(map[]))
  {
    assert !Hashable([Array([])][0]);
  }

  /**
   * The value Python's arithmetic sees for `v`: integers, floats and booleans
   * (which are integers in Python) are numbers; anything else makes `-`
   * raise `TypeError`, modelled as `None`.
   */
  function AsNumber(v: Value): (r: Option<real>)
    ensures r.Some? <==> (v.Int? || v.Real? || v.Bool?)
    ensures v.Int? ==> r == Some(v.i as real)
    ensures v.Bool? ==> r == Some(if v.b then 1.0 else 0.0)
  {
    match v
    case Int(i) => Some(i as real)
    case Real(x) => Some(x)
    case Bool(b) => Some(if b then 1.0 else 0.0)
    case _ => None
  }
}
