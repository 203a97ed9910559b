/** Parsed JSON values, annotation records and the only error the modelled
    logic raises: a dictionary lookup of a key that is not there (Python's
    KeyError). */
module Json {

  /** A parsed JSON value. Objects are maps; key order is not modelled. */
  datatype Value =
    | Null
    | Bool(b: bool)
    | Int(i: int)
    | Real(r: real)
    | Str(s: string)
    | Array(elems: seq<Value>)
    | Object(fields: map<string, Value>)

  /** An annotation record of a COCO manifest, as the loader returns it. */
  type Annotation = map<string, Value>

  /** The only error the modelled logic raises is KeyError, naming the missing key. */
  datatype Error = MissingKey(key: string)

  datatype Result<T> = Ok(value: T) | Err(error: Error)

  /** Python's `v == id` for a JSON value and an integer image id: numbers
      compare by value (`1.0 == 1`, `True == 1`); nothing else equals an int. */
  predicate IdEquals(v: Value, id: int)
  {
    match v
    case Int(n) => n == id
    case Real(x) => x == id as real
    case Bool(b) => (if b then 1 else 0) == id
    case _ => false
  }

  /** Python's `v in ids` for a list of integer ids. */
  predicate IdIn(v: Value, ids: seq<int>)
  {
    exists t | t in ids :: IdEquals(v, t)
  }

  /** A value equals at most one integer, so membership in a list is decided
      by the one id it equals. */
  lemma IdEqualsFunctional(v: Value, a: int, b: int)
    requires IdEquals(v, a) && IdEquals(v, b)
    ensures a == b
  {
  }

  /** Applies `f` to every element in order and stops at the first failure,
      as a Python loop that raises on the first bad element does. */
  function MapAll<T, U>(s: seq<T>, f: T -> Result<U>): (r: Result<seq<U>>)
    ensures r.Ok? <==> forall i :: 0 <= i < |s| ==> f(s[i]).Ok?
    ensures r.Ok? ==> |r.value| == |s|
    ensures r.Ok? ==> forall i :: 0 <= i < |s| ==> r.value[i] == f(s[i]).value
    ensures r.Err? ==> exists i :: 0 <= i < |s| && f(s[i]) == Err(r.error)
                                && forall j :: 0 <= j < i ==> f(s[j]).Ok?
    decreases |s|
  {
    if |s| == 0 then Ok([])
    else
      match MapAll(s[..|s| - 1], f)
      case Err(e) => Err(e)
      case Ok(us) =>
        match f(s[|s| - 1])
        case Err(e) => Err(e)
        case Ok(u) => Ok(us + [u])
  }

  /** A successful prefix followed by a successful element is a successful longer prefix. */
  lemma MapAllExtend<T, U>(s: seq<T>, k: nat, f: T -> Result<U>, us: seq<U>, u: U)
    requires k < |s|
    requires MapAll(s[..k], f) == Ok(us)
    requires f(s[k]) == Ok(u)
    ensures MapAll(s[..k + 1], f) == Ok(us + [u])
  {
    assert s[..k + 1][..k] == s[..k];
  }

  /** A successful prefix followed by a failing element fails the whole sequence with that element's error. */
  lemma MapAllStopsAt<T, U>(s: seq<T>, k: nat, f: T -> Result<U>, us: seq<U>)
    requires k < |s|
    requires MapAll(s[..k], f) == Ok(us)
    requires f(s[k]).Err?
    ensures MapAll(s, f) == Err(f(s[k]).error)
  {
    assert s[..k + 1][..k] == s[..k];
    MapAllFailedPrefix(s, k + 1, f);
  }

  /** Once a prefix has failed, the whole sequence fails with the same error. */
  lemma {:induction false} MapAllFailedPrefix<T, U>(s: seq<T>, k: nat, f: T -> Result<U>)
    requires k <= |s|
    requires MapAll(s[..k], f).Err?
    ensures MapAll(s, f) == MapAll(s[..k], f)
  {
  }
}
