/**
 * Untyped JSON values as `json.loads` hands them to Python code, with the
 * dictionary semantics, truthiness, iteration and field coercions the
 * modelled code applies to them.
 */
module JsonValue {
  import opened Wrappers
  import opened Strings

  datatype Json =
    | JNull
    | JBool(b: bool)
    | JNum(n: real)
    | JStr(s: string)
    | JArr(items: seq<Json>)
    | JObj(fields: Dict)

  /** The key/value pairs of an object, in the order the text lists them (keys may repeat). */
  type Dict = seq<(string, Json)>

  /** The value of the first pair with key `k`. */
  function Lookup(items: Dict, k: string): Option<Json> {
    if |items| == 0 then None
    else if items[0].0 == k then Some(items[0].1)
    else Lookup(items[1..], k)
  }

  /** `d[k] = v` on a Python dict: a present key keeps its place, a new key goes last. */
  function Assign(items: Dict, k: string, v: Json): (r: Dict)
    ensures Lookup(r, k) == Some(v)
    ensures forall k' :: k' != k ==> Lookup(r, k') == Lookup(items, k')
    ensures Lookup(items, k).None? ==> r == items + [(k, v)]
  {
    if |items| == 0 then [(k, v)]
    else if items[0].0 == k then [(k, v)] + items[1..]
    else [items[0]] + Assign(items[1..], k, v)
  }

  /** The Python dict that `json.loads` builds from the pairs: one entry per key, first position, last value. */
  function Items(d: Dict): Dict {
    if |d| == 0 then [] else Assign(Items(d[..|d| - 1]), d[|d| - 1].0, d[|d| - 1].1)
  }

  /** No key occurs twice. */
  predicate DistinctKeys(d: Dict) {
    forall i, j :: 0 <= i < j < |d| ==> d[i].0 != d[j].0
  }

  /** The value of the last pair with key `k`. */
  function LastLookup(d: Dict, k: string): Option<Json> {
    if |d| == 0 then None
    else if d[|d| - 1].0 == k then Some(d[|d| - 1].1)
    else LastLookup(d[..|d| - 1], k)
  }

  /** `d.get(k)` on the parsed dict is the value of the last pair with that key. */
  lemma {:induction false} GetIsLast(d: Dict, k: string)
    ensures Get(d, k) == LastLookup(d, k)
  {
    if |d| > 0 {
      GetIsLast(d[..|d| - 1], k);
    }
  }

  lemma {:induction false} LookupAbsent(d: Dict, k: string)
    requires forall i :: 0 <= i < |d| ==> d[i].0 != k
    ensures Lookup(d, k) == None
  {
    if |d| > 0 {
      LookupAbsent(d[1..], k);
    }
  }

  lemma {:induction false} LookupAppend(d: Dict, x: (string, Json), k: string)
    ensures Lookup(d + [x], k) == if Lookup(d, k).Some? then Lookup(d, k) else if x.0 == k then Some(x.1) else None
  {
    if |d| > 0 {
      assert (d + [x])[1..] == d[1..] + [x];
      LookupAppend(d[1..], x, k);
    }
  }

  /** Where keys are distinct, the first pair with a key is also the last. */
  lemma {:induction false} LookupIsLast(d: Dict, k: string)
    requires DistinctKeys(d)
    ensures Lookup(d, k) == LastLookup(d, k)
  {
    if |d| > 0 {
      var p, x := d[..|d| - 1], d[|d| - 1];
      assert d == p + [x];
      LookupIsLast(p, k);
      LookupAppend(p, x, k);
      if x.0 == k {
        LookupAbsent(p, k);
      }
    }
  }

  /** Every key of an assignment's result was a key before, or is the assigned one. */
  lemma {:induction false} AssignKeys(items: Dict, k: string, v: Json, i: nat)
    requires i < |Assign(items, k, v)|
    ensures Assign(items, k, v)[i].0 == k || exists j :: 0 <= j < |items| && items[j].0 == Assign(items, k, v)[i].0
  {
    if |items| > 0 && items[0].0 != k && i > 0 {
      AssignKeys(items[1..], k, v, i - 1);
      if Assign(items[1..], k, v)[i - 1].0 != k {
        var j :| 0 <= j < |items[1..]| && items[1..][j].0 == Assign(items[1..], k, v)[i - 1].0;
        assert items[j + 1].0 == Assign(items, k, v)[i].0;
      }
    }
  }

  lemma {:induction false} AssignDistinct(items: Dict, k: string, v: Json)
    requires DistinctKeys(items)
    ensures DistinctKeys(Assign(items, k, v))
  {
    if |items| > 0 && items[0].0 != k {
      var rest := Assign(items[1..], k, v);
      AssignDistinct(items[1..], k, v);
      forall i | 0 <= i < |rest| ensures rest[i].0 != items[0].0 {
        AssignKeys(items[1..], k, v, i);
      }
      var r := [items[0]] + rest;
      forall i, j | 0 <= i < j < |r| ensures r[i].0 != r[j].0 {
        if i > 0 { assert r[i] == rest[i - 1] && r[j] == rest[j - 1]; }
        else { assert r[j] == rest[j - 1]; }
      }
    } else if |items| > 0 {
      var r := Assign(items, k, v);
      forall i, j | 0 <= i < j < |r| ensures r[i].0 != r[j].0 {
        assert r[j] == items[j];
        if i > 0 { assert r[i] == items[i]; }
      }
    }
  }

  /** A parsed dict never repeats a key. */
  lemma {:induction false} ItemsDistinct(d: Dict)
    ensures DistinctKeys(Items(d))
  {
    if |d| > 0 {
      ItemsDistinct(d[..|d| - 1]);
      AssignDistinct(Items(d[..|d| - 1]), d[|d| - 1].0, d[|d| - 1].1);
    }
  }

  /** Looking a key up in the parsed dict's items is `d.get(k)`, which the last pair decides. */
  lemma ItemsLastLookup(d: Dict, k: string)
    ensures LastLookup(Items(d), k) == Get(d, k)
    ensures Get(d, k) == LastLookup(d, k)
  {
    ItemsDistinct(d);
    LookupIsLast(Items(d), k);
    GetIsLast(d, k);
  }

  /** `d.get(k)` in Python. */
  function Get(d: Dict, k: string): Option<Json> {
    Lookup(Items(d), k)
  }

  /** With a repeated key, the last pair wins. */
  lemma GetLast(d: Dict, k: string, v: Json)
    ensures Get(d + [(k, v)], k) == Some(v)
  {
    assert (d + [(k, v)])[..|d|] == d;
  }

  /** `d.get(k, default)`. */
  function GetOr(d: Dict, k: string, default: Json): Json {
    Get(d, k).UnwrapOr(default)
  }

  /** The keys of the dict, in dict order. */
  function KeysInOrder(d: Dict): seq<string> {
    var items := Items(d);
    seq(|items|, i requires 0 <= i < |items| => items[i].0)
  }

  /** `bool(v)` in Python. */
  predicate Truthy(j: Json) {
    match j
    case JNull => false
    case JBool(b) => b
    case JNum(x) => x != 0.0
    case JStr(s) => |s| > 0
    case JArr(a) => |a| > 0
    case JObj(d) => |Items(d)| > 0
  }

  /** `a or b` in Python. */
  function Or(a: Json, b: Json): (r: Json)
    ensures Truthy(a) ==> r == a
    ensures !Truthy(a) ==> r == b
  {
    if Truthy(a) then a else b
  }

  /** The elements `for x in v` visits: list items, the characters of a string, the keys of a dict. */
  function Iterate(j: Json): (r: Result<seq<Json>>)
    ensures r.Err? <==> (j.JNull? || j.JBool? || j.JNum?)
  {
    match j
    case JArr(a) => Ok(a)
    case JStr(s) => Ok(seq(|s|, i requires 0 <= i < |s| => JStr([s[i]])))
    case JObj(d) =>
      var keys := KeysInOrder(d);
      Ok(seq(|keys|, i requires 0 <= i < |keys| => JStr(keys[i])))
    case _ => Err(TypeError)
  }

  /** The number Python arithmetic and comparisons see: `True` and `False` count as 1 and 0. */
  function AsNumber(j: Json): Option<real> {
    match j
    case JNum(x) => Some(x)
    case JBool(b) => Some(if b then 1.0 else 0.0)
    case _ => None
  }

  /** Rounding toward zero, as `int(x)` does for a float. */
  function TruncateTowardZero(x: real): int {
    if x >= 0.0 then x.Floor else -((-x).Floor)
  }

  /** `float(v)`. */
  function PyFloat(j: Json): (r: Result<real>)
    ensures AsNumber(j).Some? ==> r == Ok(AsNumber(j).value)
    ensures (j.JNull? || j.JArr? || j.JObj?) ==> r == Err(TypeError)
  {
    match j
    case JNum(x) => Ok(x)
    case JBool(b) => Ok(if b then 1.0 else 0.0)
    case JStr(s) => (match ParseDecimal(s) case Some(x) => Ok(x) case None => Err(ValueError))
    case _ => Err(TypeError)
  }

  /** `int(v)`. */
  function PyInt(j: Json): (r: Result<int>)
    ensures j.JNum? ==> r == Ok(TruncateTowardZero(j.n))
    ensures (j.JNull? || j.JArr? || j.JObj?) ==> r == Err(TypeError)
  {
    match j
    case JNum(x) => Ok(TruncateTowardZero(x))
    case JBool(b) => Ok(if b then 1 else 0)
    case JStr(s) => (match ParseInt(s) case Some(i) => Ok(i) case None => Err(ValueError))
    case _ => Err(TypeError)
  }

  /** `min(max(v, lo), hi)`: a number clamped into `[lo, hi]`; anything else cannot be compared. */
  function Clamp(j: Json, lo: real, hi: real): (r: Result<real>)
    requires lo <= hi
    ensures r.Ok? <==> AsNumber(j).Some?
    ensures r.Ok? ==> lo <= r.value <= hi
    ensures r.Ok? && lo <= AsNumber(j).value <= hi ==> r.value == AsNumber(j).value
  {
    match AsNumber(j)
    case Some(x) => Ok(if x < lo then lo else if x > hi then hi else x)
    case None => Err(TypeError)
  }

  /** A pydantic `str` field accepts only strings. */
  function StrField(j: Json): (r: Result<string>)
    ensures r.Ok? <==> j.JStr?
    ensures r.Ok? ==> r.value == j.s
  {
    if j.JStr? then Ok(j.s) else Err(ValidationError)
  }

  /** A pydantic `list[str]` field accepts a list of strings. */
  function StrListField(j: Json): (r: Result<seq<string>>)
    ensures r.Ok? <==> (j.JArr? && forall i :: 0 <= i < |j.items| ==> j.items[i].JStr?)
    ensures r.Ok? ==> |r.value| == |j.items| && forall i :: 0 <= i < |j.items| ==> r.value[i] == j.items[i].s
  {
    if j.JArr? && forall i :: 0 <= i < |j.items| ==> j.items[i].JStr? then
      Ok(seq(|j.items|, i requires 0 <= i < |j.items| && j.items[i].JStr? => j.items[i].s))
    else Err(ValidationError)
  }

  /** A pydantic `int` field: integral numbers, booleans and integer strings. */
  function IntField(j: Json): (r: Result<int>)
    ensures j.JNum? ==> (r.Ok? <==> j.n.Floor as real == j.n)
    ensures r.Ok? && j.JNum? ==> r.value as real == j.n
    ensures (j.JNull? || j.JArr? || j.JObj?) ==> r.Err?
  {
    match j
    case JNum(x) => if x.Floor as real == x then Ok(x.Floor) else Err(ValidationError)
    case JBool(b) => Ok(if b then 1 else 0)
    case JStr(s) => (match ParseInt(s) case Some(i) => Ok(i) case None => Err(ValidationError))
    case _ => Err(ValidationError)
  }

  /** The spellings pydantic accepts for a `bool` field given as a string. */
  predicate TrueWord(s: string) { Lower(s) in {"1", "on", "t", "true", "y", "yes"} }

  predicate FalseWord(s: string) { Lower(s) in {"0", "off", "f", "false", "n", "no"} }

  /** A pydantic `bool` field: booleans, the numbers 0 and 1, and the usual words. */
  function BoolField(j: Json): (r: Result<bool>)
    ensures j.JBool? ==> r == Ok(j.b)
    ensures (j.JNull? || j.JArr? || j.JObj?) ==> r.Err?
  {
    match j
    case JBool(b) => Ok(b)
    case JNum(x) => if x == 1.0 then Ok(true) else if x == 0.0 then Ok(false) else Err(ValidationError)
    case JStr(s) => if TrueWord(s) then Ok(true) else if FalseWord(s) then Ok(false) else Err(ValidationError)
    case _ => Err(ValidationError)
  }

  /** `str(v)`: a string stays itself; any other value is rendered by `repr`. */
  function PyStr(j: Json, repr: Json -> string): (r: string)
    ensures j.JStr? ==> r == j.s
  {
    if j.JStr? then j.s else repr(j)
  }
}
