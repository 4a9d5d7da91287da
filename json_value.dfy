/**
 * JSON values as the Python code sees them after `json.loads`: `None`, booleans, numbers,
 * strings, lists and dicts. A dict keeps its keys in insertion order, each key once, as
 * Python's `dict` does. Numbers are kept abstract as integers.
 *
 * `json.loads` and `json5.loads` themselves are not modelled: callers receive them as a
 * function from text to `Loaded`, which says whether the text parsed, raised
 * `ValueError` (Python's `JSONDecodeError` is one), or raised another exception.
 */
module JsonValue {
  import opened Wrappers
  import opened PyStr

  datatype Json =
    | JNull
    | JBool(b: bool)
    | JNum(n: int)
    | JStr(s: string)
    | JArr(items: seq<Json>)
    | JObj(fields: seq<(string, Json)>)

  datatype ExceptionKind = ValueError | OtherException

  datatype Loaded = Parsed(value: Json) | Raised(kind: ExceptionKind, message: string)

  /** The name Python gives the type of the value, as exception messages print it. */
  function TypeName(v: Json): string
  {
    match v
    case JNull => "NoneType"
    case JBool(_) => "bool"
    case JNum(_) => "int"
    case JStr(_) => "str"
    case JArr(_) => "list"
    case JObj(_) => "dict"
  }

  /** Python's `str()` of a value that is not a container (the text of a list or dict is
      not modelled and reads as empty). */
  function Str(v: Json): string
  {
    match v
    case JNull => "None"
    case JBool(b) => if b then "True" else "False"
    case JNum(n) => IntText(n)
    case JStr(s) => s
    case _ => ""
  }

  /** Python's truth value of the value (`if v:`). */
  predicate IsTruthy(v: Json)
  {
    match v
    case JNull => false
    case JBool(b) => b
    case JNum(n) => n != 0
    case JStr(s) => s != ""
    case JArr(items) => items != []
    case JObj(fields) => fields != []
  }

  /** The keys of a dict, in order. */
  function Keys(fields: seq<(string, Json)>): (r: seq<string>)
    ensures |r| == |fields|
    ensures forall i :: 0 <= i < |r| ==> r[i] == fields[i].0
  {
    seq(|fields|, i requires 0 <= i < |fields| => fields[i].0)
  }

  /** No key occurs twice. */
  predicate UniqueKeys(fields: seq<(string, Json)>)
  {
    forall i, j :: 0 <= i < j < |fields| ==> fields[i].0 != fields[j].0
  }

  /** Python's `d.get(k)`: the value bound to `k`, `None` when there is none. */
  function Get(fields: seq<(string, Json)>, k: string): (r: Option<Json>)
    ensures r.None? <==> k !in Keys(fields)
    ensures r.Some? ==> exists i :: 0 <= i < |fields| && fields[i] == (k, r.value)
  {
    if fields == [] then None
    else if fields[0].0 == k then Some(fields[0].1)
    else
      var r := Get(fields[1..], k);
      assert Keys(fields) == [fields[0].0] + Keys(fields[1..]);
      if r.Some? then
        var i :| 0 <= i < |fields[1..]| && fields[1..][i] == (k, r.value);
        assert fields[i + 1] == (k, r.value);
        r
      else r
  }

  /** `d.get(k)` as a condition selects it (`if d.get(k):`): the value when it is present
      and truthy, otherwise none. */
  function TruthyGet(fields: seq<(string, Json)>, k: string): Option<Json>
  {
    var v := Get(fields, k);
    if v.Some? && IsTruthy(v.value) then v else None
  }

  /** Python's `d[k] = v`: an existing key keeps its place and takes the new value, a new
      key goes at the end. */
  function Put(fields: seq<(string, Json)>, k: string, v: Json): (r: seq<(string, Json)>)
    ensures k in Keys(fields) ==> Keys(r) == Keys(fields)
    ensures k !in Keys(fields) ==> Keys(r) == Keys(fields) + [k]
    ensures forall i :: 0 <= i < |fields| && fields[i].0 != k ==> r[i] == fields[i]
  {
    if fields == [] then [(k, v)]
    else if fields[0].0 == k then [(k, v)] + fields[1..]
    else
      assert Keys(fields) == [fields[0].0] + Keys(fields[1..]);
      var rest := Put(fields[1..], k, v);
      assert Keys([fields[0]] + rest) == [fields[0].0] + Keys(rest);
      [fields[0]] + rest
  }

  /** Python's `d.pop(k)` for a key that is present: the entry is removed, the others keep
      their order. */
  function Remove(fields: seq<(string, Json)>, k: string): (r: seq<(string, Json)>)
    ensures |r| <= |fields|
    ensures forall x :: x in Keys(r) <==> x in Keys(fields) && x != k
  {
    if fields == [] then []
    else
      assert Keys(fields) == [fields[0].0] + Keys(fields[1..]);
      var rest := Remove(fields[1..], k);
      if fields[0].0 == k then rest
      else
        assert Keys([fields[0]] + rest) == [fields[0].0] + Keys(rest);
        [fields[0]] + rest
  }

  /** Reading a key back after writing it gives the value written, and every other key
      reads as before. */
  lemma {:induction false} GetPut(fields: seq<(string, Json)>, k: string, v: Json, x: string)
    ensures Get(Put(fields, k, v), x) == if x == k then Some(v) else Get(fields, x)
    decreases |fields|
  {
    if fields != [] && fields[0].0 != k {
      GetPut(fields[1..], k, v, x);
    }
  }

  /** Writing keeps keys unique. */
  lemma {:induction false} PutUnique(fields: seq<(string, Json)>, k: string, v: Json)
    requires UniqueKeys(fields)
    ensures UniqueKeys(Put(fields, k, v))
  {
    var r := Put(fields, k, v);
    forall i, j | 0 <= i < j < |r| ensures r[i].0 != r[j].0 {
      assert Keys(r)[i] == r[i].0 && Keys(r)[j] == r[j].0;
      if k in Keys(fields) {
        assert Keys(fields)[i] == fields[i].0 && Keys(fields)[j] == fields[j].0;
      } else if j < |fields| {
        assert Keys(fields)[i] == fields[i].0 && Keys(fields)[j] == fields[j].0;
      }
    }
  }

  /** After removing a key it reads as absent, and every other key reads as before. */
  lemma {:induction false} GetRemove(fields: seq<(string, Json)>, k: string, x: string)
    ensures Get(Remove(fields, k), x) == if x == k then None else Get(fields, x)
    decreases |fields|
  {
    if fields != [] {
      GetRemove(fields[1..], k, x);
    }
  }
}
