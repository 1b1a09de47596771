/**
 * Values as the service's Python code handles them: decoded JSON documents,
 * the exceptions the code raises or lets through, and the two conversions
 * that Python applies when it formats a value into a prompt (str()) or tests
 * it in a condition (truthiness).
 */
module Values {

  datatype Option<+T> = None | Some(value: T)

  /** A JSON document as Python's json module returns it. A number keeps the
      text Python's str() gives it and whether it is zero, both supplied by
      the decoder. An object keeps its members in document order. */
  datatype Json =
    | JNull
    | JBool(b: bool)
    | JNum(shown: string, isZero: bool)
    | JStr(s: string)
    | JArray(items: seq<Json>)
    | JObject(members: seq<(string, Json)>)

  /** json.loads: the decoded document, or None when the text is not JSON. */
  type Decoder = string -> Option<Json>

  /** The Python exceptions the modelled code raises or propagates. */
  datatype Fault =
    | KeyError(key: string)
    | TypeError
    | AttributeError(name: string)
    | IndexError
    | UnboundLocalError(name: string)
    | DecodeError
    | ValidationError(field: string)
    | ClientError(message: string)
    | RuntimeError(message: string)
    | HttpError(status: int, detail: string)

  /** The result of a Python call: a value, or the exception it raised. */
  datatype Outcome<+T> = Ok(value: T) | Raise(fault: Fault) {
    predicate IsFailure() { Raise? }

    function PropagateFailure<U>(): Outcome<U>
      requires Raise?
    {
      Raise(fault)
    }

    function Extract(): T
      requires Ok?
    {
      value
    }
  }

  /** The text of an exception as `str(e)` renders it. */
  function FaultText(f: Fault): string
  {
    match f
    case KeyError(key) => "'" + key + "'"
    case TypeError => "TypeError"
    case AttributeError(name) => "'NoneType' object has no attribute '" + name + "'"
    case IndexError => "list index out of range"
    case UnboundLocalError(name) => "cannot access local variable '" + name + "'"
    case DecodeError => "Expecting value"
    case ValidationError(field) => field
    case ClientError(message) => message
    case RuntimeError(message) => message
    case HttpError(_, detail) => detail
  }

  /** Python's `d.get(key)` on a decoded object: the value of the LAST member
      with that key, which is the one json.loads keeps. */
  function Get(members: seq<(string, Json)>, key: string): Option<Json>
  {
    if |members| == 0 then None
    else if members[|members| - 1].0 == key then Some(members[|members| - 1].1)
    else Get(members[..|members| - 1], key)
  }

  /** Get finds a value exactly when some member has the key, and what it
      finds is the value of the last such member. */
  lemma {:induction false} GetFindsLast(members: seq<(string, Json)>, key: string)
    ensures Get(members, key).None? <==> forall i :: 0 <= i < |members| ==> members[i].0 != key
    ensures Get(members, key).Some? ==> exists i :: (0 <= i < |members| && members[i] == (key, Get(members, key).value) &&
      forall j :: i < j < |members| ==> members[j].0 != key)
  {
    if |members| > 0 {
      var n := |members| - 1;
      var prefix := members[..n];
      GetFindsLast(prefix, key);
      assert forall i :: 0 <= i < n ==> prefix[i] == members[i];
      if members[n].0 != key && Get(prefix, key).Some? {
        var i :| 0 <= i < n && prefix[i] == (key, Get(prefix, key).value) &&
          forall j :: i < j < n ==> prefix[j].0 != key;
        assert members[i] == (key, Get(members, key).value);
      }
    }
  }

  /** Python's subscript `v[key]` with a string key: a dict yields the member
      or raises KeyError; every other decoded value raises TypeError. */
  function Index(v: Json, key: string): (r: Outcome<Json>)
    ensures r.Ok? <==> v.JObject? && Get(v.members, key).Some?
    ensures r.Ok? ==> r.value == Get(v.members, key).value
    ensures v.JObject? && Get(v.members, key).None? ==> r == Raise(KeyError(key))
    ensures !v.JObject? ==> r == Raise(TypeError)
  {
    match v
    case JObject(members) =>
      (match Get(members, key)
       case Some(x) => Ok(x)
       case None => Raise(KeyError(key)))
    case _ => Raise(TypeError)
  }

  /** Python's truthiness of a decoded value. */
  predicate Truthy(v: Json)
  {
    match v
    case JNull => false
    case JBool(b) => b
    case JNum(_, isZero) => !isZero
    case JStr(s) => s != ""
    case JArray(items) => |items| > 0
    case JObject(members) => |members| > 0
  }

  /** Python's `str(v)`: a string is itself, everything else its repr. */
  function Show(v: Json): string
  {
    if v.JStr? then v.s else Repr(v)
  }

  /** Python's `repr(v)` of a decoded value (strings single-quoted). */
  function Repr(v: Json): string
    decreases v, 1
  {
    match v
    case JNull => "None"
    case JBool(b) => if b then "True" else "False"
    case JNum(shown, _) => shown
    case JStr(s) => "'" + s + "'"
    case JArray(items) => "[" + ReprItems(items) + "]"
    case JObject(members) => "{" + ReprMembers(v, 0) + "}"
  }

  function ReprItems(items: seq<Json>): string
    decreases items
  {
    if |items| == 0 then ""
    else if |items| == 1 then Repr(items[0])
    else Repr(items[0]) + ", " + ReprItems(items[1..])
  }

  /** The members of object `v` from index `i` on, as `repr` lists them. */
  function ReprMembers(v: Json, i: nat): string
    requires v.JObject?
    decreases v, 0, |v.members| - i
  {
    if i >= |v.members| then ""
    else
      var (key, item) := v.members[i];
      assert v.members[i] in v.members;
      var m := "'" + key + "': " + Repr(item);
      if i + 1 == |v.members| then m else m + ", " + ReprMembers(v, i + 1)
  }

  /** Python's f-string rendering of an Optional[str] field. */
  function ShowOptional(o: Option<string>): (r: string)
    ensures o.Some? ==> r == o.value
  {
    match o
    case Some(s) => s
    case None => "None"
  }

  /** Python's truthiness of an Optional[str] field. */
  predicate Present(o: Option<string>)
  {
    o.Some? && o.value != ""
  }
}
