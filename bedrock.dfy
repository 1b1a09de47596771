/**
 * AWSBedrockService (controllers/ai/bedrock.py): the keyword arguments the
 * boto3 client is created with, the default request parameters, the merge
 * of those defaults with the caller's keyword arguments, and the fold that
 * reassembles the reply from the response stream. The boto3 call itself is
 * a parameter: from the model id and the request body, the stream of
 * decoded events (or none), or the exception the call raised.
 */
module Bedrock {
  import opened Values
  import opened Text

  /** A Python dict with string keys: its members in insertion order. */
  type Dict = seq<(string, Json)>

  /** The keys of a dict, in insertion order. */
  function Keys(d: Dict): (r: seq<string>)
    ensures |r| == |d|
  {
    seq(|d|, i requires 0 <= i < |d| => d[i].0)
  }

  /** `key in d`. */
  predicate HasKey(d: Dict, key: string)
  {
    Get(d, key).Some?
  }

  /** Every key occurs once, as in a real dict. */
  predicate UniqueKeys(d: Dict)
  {
    forall i, j :: 0 <= i < j < |d| ==> d[i].0 != d[j].0
  }

  /** In a dict whose keys are distinct, each key finds its own value. */
  lemma GetAt(d: Dict, i: int)
    requires UniqueKeys(d) && 0 <= i < |d|
    ensures Get(d, d[i].0) == Some(d[i].1)
  {
    GetFindsLast(d, d[i].0);
  }

  // ---------------------------------------------------------------------
  // Setting a key and merging two dicts
  // ---------------------------------------------------------------------

  /** Every member under `key` gets `value`; the others stay as they are. */
  function Replace(d: Dict, key: string, value: Json): Dict
  {
    seq(|d|, i requires 0 <= i < |d| => if d[i].0 == key then (key, value) else d[i])
  }

  /** After the replacement, `key` is found with the new value exactly when
      it was there before, and every other key finds what it found before. */
  lemma {:induction false} GetReplace(d: Dict, key: string, value: Json, k: string)
    ensures Get(Replace(d, key, value), k) ==
      if k != key then Get(d, k) else if HasKey(d, key) then Some(value) else None
  {
    if |d| > 0 {
      var n := |d| - 1;
      assert Replace(d, key, value)[..n] == Replace(d[..n], key, value);
      GetReplace(d[..n], key, value, k);
    }
  }

  /** `d[key] = value`: an existing key keeps its place and takes the new
      value; a new key is added at the end. */
  function Put(d: Dict, key: string, value: Json): Dict
  {
    if HasKey(d, key) then Replace(d, key, value) else d + [(key, value)]
  }

  /** After `d[key] = value`, `key` finds `value` and every other key finds
      what it found before. */
  lemma PutGet(d: Dict, key: string, value: Json, k: string)
    ensures Get(Put(d, key, value), k) == if k == key then Some(value) else Get(d, k)
  {
    if HasKey(d, key) {
      GetReplace(d, key, value, k);
    } else {
      assert (d + [(key, value)])[..|d|] == d;
    }
  }

  /** Setting a key keeps the earlier keys in their places, and adds the
      key at the end when it is new. */
  lemma PutKeys(d: Dict, key: string, value: Json)
    ensures HasKey(d, key) ==> Keys(Put(d, key, value)) == Keys(d)
    ensures !HasKey(d, key) ==> Keys(Put(d, key, value)) == Keys(d) + [key]
  {
  }

  /** `{**params, **kwargs}`: the params, then each keyword argument set in
      turn, so that the keyword arguments win. */
  function Merge(params: Dict, kwargs: Dict): Dict
  {
    if |kwargs| == 0 then params
    else
      var n := |kwargs| - 1;
      Put(Merge(params, kwargs[..n]), kwargs[n].0, kwargs[n].1)
  }

  /** The merged dict has the union of the keys; a key of the keyword
      arguments finds their value, any other key the params' value. */
  lemma {:induction false} MergeGet(params: Dict, kwargs: Dict, key: string)
    ensures Get(Merge(params, kwargs), key) == if HasKey(kwargs, key) then Get(kwargs, key) else Get(params, key)
    ensures HasKey(Merge(params, kwargs), key) <==> HasKey(params, key) || HasKey(kwargs, key)
  {
    if |kwargs| > 0 {
      var n := |kwargs| - 1;
      MergeGet(params, kwargs[..n], key);
      PutGet(Merge(params, kwargs[..n]), kwargs[n].0, kwargs[n].1, key);
    }
  }

  /** The params' keys keep their places at the front of the merged dict. */
  lemma {:induction false} MergeKeepsParamsOrder(params: Dict, kwargs: Dict)
    ensures |params| <= |Merge(params, kwargs)|
    ensures Keys(Merge(params, kwargs))[..|params|] == Keys(params)
  {
    if |kwargs| > 0 {
      var n := |kwargs| - 1;
      var before := Merge(params, kwargs[..n]);
      MergeKeepsParamsOrder(params, kwargs[..n]);
      PutKeys(before, kwargs[n].0, kwargs[n].1);
      if !HasKey(before, kwargs[n].0) {
        assert (Keys(before) + [kwargs[n].0])[..|params|] == Keys(before)[..|params|];
      }
    }
  }

  /** Merged into nothing, keyword arguments with distinct keys come out
      exactly as they went in. */
  lemma {:induction false} MergeIntoEmpty(kwargs: Dict)
    requires UniqueKeys(kwargs)
    ensures Merge([], kwargs) == kwargs
  {
    if |kwargs| > 0 {
      var n := |kwargs| - 1;
      var prefix := kwargs[..n];
      assert UniqueKeys(prefix);
      MergeIntoEmpty(prefix);
      GetFindsLast(prefix, kwargs[n].0);
      assert prefix + [kwargs[n]] == kwargs;
    }
  }

  // ---------------------------------------------------------------------
  // __init__: the client's keyword arguments
  // ---------------------------------------------------------------------

  /** The keyword arguments of the boto3 client: the region, and both
      credentials when the config names both. A config without a region
      raises KeyError. */
  function ClientKwargs(config: Dict): (r: Outcome<Dict>)
    ensures r.Raise? <==> !HasKey(config, "region_name")
    ensures r.Raise? ==> r.fault == KeyError("region_name")
    ensures r.Ok? ==> Get(r.value, "region_name") == Get(config, "region_name")
    ensures r.Ok? ==>
      Keys(r.value) ==
        if HasKey(config, "aws_access_key_id") && HasKey(config, "aws_secret_access_key")
        then ["region_name", "aws_access_key_id", "aws_secret_access_key"]
        else ["region_name"]
    ensures r.Ok? && HasKey(config, "aws_access_key_id") && HasKey(config, "aws_secret_access_key") ==>
      Get(r.value, "aws_access_key_id") == Get(config, "aws_access_key_id") &&
      Get(r.value, "aws_secret_access_key") == Get(config, "aws_secret_access_key")
  {
    if !HasKey(config, "region_name") then Raise(KeyError("region_name"))
    else
      var kwargs := [("region_name", Get(config, "region_name").value)];
      if HasKey(config, "aws_access_key_id") && HasKey(config, "aws_secret_access_key") then
        var all := kwargs
          + [("aws_access_key_id", Get(config, "aws_access_key_id").value)]
          + [("aws_secret_access_key", Get(config, "aws_secret_access_key").value)];
        GetAt(all, 0); GetAt(all, 1); GetAt(all, 2);
        Ok(all)
      else Ok(kwargs)
  }

  // ---------------------------------------------------------------------
  // _default_params and the request body
  // ---------------------------------------------------------------------

  /** The one user message of the default parameters. */
  function UserMessage(user: string): Json
  {
    JObject([("role", JStr("user")),
             ("content", JArray([JObject([("type", JStr("text")), ("text", JStr(user))])]))])
  }

  /** The default parameters: exactly the Anthropic version, the token
      limit of 50000, the system prompt and the user message. */
  function DefaultParams(system: string, user: string): (r: Dict)
    ensures Keys(r) == ["anthropic_version", "max_tokens", "system", "messages"]
    ensures Get(r, "anthropic_version") == Some(JStr("bedrock-2023-05-31"))
    ensures Get(r, "max_tokens") == Some(JNum("50000", false))
    ensures Get(r, "system") == Some(JStr(system))
    ensures Get(r, "messages") == Some(JArray([UserMessage(user)]))
    ensures UniqueKeys(r)
  {
    var params := [("anthropic_version", JStr("bedrock-2023-05-31")),
                   ("max_tokens", JNum("50000", false)),
                   ("system", JStr(system)),
                   ("messages", JArray([UserMessage(user)]))];
    GetAt(params, 0); GetAt(params, 1); GetAt(params, 2); GetAt(params, 3);
    params
  }

  /** The request body before json.dumps: the defaults, or nothing when
      they are ignored, overridden by the keyword arguments. */
  function RequestBody(system: string, user: string, ignoreDefaults: bool, kwargs: Dict): Dict
  {
    Merge(if ignoreDefaults then [] else DefaultParams(system, user), kwargs)
  }

  /** With the defaults, a keyword argument wins over a default parameter
      of the same name; every other key keeps its default. */
  lemma RequestBodyGet(system: string, user: string, kwargs: Dict, key: string)
    ensures Get(RequestBody(system, user, false, kwargs), key) ==
      if HasKey(kwargs, key) then Get(kwargs, key) else Get(DefaultParams(system, user), key)
  {
    MergeGet(DefaultParams(system, user), kwargs, key);
  }

  /** With ignore_defaults_params, the body is the keyword arguments. */
  lemma RequestBodyIgnoringDefaults(system: string, user: string, kwargs: Dict)
    requires UniqueKeys(kwargs)
    ensures RequestBody(system, user, true, kwargs) == kwargs
  {
    MergeIntoEmpty(kwargs);
  }

  // ---------------------------------------------------------------------
  // generate_response: the stream fold
  // ---------------------------------------------------------------------

  /** invoke_model_with_response_stream and `response.get('body')`: from
      the model id and the request body, the events of the stream, none
      when the response has no body, or the exception the call raised. */
  type Invoker = (Json, Dict) -> Outcome<Option<seq<Json>>>

  /** `json.loads(b)`: a text that is not JSON raises a decode error, and a
      value that is not text a TypeError. */
  function Loads(b: Json, loads: Decoder): (r: Outcome<Json>)
    ensures r.Ok? ==> b.JStr? && loads(b.s) == Some(r.value)
    ensures b.JStr? && loads(b.s).Some? ==> r == Ok(loads(b.s).value)
    ensures b.JStr? && loads(b.s).None? ==> r == Raise(DecodeError)
    ensures !b.JStr? ==> r == Raise(TypeError)
  {
    if !b.JStr? then Raise(TypeError)
    else match loads(b.s)
      case None => Raise(DecodeError)
      case Some(v) => Ok(v)
  }

  /** `v[a][b]`. */
  function Member2(v: Json, a: string, b: string): Outcome<Json>
  {
    var x :- Index(v, a);
    Index(x, b)
  }

  /** The chunk an event carries: `json.loads(event['chunk']['bytes'])`. */
  function ChunkOf(event: Json, loads: Decoder): Outcome<Json>
  {
    var bytes :- Member2(event, "chunk", "bytes");
    Loads(bytes, loads)
  }

  /** A chunk whose type is content_block_delta. */
  predicate IsDelta(chunk: Json)
  {
    Index(chunk, "type") == Ok(JStr("content_block_delta"))
  }

  /** What one event adds to the reply: the delta's text for a
      content_block_delta chunk and nothing for any other chunk. A text
      that is not a string cannot be appended and raises TypeError. */
  function EventText(event: Json, loads: Decoder): (r: Outcome<string>)
    ensures r.Ok? ==> ChunkOf(event, loads).Ok?
    ensures r.Ok? && !IsDelta(ChunkOf(event, loads).value) ==> r.value == ""
    ensures r.Ok? && IsDelta(ChunkOf(event, loads).value) ==>
      Member2(ChunkOf(event, loads).value, "delta", "text") == Ok(JStr(r.value))
    ensures ChunkOf(event, loads).Raise? ==> r == Raise(ChunkOf(event, loads).fault)
    ensures ChunkOf(event, loads).Ok? && Index(ChunkOf(event, loads).value, "type").Raise? ==>
      r == Raise(Index(ChunkOf(event, loads).value, "type").fault)
    ensures (ChunkOf(event, loads).Ok? && Index(ChunkOf(event, loads).value, "type").Ok? &&
             !IsDelta(ChunkOf(event, loads).value)) ==> r == Ok("")
    ensures ChunkOf(event, loads).Ok? && IsDelta(ChunkOf(event, loads).value) ==>
      var text := Member2(ChunkOf(event, loads).value, "delta", "text");
      (text.Raise? ==> r == Raise(text.fault)) &&
      (text.Ok? && text.value.JStr? ==> r == Ok(text.value.s)) &&
      (text.Ok? && !text.value.JStr? ==> r == Raise(TypeError))
  {
    var chunk :- ChunkOf(event, loads);
    var kind :- Index(chunk, "type");
    if kind == JStr("content_block_delta") then
      var text :- Member2(chunk, "delta", "text");
      if text.JStr? then Ok(text.s) else Raise(TypeError)
    else Ok("")
  }

  /** The reply reassembled from `events`: the texts of the events in
      order, or the first exception an event raises. */
  function StreamText(events: seq<Json>, loads: Decoder): Outcome<string>
  {
    if |events| == 0 then Ok("")
    else
      var n := |events| - 1;
      var before :- StreamText(events[..n], loads);
      var text :- EventText(events[n], loads);
      Ok(before + text)
  }

  /** Once an event has raised, the events after it are not read. */
  lemma StreamStop(events: seq<Json>, loads: Decoder, k: int)
    requires 0 <= k <= |events| && StreamText(events[..k], loads).Raise?
    ensures StreamText(events, loads) == StreamText(events[..k], loads)
  {
    assert events == events[..k] + events[k..];
    StreamAppend(events[..k], events[k..], loads);
  }

  /** A stream of one event yields that event's text. */
  lemma StreamSingle(event: Json, loads: Decoder)
    ensures StreamText([event], loads) == EventText(event, loads)
  {
    assert [event][..0] == [];
    if EventText(event, loads).Ok? {
      EmptyUnit(EventText(event, loads).value);
    }
  }

  /** The reply of two streams in a row is the first one's text followed
      by the second one's, and the first exception raised otherwise. */
  lemma {:induction false} StreamAppend(a: seq<Json>, b: seq<Json>, loads: Decoder)
    ensures StreamText(a, loads).Raise? ==> StreamText(a + b, loads) == StreamText(a, loads)
    ensures StreamText(a, loads).Ok? && StreamText(b, loads).Raise? ==> StreamText(a + b, loads) == StreamText(b, loads)
    ensures StreamText(a, loads).Ok? && StreamText(b, loads).Ok? ==>
      StreamText(a + b, loads) == Ok(StreamText(a, loads).value + StreamText(b, loads).value)
    decreases |b|
  {
    if |b| == 0 {
      assert a + b == a;
      if StreamText(a, loads).Ok? {
        EmptyUnit(StreamText(a, loads).value);
      }
    } else {
      var n := |b| - 1;
      StreamAppend(a, b[..n], loads);
      assert (a + b)[..|a + b| - 1] == a + b[..n];
      assert (a + b)[|a + b| - 1] == b[n];
      if StreamText(a, loads).Ok? && StreamText(b[..n], loads).Ok? && EventText(b[n], loads).Ok? {
        ConcatAssoc(StreamText(a, loads).value, StreamText(b[..n], loads).value, EventText(b[n], loads).value);
      }
    }
  }

  /** The exception generate_response raises for any failure. */
  function Wrapped(f: Fault): (r: Fault)
    ensures r.RuntimeError? && StartsWith(r.message, "Bedrock API error: ")
  {
    RuntimeError("Bedrock API error: " + FaultText(f))
  }

  /** generate_response after the body is built: the reassembled text, ""
      when the response has no stream, and any failure of the call or of
      an event re-raised as a RuntimeError. */
  function Reply(modelId: Json, body: Dict, invoke: Invoker, loads: Decoder): (r: Outcome<string>)
    ensures invoke(modelId, body) == Ok(None) ==> r == Ok("")
    ensures invoke(modelId, body) == Ok(Some([])) ==> r == Ok("")
    ensures invoke(modelId, body).Raise? ==> r == Raise(Wrapped(invoke(modelId, body).fault))
    ensures invoke(modelId, body).Ok? && invoke(modelId, body).value.Some? ==>
      var text := StreamText(invoke(modelId, body).value.value, loads);
      (text.Ok? ==> r == text) && (text.Raise? ==> r == Raise(Wrapped(text.fault)))
    ensures r.Raise? ==> r.fault.RuntimeError? && StartsWith(r.fault.message, "Bedrock API error: ")
  {
    match invoke(modelId, body)
    case Raise(f) => Raise(Wrapped(f))
    case Ok(None) => Ok("")
    case Ok(Some(events)) =>
      match StreamText(events, loads)
      case Raise(f) => Raise(Wrapped(f))
      case Ok(text) => Ok(text)
  }

  /** The stream loop of generate_response: the text of each event in
      turn appended to the reply, stopping at the first exception. */
  method ReadStream(events: seq<Json>, loads: Decoder) returns (r: Outcome<string>)
    ensures r == StreamText(events, loads)
  {
    var text := "";
    for k := 0 to |events|
      invariant StreamText(events[..k], loads) == Ok(text)
    {
      assert events[..k + 1][..k] == events[..k];
      var piece := EventText(events[k], loads);
      if piece.Raise? {
        StreamStop(events, loads, k + 1);
        return piece;
      }
      text := text + piece.value;
    }
    assert events[..|events|] == events;
    return Ok(text);
  }

  // ---------------------------------------------------------------------
  // The service
  // ---------------------------------------------------------------------

  /** A Bedrock service: the keyword arguments its client was created with
      and the model it invokes. */
  class BedrockService {
    var clientKwargs: Dict
    var modelId: Json

    /** __init__ on a config that names a region and a model. */
    constructor (config: Dict)
      requires HasKey(config, "region_name") && HasKey(config, "model_id")
      ensures clientKwargs == ClientKwargs(config).value
      ensures modelId == Get(config, "model_id").value
    {
      var kwargs := [("region_name", Get(config, "region_name").value)];
      if HasKey(config, "aws_access_key_id") && HasKey(config, "aws_secret_access_key") {
        GetFindsLast(kwargs, "aws_access_key_id");
        kwargs := Put(kwargs, "aws_access_key_id", Get(config, "aws_access_key_id").value);
        GetFindsLast(kwargs, "aws_secret_access_key");
        kwargs := Put(kwargs, "aws_secret_access_key", Get(config, "aws_secret_access_key").value);
      }
      clientKwargs := kwargs;
      modelId := Get(config, "model_id").value;
    }

    /** generate_response: builds the body, invokes the model and folds
        the stream into the reply. */
    method GenerateResponse(user: string, system: string, ignoreDefaults: bool, kwargs: Dict,
                            invoke: Invoker, loads: Decoder) returns (r: Outcome<string>)
      ensures r == Reply(modelId, RequestBody(system, user, ignoreDefaults, kwargs), invoke, loads)
    {
      var params: Dict;
      if ignoreDefaults {
        params := [];
      } else {
        params := DefaultParams(system, user);
      }
      var body := Merge(params, kwargs);
      var response := invoke(modelId, body);
      if response.Raise? {
        return Raise(Wrapped(response.fault));
      }
      match response.value
      case None =>
        return Ok("");
      case Some(events) =>
        var text := ReadStream(events, loads);
        if text.Raise? {
          return Raise(Wrapped(text.fault));
        }
        return text;
    }
  }

  /** Creating the service: KeyError for a config without a region, then
      for one without a model id; otherwise a new service. */
  method Connect(config: Dict) returns (r: Outcome<BedrockService>)
    ensures r.Raise? <==> !HasKey(config, "region_name") || !HasKey(config, "model_id")
    ensures !HasKey(config, "region_name") ==> r == Raise(KeyError("region_name"))
    ensures HasKey(config, "region_name") && !HasKey(config, "model_id") ==> r == Raise(KeyError("model_id"))
    ensures r.Ok? ==> fresh(r.value)
    ensures r.Ok? ==> r.value.clientKwargs == ClientKwargs(config).value
    ensures r.Ok? ==> r.value.modelId == Get(config, "model_id").value
  {
    if !HasKey(config, "region_name") {
      return Raise(KeyError("region_name"));
    }
    if !HasKey(config, "model_id") {
      return Raise(KeyError("model_id"));
    }
    var service := new BedrockService(config);
    return Ok(service);
  }
}
