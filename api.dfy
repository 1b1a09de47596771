/**
 * The HTTP endpoints of main.py that do more than forward a request: the
 * generic Bedrock invocation (invoke_bedrock), which checks its input,
 * shapes the request body by model family and picks the completion out of
 * the reply, and the policy-document check (policy_docs), which asks about
 * each requested document in turn. The Bedrock call, reading the request
 * and json.loads are parameters.
 */
module Api {
  import opened Values
  import opened Text
  import opened Bedrock
  import opened Controller
  import opened Manager

  // ---------------------------------------------------------------------
  // invoke_bedrock
  // ---------------------------------------------------------------------

  /** The model asked when the request names none. */
  const DefaultModel := "anthropic.claude-v2"

  /** The detail of the 400 raised for a request without a user prompt. */
  const MissingPrompt := "Missing required parameter: user_prompt"

  /** What bedrock.invoke_model and `response['body'].read()` give: the
      text of the reply, or the message of the exception the client
      raised. */
  datatype ClientReply = Replied(text: string) | ClientFailed(message: string)

  /** The Bedrock runtime client: from the model id and the request body,
      its reply. */
  type RawInvoker = (Json, Dict) -> ClientReply

  /** `data.get(key, default)`. */
  function GetOr(data: Dict, key: string, default: Json): (r: Json)
    ensures HasKey(data, key) ==> r == Get(data, key).value
    ensures !HasKey(data, key) ==> r == default
  {
    match Get(data, key)
    case Some(v) => v
    case None => default
  }

  /** `sub in s` on two strings. */
  predicate HasSubstring(s: string, sub: string)
  {
    exists k :: 0 <= k <= |s| - |sub| && OccursAt(s, sub, k)
  }

  /** Python's `needle in v` for a string needle: a substring of a string,
      an element of a list, a key of a dict; any other value cannot be
      searched and raises TypeError. */
  function In(needle: string, v: Json): (r: Outcome<bool>)
    ensures r.Raise? <==> !(v.JStr? || v.JArray? || v.JObject?)
    ensures v.JStr? ==> (r == Ok(true) <==> Contains(v.s, needle))
  {
    match v
    case JStr(s) => Ok(HasSubstring(s, needle))
    case JArray(items) => Ok(JStr(needle) in items)
    case JObject(members) => Ok(HasKey(members, needle))
    case _ => Raise(TypeError)
  }

  /** The Human/Assistant prompt of an Anthropic model; the system prompt
      opens the Human turn when it is truthy. */
  function AnthropicPrompt(system: Json, user: Json): (r: string)
    ensures StartsWith(r, "\n\nHuman: ") && EndsWith(r, "\n\nAssistant:")
    ensures Truthy(system) ==> StartsWith(r, "\n\nHuman: " + Show(system) + "\n\n")
    ensures !Truthy(system) ==> StartsWith(r, "\n\nHuman: " + Show(user) + "\n\nAssistant:")
    ensures Contains(r, Show(user))
  {
    if Truthy(system) then
      PromptWithSystem(Show(system), Show(user));
      "\n\nHuman: " + Show(system) + "\n\n" + Show(user) + "\n\nAssistant:"
    else
      PromptWithoutSystem(Show(user));
      "\n\nHuman: " + Show(user) + "\n\nAssistant:"
  }

  /** The Human turn that opens with the system prompt: where its parts are. */
  lemma PromptWithSystem(system: string, user: string)
    ensures var p := "\n\nHuman: " + system + "\n\n" + user + "\n\nAssistant:";
      StartsWith(p, "\n\nHuman: " + system + "\n\n") && StartsWith(p, "\n\nHuman: ") &&
      EndsWith(p, "\n\nAssistant:") && Contains(p, user)
  {
    var head := "\n\nHuman: ";
    var tail := "\n\nAssistant:";
    var lead := head + system + "\n\n";
    var p := lead + user + tail;
    StartsAtFront(lead, user);
    StartsExtend(lead + user, tail, lead);
    StartsAtFront(head, system);
    StartsExtend(head + system, "\n\n", head);
    assert p[..|lead|][..|head|] == p[..|head|];
    assert p[|p| - |tail|..] == tail;
    OccursAtEnd(lead, user);
    OccursExtend(lead + user, tail, user, |lead|);
    ContainsAt(p, user, |lead|);
  }

  /** The Human turn of the user prompt alone: where its parts are. */
  lemma PromptWithoutSystem(user: string)
    ensures var p := "\n\nHuman: " + user + "\n\nAssistant:";
      StartsWith(p, "\n\nHuman: " + user + "\n\nAssistant:") && StartsWith(p, "\n\nHuman: ") &&
      EndsWith(p, "\n\nAssistant:") && Contains(p, user)
  {
    var head := "\n\nHuman: ";
    var tail := "\n\nAssistant:";
    var p := head + user + tail;
    StartsAtFront(head, user);
    StartsExtend(head + user, tail, head);
    assert p[|p| - |tail|..] == tail;
    OccursAtEnd(head, user);
    OccursExtend(head + user, tail, user, |head|);
    ContainsAt(p, user, |head|);
  }

  /** The request body of an Anthropic model: its Human/Assistant prompt
      and the Anthropic sampling fields. */
  function AnthropicBody(prompt: string): (r: Dict)
    ensures Keys(r) == ["prompt", "max_tokens_to_sample", "temperature", "top_p", "stop_sequences"]
    ensures Get(r, "prompt") == Some(JStr(prompt))
    ensures Get(r, "max_tokens_to_sample") == Some(JNum("2000", false))
    ensures Get(r, "temperature") == Some(JNum("0.7", false)) && Get(r, "top_p") == Some(JNum("0.9", false))
    ensures Get(r, "stop_sequences") == Some(JArray([JStr("\n\nHuman:")]))
  {
    var body := [("prompt", JStr(prompt)),
                 ("max_tokens_to_sample", JNum("2000", false)),
                 ("temperature", JNum("0.7", false)),
                 ("top_p", JNum("0.9", false)),
                 ("stop_sequences", JArray([JStr("\n\nHuman:")]))];
    GetAt(body, 0); GetAt(body, 1); GetAt(body, 2); GetAt(body, 3); GetAt(body, 4);
    body
  }

  /** The request body of any other model: both prompts as given and the
      generic sampling fields. */
  function GenericBody(system: Json, user: Json): (r: Dict)
    ensures Keys(r) == ["system_prompt", "prompt", "max_tokens", "temperature", "top_p"]
    ensures Get(r, "system_prompt") == Some(system) && Get(r, "prompt") == Some(user)
    ensures Get(r, "max_tokens") == Some(JNum("2000", false))
    ensures Get(r, "temperature") == Some(JNum("0.7", false)) && Get(r, "top_p") == Some(JNum("0.9", false))
  {
    var body := [("system_prompt", system),
                 ("prompt", user),
                 ("max_tokens", JNum("2000", false)),
                 ("temperature", JNum("0.7", false)),
                 ("top_p", JNum("0.9", false))];
    GetAt(body, 0); GetAt(body, 1); GetAt(body, 2); GetAt(body, 3); GetAt(body, 4);
    body
  }

  /** The request body for the model family. */
  function InvokeBody(anthropic: bool, system: Json, user: Json): Dict
  {
    if anthropic then AnthropicBody(AnthropicPrompt(system, user)) else GenericBody(system, user)
  }

  /** The completion text of a decoded reply: `completion` (or "") for an
      Anthropic model; otherwise the first of `generated_text`, `text` and
      `output` the reply has, or the reply itself as str() renders it. A
      reply that is not a dict has no `get` and raises. */
  function Completion(anthropic: bool, reply: Json): (r: Outcome<Json>)
    ensures r.Raise? <==> !reply.JObject?
    ensures r.Ok? && anthropic ==>
      r.value == if HasKey(reply.members, "completion") then Get(reply.members, "completion").value else JStr("")
    ensures r.Ok? && !anthropic && HasKey(reply.members, "generated_text") ==>
      r.value == Get(reply.members, "generated_text").value
    ensures r.Ok? && !anthropic && !HasKey(reply.members, "generated_text") && HasKey(reply.members, "text") ==>
      r.value == Get(reply.members, "text").value
    ensures r.Ok? && !anthropic && !HasKey(reply.members, "generated_text") && !HasKey(reply.members, "text") ==>
      r.value == if HasKey(reply.members, "output") then Get(reply.members, "output").value else JStr(Repr(reply))
  {
    if !reply.JObject? then Raise(AttributeError("get"))
    else if anthropic then Ok(GetOr(reply.members, "completion", JStr("")))
    else Ok(GetOr(reply.members, "generated_text",
              GetOr(reply.members, "text",
                GetOr(reply.members, "output", JStr(Show(reply))))))
  }

  /** What follows the model call: decode the reply, pick the completion
      and wrap both with the model id. */
  function Answer(modelId: Json, anthropic: bool, raw: ClientReply, loads: Decoder): (r: Outcome<Json>)
    ensures raw.ClientFailed? ==> r == Raise(ClientError(raw.message))
    ensures r.Raise? ==> !r.fault.HttpError?
    ensures r.Ok? ==> r.value.JObject? && Get(r.value.members, "model") == Some(modelId)
    ensures raw.Replied? && Loads(JStr(raw.text), loads).Raise? ==> r == Loads(JStr(raw.text), loads)
    ensures raw.Replied? && Loads(JStr(raw.text), loads).Ok? ==>
      var reply := Loads(JStr(raw.text), loads).value;
      (Completion(anthropic, reply).Raise? ==> r == Raise(Completion(anthropic, reply).fault)) &&
      (Completion(anthropic, reply).Ok? ==>
        r == Ok(JObject([("status", JStr("success")),
                         ("model", modelId),
                         ("response", JObject([("completion", Completion(anthropic, reply).value),
                                               ("raw_response", reply)]))])))
  {
    var text :- match raw
      case Replied(t) => Ok(t)
      case ClientFailed(m) => Raise(ClientError(m));
    var reply :- Loads(JStr(text), loads);
    var completion :- Completion(anthropic, reply);
    var answer := [("status", JStr("success")),
                   ("model", modelId),
                   ("response", JObject([("completion", completion), ("raw_response", reply)]))];
    GetAt(answer, 1);
    Ok(JObject(answer))
  }

  /** The body of the try block: read the fields, reject a missing prompt,
      shape the body, invoke the model and answer. */
  function Attempt(data: Json, invoke: RawInvoker, loads: Decoder): (r: Outcome<Json>)
    ensures r.Raise? && r.fault.HttpError? ==> r.fault == HttpError(400, MissingPrompt)
  {
    if !data.JObject? then Raise(AttributeError("get"))
    else
      var modelId := GetOr(data.members, "model_id", JStr(DefaultModel));
      var system := GetOr(data.members, "system_prompt", JStr(""));
      var user := GetOr(data.members, "user_prompt", JStr(""));
      if !Truthy(user) then Raise(HttpError(400, MissingPrompt))
      else
        var anthropic :- In("anthropic", modelId);
        Answer(modelId, anthropic, invoke(modelId, InvokeBody(anthropic, system, user)), loads)
  }

  /** The except clauses of invoke_bedrock: an HTTPException passes
      through unchanged, any other exception becomes a 500 naming it. */
  function Respond(attempt: Outcome<Json>): (r: Outcome<Json>)
    ensures attempt.Ok? ==> r == attempt
    ensures attempt.Raise? && attempt.fault.HttpError? ==> r == attempt
    ensures attempt.Raise? && !attempt.fault.HttpError? ==>
      r.Raise? && r.fault.HttpError? && r.fault.status == 500 && StartsWith(r.fault.detail, "Bedrock invocation failed: ")
  {
    match attempt
    case Ok(v) => Ok(v)
    case Raise(f) =>
      if f.HttpError? then Raise(f)
      else
        StartsAtFront("Bedrock invocation failed: ", FaultText(f));
        Raise(HttpError(500, "Bedrock invocation failed: " + FaultText(f)))
  }

  /** invoke_bedrock: the request is read as JSON, then attempted. Every
      failure is an HTTP error: the 400 for a missing prompt, or a 500. */
  function InvokeBedrock(request: string, invoke: RawInvoker, loads: Decoder): (r: Outcome<Json>)
    ensures r.Raise? ==> r.fault.HttpError?
    ensures r.Raise? ==>
      (r.fault == HttpError(400, MissingPrompt) ||
       (r.fault.status == 500 && StartsWith(r.fault.detail, "Bedrock invocation failed: ")))
  {
    Respond(match loads(request)
      case None => Raise(DecodeError)
      case Some(data) => Attempt(data, invoke, loads))
  }

  /** A request whose user prompt is missing or empty is rejected with a
      400 whatever the model would have answered: the model is never
      asked. */
  lemma RejectsMissingPrompt(request: string, invoke: RawInvoker, loads: Decoder, members: Dict)
    requires loads(request) == Some(JObject(members))
    requires !Truthy(GetOr(members, "user_prompt", JStr("")))
    ensures InvokeBedrock(request, invoke, loads) == Raise(HttpError(400, MissingPrompt))
  {
  }

  /** A request without a model id asks the default Anthropic model, with
      the Anthropic body. */
  lemma DefaultsToClaude(invoke: RawInvoker, loads: Decoder, members: Dict)
    requires !HasKey(members, "model_id")
    requires Truthy(GetOr(members, "user_prompt", JStr("")))
    ensures Attempt(JObject(members), invoke, loads) ==
      Answer(JStr(DefaultModel), true,
        invoke(JStr(DefaultModel), InvokeBody(true, GetOr(members, "system_prompt", JStr("")), GetOr(members, "user_prompt", JStr("")))),
        loads)
  {
    assert OccursAt(DefaultModel, "anthropic", 0);
  }

  /** A model id naming "anthropic" gets the Anthropic body, any other
      string the generic one. */
  lemma BodyByFamily(invoke: RawInvoker, loads: Decoder, members: Dict, model: string)
    requires Get(members, "model_id") == Some(JStr(model))
    requires Truthy(GetOr(members, "user_prompt", JStr("")))
    ensures Attempt(JObject(members), invoke, loads) ==
      Answer(JStr(model), Contains(model, "anthropic"),
        invoke(JStr(model), InvokeBody(Contains(model, "anthropic"), GetOr(members, "system_prompt", JStr("")), GetOr(members, "user_prompt", JStr("")))),
        loads)
  {
    assert In("anthropic", JStr(model)) == Ok(Contains(model, "anthropic"));
  }

  // ---------------------------------------------------------------------
  // policy_docs
  // ---------------------------------------------------------------------

  /** A document the caller asks about. */
  datatype PolicyDocument = PolicyDocument(title: string)

  /** policy_docs: one answer per document, in request order, each the
      manager's detect_file_knowledge for the document's title; the first
      exception a check raises ends the loop. */
  method PolicyDocs(backend: Backend, loads: Decoder, documents: seq<PolicyDocument>)
    returns (r: Outcome<seq<PolicyDocumentResponse>>)
    ensures r.Ok? ==> |r.value| == |documents|
    ensures r.Ok? ==> forall i :: 0 <= i < |documents| ==>
      DetectFileKnowledge(backend, loads, documents[i].title) == Ok(r.value[i])
    ensures r.Raise? ==>
      exists i :: 0 <= i < |documents| &&
        DetectFileKnowledge(backend, loads, documents[i].title) == Raise(r.fault) &&
        forall j :: 0 <= j < i ==> DetectFileKnowledge(backend, loads, documents[j].title).Ok?
    ensures (forall i :: 0 <= i < |documents| ==> DetectFileKnowledge(backend, loads, documents[i].title).Ok?) ==> r.Ok?
  {
    var responses := [];
    for k := 0 to |documents|
      invariant |responses| == k
      invariant forall i :: 0 <= i < k ==> DetectFileKnowledge(backend, loads, documents[i].title) == Ok(responses[i])
    {
      var answer := DetectFileKnowledge(backend, loads, documents[k].title);
      if answer.Raise? {
        return Raise(answer.fault);
      }
      responses := responses + [answer.value];
    }
    return Ok(responses);
  }

  /** Every answer is named after the document it is about. */
  lemma PolicyDocsNamed(backend: Backend, loads: Decoder, documents: seq<PolicyDocument>,
                        responses: seq<PolicyDocumentResponse>, i: int)
    requires |responses| == |documents| && 0 <= i < |documents|
    requires forall j :: 0 <= j < |documents| ==> DetectFileKnowledge(backend, loads, documents[j].title) == Ok(responses[j])
    ensures responses[i].name == documents[i].title
  {
    assert DetectFileKnowledge(backend, loads, documents[i].title) == Ok(responses[i]);
  }
}
