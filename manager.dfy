/**
 * PromptManager (services/prompt/manager.py): the sanitiser applied to the
 * model's replies, and the prompts the manager builds for document checks,
 * strategic cases, excerpt rewrites, summaries and single sections. The AI
 * backend and json.loads are parameters, so every builder is a function of
 * its request and of what those two return.
 */
module Manager {
  import opened Values
  import opened Text
  import opened Sections
  import opened SystemPrompts
  import opened Cases
  import opened Controller

  // ---------------------------------------------------------------------
  // sanitise_json_string_response
  // ---------------------------------------------------------------------

  /** Cuts the reply at its first '{' and drops one trailing code fence.
      With no '{', `find` yields -1 and the slice keeps the last character. */
  function Sanitise(response: string): (r: string)
    ensures |r| <= |response|
  {
    var cleaned := SliceFrom(response, Find(response, '{'));
    if EndsWith(cleaned, Fence) then cleaned[..|cleaned| - |Fence|] else cleaned
  }

  /** With a '{' in the reply, the result starts at a '{'. */
  lemma SanitiseStartsAtBrace(response: string)
    requires '{' in response
    ensures StartsWith(Sanitise(response), "{")
  {
    var cleaned := response[Find(response, '{')..];
    assert cleaned[0] == '{';
    if EndsWith(cleaned, Fence) {
      assert cleaned[|cleaned| - 3] == '`';
    }
  }

  /** With a '{' in the reply, what is removed is exactly the text before
      the first '{' and, when the rest ends with a fence, that one fence. */
  lemma SanitiseCutsPrefix(response: string)
    requires '{' in response
    ensures exists k :: (0 <= k < |response| && response[k] == '{' && '{' !in response[..k] &&
      response[k..] == Sanitise(response) + (if EndsWith(response[k..], Fence) then Fence else ""))
  {
    var k := Find(response, '{');
    var cleaned := response[k..];
    if EndsWith(cleaned, Fence) {
      assert cleaned == cleaned[..|cleaned| - 3] + Fence;
    }
  }

  /** With no '{' in the reply, only its last character survives. */
  lemma SanitiseWithoutBrace(response: string)
    requires '{' !in response
    ensures Sanitise(response) == if |response| == 0 then "" else [response[|response| - 1]]
  {
    if |response| > 0 {
      assert SliceFrom(response, -1) == [response[|response| - 1]];
    }
  }

  /** A reply that already starts with '{' and has no closing fence is kept. */
  lemma SanitiseKeepsObject(response: string)
    requires StartsWith(response, "{") && !EndsWith(response, Fence)
    ensures Sanitise(response) == response
  {
    assert response[0] == '{';
  }

  // ---------------------------------------------------------------------
  // detect_file_knowledge
  // ---------------------------------------------------------------------

  /** PolicyDocumentResponse: the status and message of every response,
      and whether the document is accessible, its url and its name. */
  datatype PolicyDocumentResponse = PolicyDocumentResponse(
    status: string,
    message: Option<string>,
    accessible: bool,
    url: Option<string>,
    name: string)

  /** A looked-up member that an `Optional[str]` field accepts: missing,
      null or a string. */
  predicate IsNullableText(member: Option<Json>)
  {
    member.None? || member.value.JNull? || member.value.JStr?
  }

  /** An optional string field: missing or null is None, a string is itself. */
  function OptionalText(members: seq<(string, Json)>, key: string): (r: Outcome<Option<string>>)
    ensures r.Ok? <==> IsNullableText(Get(members, key))
    ensures r.Raise? ==> r.fault == ValidationError(key)
    ensures r == Ok(None) <==> Get(members, key).None? || Get(members, key) == Some(JNull)
    ensures r.Ok? && r.value.Some? ==> Get(members, key) == Some(JStr(r.value.value))
  {
    match Get(members, key)
    case None => Ok(None)
    case Some(JNull) => Ok(None)
    case Some(JStr(s)) => Ok(Some(s))
    case Some(_) => Raise(ValidationError(key))
  }

  /** Building a PolicyDocumentResponse from the members of a decoded
      object: the first ill-typed field, in declaration order, fails. */
  function ValidateDocument(members: seq<(string, Json)>): (r: Outcome<PolicyDocumentResponse>)
    ensures r.Ok? <==>
      (Get(members, "status").None? || IsText(Get(members, "status"))) &&
      IsNullableText(Get(members, "message")) &&
      (Get(members, "accessible").Some? && Get(members, "accessible").value.JBool?) &&
      IsNullableText(Get(members, "url")) &&
      IsText(Get(members, "name"))
    ensures r.Ok? && Get(members, "status").None? ==> r.value.status == "success"
    ensures r.Ok? && Get(members, "status").Some? ==> Get(members, "status") == Some(JStr(r.value.status))
    ensures r.Ok? ==> OptionalText(members, "message") == Ok(r.value.message)
    ensures r.Ok? ==> Get(members, "accessible") == Some(JBool(r.value.accessible))
    ensures r.Ok? ==> OptionalText(members, "url") == Ok(r.value.url)
    ensures r.Ok? ==> Get(members, "name") == Some(JStr(r.value.name))
    ensures r.Raise? ==> r.fault.ValidationError?
  {
    var status :- match Get(members, "status")
      case None => Ok("success")
      case Some(JStr(s)) => Ok(s)
      case Some(_) => Raise(ValidationError("status"));
    var message :- OptionalText(members, "message");
    var accessible :- match Get(members, "accessible")
      case Some(JBool(b)) => Ok(b)
      case _ => Raise(ValidationError("accessible"));
    var url :- OptionalText(members, "url");
    var name :- match Get(members, "name")
      case Some(JStr(s)) => Ok(s)
      case _ => Raise(ValidationError("name"));
    Ok(PolicyDocumentResponse(status, message, accessible, url, name))
  }

  /** The question asked about a document. */
  function KnowledgeQuestion(fileName: string): (r: string)
    ensures Contains(r, fileName)
  {
    ContainsEnds(KnowledgeQuestionStart(), fileName);
    ContainsExtend(KnowledgeQuestionStart() + fileName, KnowledgeQuestionEnd(), fileName);
    KnowledgeQuestionStart() + fileName + KnowledgeQuestionEnd()
  }

  /** Asks the backend whether it knows a document. The name in the result
      is always the caller's; a reply that does not validate gives an
      inaccessible result; a reply that does not decode reaches a handler
      that reads the unbound `response` and so raises. */
  function DetectFileKnowledge(backend: Backend, loads: Decoder, fileName: string): (r: Outcome<PolicyDocumentResponse>)
    ensures r.Ok? ==> r.value.name == fileName
    ensures backend(SystemDocumentAccessible(), KnowledgeQuestion(fileName)).Raise? ==>
      r == Raise(backend(SystemDocumentAccessible(), KnowledgeQuestion(fileName)).fault)
    ensures var reply := backend(SystemDocumentAccessible(), KnowledgeQuestion(fileName));
      reply.Ok? && loads(Sanitise(reply.value)).None? ==> r == Raise(UnboundLocalError("response"))
    ensures var reply := backend(SystemDocumentAccessible(), KnowledgeQuestion(fileName));
      reply.Ok? && loads(Sanitise(reply.value)).Some? && loads(Sanitise(reply.value)).value.JObject? &&
      ValidateDocument(loads(Sanitise(reply.value)).value.members + [("name", JStr(fileName))]).Raise? ==>
        r.Ok? && !r.value.accessible && r.value.url.None?
    ensures var reply := backend(SystemDocumentAccessible(), KnowledgeQuestion(fileName));
      reply.Ok? && loads(Sanitise(reply.value)).Some? && loads(Sanitise(reply.value)).value.JObject? ==>
        var check := ValidateDocument(loads(Sanitise(reply.value)).value.members + [("name", JStr(fileName))]);
        (check.Ok? ==> r == check) &&
        (check.Raise? ==>
          r == Ok(PolicyDocumentResponse("success", Some(ValidationMessageStart() + FaultText(check.fault)), false, None, fileName)))
    ensures var reply := backend(SystemDocumentAccessible(), KnowledgeQuestion(fileName));
      reply.Ok? && loads(Sanitise(reply.value)).Some? && !loads(Sanitise(reply.value)).value.JObject? ==>
        r == Raise(TypeError)
  {
    var reply :- backend(SystemDocumentAccessible(), KnowledgeQuestion(fileName));
    match loads(Sanitise(reply))
    case None => Raise(UnboundLocalError("response"))
    case Some(JObject(members)) =>
      var named := members + [("name", JStr(fileName))];
      assert named[|named| - 1] == ("name", JStr(fileName));
      (match ValidateDocument(named)
       case Ok(doc) => Ok(doc)
       case Raise(f) => Ok(PolicyDocumentResponse("success", Some(ValidationMessageStart() + FaultText(f)), false, None, fileName)))
    case Some(_) => Raise(TypeError)
  }

  // ---------------------------------------------------------------------
  // generate_summary_response
  // ---------------------------------------------------------------------

  /** The summary request: a fixed lead-in, then the document's text. */
  function SummaryPrompt(item: SupplementaryInfo): (r: string)
    ensures StartsWith(r, SummaryRequestStart())
    ensures r[|SummaryRequestStart()|..] == ShowOptional(item.text)
  {
    SummaryRequestStart() + ShowOptional(item.text)
  }

  /** The summary is the backend's reply to the summary request, unchanged. */
  function GenerateSummaryResponse(backend: Backend, item: SupplementaryInfo): (r: Outcome<string>)
    ensures r == backend(SystemSummariseSupplementary(), SummaryPrompt(item))
  {
    backend(SystemSummariseSupplementary(), SummaryPrompt(item))
  }

  // ---------------------------------------------------------------------
  // generate_additional_content
  // ---------------------------------------------------------------------

  /** SectionModel: a section of the case and its content. */
  datatype SectionModel = SectionModel(sectionId: string, content: string)

  /** Who wrote a message of the conversation. */
  datatype Sender = AI | USER

  /** SectionPromptsModel: one message of the conversation. */
  datatype PromptMessage = PromptMessage(text: string, sender: Option<Sender>)

  /** PromptsRequestModel: the request to rewrite an excerpt. */
  datatype PromptsRequest = PromptsRequest(
    sections: seq<SectionModel>,
    prompts: seq<PromptMessage>,
    originalText: string,
    userQuery: string)

  /** Python's repr of a list, its elements written by `f`. */
  function ListRepr<T>(xs: seq<T>, f: T -> string): string
  {
    "[" + ReprElements(xs, f) + "]"
  }

  function ReprElements<T>(xs: seq<T>, f: T -> string): string
  {
    if |xs| == 0 then ""
    else if |xs| == 1 then f(xs[0])
    else f(xs[0]) + ", " + ReprElements(xs[1..], f)
  }

  /** The repr of a SectionModel. */
  function SectionRepr(s: SectionModel): string
  {
    "SectionModel(sectionID='" + s.sectionId + "', content='" + s.content + "')"
  }

  /** The repr of a SectionPromptsModel. */
  function MessageRepr(m: PromptMessage): string
  {
    "SectionPromptsModel(text='" + m.text + "', sender=" +
      (match m.sender
       case None => "None"
       case Some(AI) => "<PromptsInputModel.AI: 'AI'>"
       case Some(USER) => "<PromptsInputModel.USER: 'USER'>") + ")"
  }

  /** The fixed texts of the excerpt prompt: the labels before the
      sections, the conversation, the original text and the query, the
      instructions, and the appendix for options sections. The builder is
      modelled over any such texts; ExcerptProse gives the source's. */
  datatype ExcerptTexts = ExcerptTexts(
    contextLabel: string,
    historyLabel: string,
    originalLabel: string,
    queryLabel: string,
    instructions: string,
    appendix: string)

  /** The appendix that hands OPTIONS_FRAMEWORK_PROMPT to the model. */
  function OptionsAppendix(): (r: string)
    ensures |r| > 0
    ensures StartsWith(r, OptionsAppendixStart())
    ensures Contains(r, OptionsFrameworkPrompt())
    ensures EndsWith(r, OptionsAppendixEnd())
  {
    ConcatParts(OptionsAppendixStart(), OptionsFrameworkPrompt(), OptionsAppendixEnd());
    OptionsAppendixStart() + OptionsFrameworkPrompt() + OptionsAppendixEnd()
  }

  /** The texts generate_additional_content writes. */
  function ExcerptProse(): ExcerptTexts
  {
    ExcerptTexts(ExcerptContextLabel(), ExcerptHistoryLabel(), ExcerptOriginalLabel(), ExcerptQueryLabel(),
      ExcerptInstructions(), OptionsAppendix())
  }

  /** The excerpt prompt without the options appendix: the sections, the
      conversation, the original text, the query and the instructions. */
  function ExcerptBase(t: ExcerptTexts, request: PromptsRequest): string
  {
    t.contextLabel + ListRepr(request.sections, SectionRepr)
    + t.historyLabel + ListRepr(request.prompts, MessageRepr)
    + t.originalLabel + request.originalText
    + t.queryLabel + request.userQuery
    + t.instructions
  }

  /** The excerpt prompt: the appendix follows when the first section is
      one of the options sections. */
  function ExcerptPrompt(t: ExcerptTexts, request: PromptsRequest): string
    requires |request.sections| > 0
  {
    if request.sections[0].sectionId in OptionsIds then ExcerptBase(t, request) + t.appendix
    else ExcerptBase(t, request)
  }

  /** The appendix is added exactly when the FIRST section is an options
      section; no other section is consulted. */
  lemma ExcerptAppendixIff(t: ExcerptTexts, request: PromptsRequest)
    requires |request.sections| > 0 && |t.appendix| > 0
    ensures ExcerptPrompt(t, request) == ExcerptBase(t, request) + t.appendix <==>
      request.sections[0].sectionId in OptionsIds
  {
    var base := ExcerptBase(t, request);
    if request.sections[0].sectionId !in OptionsIds {
      assert |base| < |base + t.appendix|;
    }
  }

  /** The original text and the query are both in the prompt, whatever the
      sections. */
  lemma ExcerptCarriesQuery(t: ExcerptTexts, request: PromptsRequest)
    requires |request.sections| > 0
    ensures Contains(ExcerptPrompt(t, request), request.originalText)
    ensures Contains(ExcerptPrompt(t, request), request.userQuery)
  {
    var upToOriginal := t.contextLabel + ListRepr(request.sections, SectionRepr)
      + t.historyLabel + ListRepr(request.prompts, MessageRepr) + t.originalLabel;
    var upToQuery := upToOriginal + request.originalText + t.queryLabel;
    var base := ExcerptBase(t, request);
    OccursAtEnd(upToOriginal, request.originalText);
    OccursExtend(upToOriginal + request.originalText, t.queryLabel, request.originalText, |upToOriginal|);
    OccursExtend(upToQuery, request.userQuery, request.originalText, |upToOriginal|);
    OccursExtend(upToQuery + request.userQuery, t.instructions, request.originalText, |upToOriginal|);
    OccursAtEnd(upToQuery, request.userQuery);
    OccursExtend(upToQuery + request.userQuery, t.instructions, request.userQuery, |upToQuery|);
    OccursExtend(base, t.appendix, request.originalText, |upToOriginal|);
    OccursExtend(base, t.appendix, request.userQuery, |upToQuery|);
    ContainsAt(ExcerptPrompt(t, request), request.originalText, |upToOriginal|);
    ContainsAt(ExcerptPrompt(t, request), request.userQuery, |upToQuery|);
  }

  /** For a section of the table, the appendix is added exactly when the
      section's own prompt embeds OPTIONS_FRAMEWORK_PROMPT. */
  lemma ExcerptAppendixMatchesTable(t: ExcerptTexts, request: PromptsRequest)
    requires |request.sections| > 0 && |t.appendix| > 0 && request.sections[0].sectionId in SectionTable
    ensures ExcerptPrompt(t, request) == ExcerptBase(t, request) + t.appendix <==>
      SectionTable[request.sections[0].sectionId].OptionsSection?
  {
    ExcerptAppendixIff(t, request);
    OptionsSectionsAre(request.sections[0].sectionId);
  }

  /** Rewrites an excerpt: the first section decides the appendix (an empty
      list raises IndexError before the backend is asked), and the backend's
      reply is returned unmodified. */
  method GenerateAdditionalContent(t: ExcerptTexts, backend: Backend, request: PromptsRequest) returns (r: Outcome<string>)
    ensures |request.sections| == 0 ==> r == Raise(IndexError)
    ensures |request.sections| > 0 ==> r == backend(SystemUpdateSectionExcerpt(), ExcerptPrompt(t, request))
  {
    if |request.sections| == 0 {
      return Raise(IndexError);
    }
    var isOptionsFramework := request.sections[0].sectionId in OptionsIds;
    var prompt := t.contextLabel + ListRepr(request.sections, SectionRepr)
      + t.historyLabel + ListRepr(request.prompts, MessageRepr)
      + t.originalLabel + request.originalText
      + t.queryLabel + request.userQuery
      + t.instructions;
    if isOptionsFramework {
      prompt := prompt + t.appendix;
    }
    r := backend(SystemUpdateSectionExcerpt(), prompt);
  }
  // ---------------------------------------------------------------------
  // process_strategic_response and generate_strategic_response
  // ---------------------------------------------------------------------

  /** The budget as the strategic prompt states it, given or not. */
  function BudgetText(budget: Option<string>): (r: string)
    ensures r != ""
    ensures StartsWith(r, "£") && EndsWith(r, " million")
    ensures |r| == |ShowOptional(budget)| + 9 && OccursAt(r, ShowOptional(budget), 1)
  {
    "£" + ShowOptional(budget) + " million"
  }

  /** The titled fields of the strategic prompt, in the dict's order. */
  function StrategicFields(doc: StrategicCase, sector: ProjectSector): (r: seq<(string, string)>)
    ensures |r| == 6
    ensures r[3] == ("Estimated Budget", BudgetText(doc.estimatedBudget))
  {
    [("Project Title", doc.projectTitle),
     ("Project Description", doc.projectDescription),
     ("Key Facts & Issues", OrEmpty(doc.keyFactsIssues)),
     ("Estimated Budget", BudgetText(doc.estimatedBudget)),
     ("Location", OrEmpty(doc.location)),
     ("Sector", SectorValue(sector))]
  }

  /** The system prompt the strategic case is asked under, and the fixed
      texts of the strategic prompt in the order they are appended. The
      builder is modelled over any such texts; StrategicProse gives the
      ones generate_strategic_response uses. */
  datatype StrategicTexts = StrategicTexts(
    system: string,
    frameworkDirective: string,
    supplementaryDirective: string,
    role: string,
    mandateStart: string,
    mandateMiddle: string,
    mandateEnd: string,
    instructions: string,
    skeleton: string,
    closing: string,
    reminder: string)

  /** The texts process_strategic_response writes. */
  function StrategicProse(): StrategicTexts
  {
    StrategicTexts(SystemCreateCase(),
      StrategicFrameworkDirective(), SupplementaryDirective(), StrategicRole(),
      StrategicMandateStart(), MandateMiddle(), StrategicMandateEnd(),
      StrategicInstructions(), StrategicSkeleton(), StrategicClosing(), StrategicJsonReminder())
  }

  /** The strategic prompt after its directives: a line break and the role,
      the mandate, the instructions, the skeleton and the two closing lines. */
  function StrategicBody(t: StrategicTexts, works: string, sups: string): string
  {
    "\n" + t.role
    + Mandate(t.mandateStart, works, t.mandateMiddle, sups, t.mandateEnd)
    + t.instructions
    + t.skeleton
    + t.closing
    + t.reminder
  }

  /** The strategic prompt of a case; a case without a sector raises, as
      reading `.value` of None does. */
  function StrategicPrompt(t: StrategicTexts, doc: StrategicCase): (r: Outcome<string>)
    ensures r.Raise? <==> doc.projectSector.None?
    ensures r.Raise? ==> r.fault == AttributeError("value")
  {
    if doc.projectSector.None? then Raise(AttributeError("value"))
    else Ok(CasePrompt(
      HeadingsText(StrategicFields(doc, doc.projectSector.value)),
      t.frameworkDirective,
      t.supplementaryDirective,
      CitesFrameworks(doc.frameworks),
      HasSupplementary(doc.supplementaryInformation),
      StrategicBody(t, FrameworksText(doc.frameworks), MaterialsText(ItemsOf(doc.supplementaryInformation)))))
  }

  /** Builds the strategic prompt part by part. */
  method ProcessStrategicResponse(t: StrategicTexts, request: StrategicCaseRequest) returns (r: Outcome<string>)
    ensures r == StrategicPrompt(t, request.document)
  {
    var doc := request.document;
    if doc.projectSector.None? {
      return Raise(AttributeError("value"));
    }
    var sections := StrategicFields(doc, doc.projectSector.value);
    var prompt := Headings(sections);
    ghost var headings := prompt;
    var works := "";
    if CitesFrameworks(doc.frameworks) {
      prompt := prompt + t.frameworkDirective;
      EmptyUnit(Join(doc.frameworks.value, ", ") + "\n\n");
      works := works + (Join(doc.frameworks.value, ", ") + "\n\n");
    } else {
      EmptyUnit(headings);
    }
    ghost var directed := prompt;
    var sups := "";
    if HasSupplementary(doc.supplementaryInformation) {
      prompt := prompt + t.supplementaryDirective;
      sups := Materials(doc.supplementaryInformation.value);
    } else {
      EmptyUnit(directed);
      assert sups == MaterialsText([]);
    }
    ghost var framed := prompt;
    prompt := prompt + ("\n" + t.role);
    ghost var body := "\n" + t.role;
    var mandate := t.mandateStart + works + t.mandateMiddle + sups + t.mandateEnd;
    ConcatAssoc(framed, body, mandate);
    prompt, body := prompt + mandate, body + mandate;
    ConcatAssoc(framed, body, t.instructions);
    prompt, body := prompt + t.instructions, body + t.instructions;
    ConcatAssoc(framed, body, t.skeleton);
    prompt, body := prompt + t.skeleton, body + t.skeleton;
    ConcatAssoc(framed, body, t.closing);
    prompt, body := prompt + t.closing, body + t.closing;
    ConcatAssoc(framed, body, t.reminder);
    prompt, body := prompt + t.reminder, body + t.reminder;
    return Ok(prompt);
  }

  /** The strategic case: the backend's reply to the strategic prompt,
      sanitised. */
  function StrategicResponse(t: StrategicTexts, backend: Backend, request: StrategicCaseRequest): (r: Outcome<string>)
    ensures request.document.projectSector.None? ==> r == Raise(AttributeError("value"))
    ensures request.document.projectSector.Some? ==>
      (backend(t.system, StrategicPrompt(t, request.document).value).Raise? <==> r.Raise?)
    ensures request.document.projectSector.Some? && backend(t.system, StrategicPrompt(t, request.document).value).Raise? ==>
      r == Raise(backend(t.system, StrategicPrompt(t, request.document).value).fault)
    ensures request.document.projectSector.Some? && backend(t.system, StrategicPrompt(t, request.document).value).Ok? ==>
      r == Ok(Sanitise(backend(t.system, StrategicPrompt(t, request.document).value).value))
  {
    var prompt :- StrategicPrompt(t, request.document);
    var reply :- backend(t.system, prompt);
    Ok(Sanitise(reply))
  }

  /** A strategic reply that contains a `{` comes back cut to start at the
      first one, unlike the economic reply, which is returned as is. */
  lemma StrategicReplyStartsAtBrace(t: StrategicTexts, backend: Backend, request: StrategicCaseRequest)
    requires request.document.projectSector.Some?
    requires backend(t.system, StrategicPrompt(t, request.document).value).Ok?
    requires '{' in backend(t.system, StrategicPrompt(t, request.document).value).value
    ensures StrategicResponse(t, backend, request).Ok?
    ensures StartsWith(StrategicResponse(t, backend, request).value, "{")
  {
    SanitiseStartsAtBrace(backend(t.system, StrategicPrompt(t, request.document).value).value);
  }

  /** Asks the backend for the strategic case and sanitises its reply. */
  method GenerateStrategicResponse(t: StrategicTexts, backend: Backend, request: StrategicCaseRequest) returns (r: Outcome<string>)
    ensures r == StrategicResponse(t, backend, request)
  {
    var prompt :- ProcessStrategicResponse(t, request);
    var reply :- backend(t.system, prompt);
    r := Ok(Sanitise(reply));
  }

  /** The source's framework directive opens with "**" and reads "you"
      from index 13 on. */
  lemma FrameworkDirectiveLead()
    ensures |StrategicFrameworkDirective()| > 13 && StrategicFrameworkDirective()[0] == '*' && StrategicFrameworkDirective()[13] == 'y'
  {
  }

  /** The source's directives meet DistinctLeads. */
  lemma ProseLeads()
    ensures DistinctLeads(StrategicFrameworkDirective(), SupplementaryDirective())
  {
    FrameworkDirectiveLead();
    SupplementaryDirectiveLead();
  }

  /** The body opens with a line break and holds the mandate and the skeleton. */
  lemma StrategicBodyParts(t: StrategicTexts, works: string, sups: string)
    ensures OpensWithBreak(StrategicBody(t, works, sups))
    ensures Contains(StrategicBody(t, works, sups), Mandate(t.mandateStart, works, t.mandateMiddle, sups, t.mandateEnd))
    ensures Contains(StrategicBody(t, works, sups), t.skeleton)
  {
    var r := "\n" + t.role;
    var m := Mandate(t.mandateStart, works, t.mandateMiddle, sups, t.mandateEnd);
    var b := StrategicBody(t, works, sups);
    StartsAtFront(r, m);
    StartsExtend(r + m, t.instructions, r);
    StartsExtend(r + m + t.instructions, t.skeleton, r);
    StartsExtend(r + m + t.instructions + t.skeleton, t.closing, r);
    StartsExtend(r + m + t.instructions + t.skeleton + t.closing, t.reminder, r);
    assert b[0] == b[..|r|][0] == r[0];
    OccursAtEnd(r, m);
    OccursExtend(r + m, t.instructions, m, |r|);
    OccursExtend(r + m + t.instructions, t.skeleton, m, |r|);
    OccursExtend(r + m + t.instructions + t.skeleton, t.closing, m, |r|);
    OccursExtend(r + m + t.instructions + t.skeleton + t.closing, t.reminder, m, |r|);
    ContainsAt(b, m, |r|);
    var before := r + m + t.instructions;
    OccursAtEnd(before, t.skeleton);
    OccursExtend(before + t.skeleton, t.closing, t.skeleton, |before|);
    OccursExtend(before + t.skeleton + t.closing, t.reminder, t.skeleton, |before|);
    ContainsAt(b, t.skeleton, |before|);
  }

  /** The strategic prompt holds the body. */
  lemma StrategicHoldsBody(t: StrategicTexts, doc: StrategicCase)
    requires doc.projectSector.Some?
    ensures Contains(StrategicPrompt(t, doc).value,
      StrategicBody(t, FrameworksText(doc.frameworks), MaterialsText(ItemsOf(doc.supplementaryInformation))))
  {
    CasePromptParts(HeadingsText(StrategicFields(doc, doc.projectSector.value)),
      t.frameworkDirective, t.supplementaryDirective,
      CitesFrameworks(doc.frameworks), HasSupplementary(doc.supplementaryInformation),
      StrategicBody(t, FrameworksText(doc.frameworks), MaterialsText(ItemsOf(doc.supplementaryInformation))));
  }

  /** The framework directive follows the headings exactly when some
      framework entry is not the "string" placeholder. */
  lemma StrategicFrameworkDirectiveIff(t: StrategicTexts, doc: StrategicCase)
    requires DistinctLeads(t.frameworkDirective, t.supplementaryDirective)
    requires doc.projectSector.Some?
    ensures OccursAt(StrategicPrompt(t, doc).value, t.frameworkDirective, |HeadingsText(StrategicFields(doc, doc.projectSector.value))|) <==>
      doc.frameworks.Some? && exists i :: 0 <= i < |doc.frameworks.value| && !IsPlaceholder(doc.frameworks.value[i])
  {
    var body := StrategicBody(t, FrameworksText(doc.frameworks), MaterialsText(ItemsOf(doc.supplementaryInformation)));
    StrategicBodyParts(t, FrameworksText(doc.frameworks), MaterialsText(ItemsOf(doc.supplementaryInformation)));
    CaseFrameworkDirectiveIff(HeadingsText(StrategicFields(doc, doc.projectSector.value)),
      t.frameworkDirective, t.supplementaryDirective,
      CitesFrameworks(doc.frameworks), HasSupplementary(doc.supplementaryInformation), body);
    CitesFrameworksIff(doc.frameworks);
  }

  /** The supplementary directive follows exactly when the list of
      supplementary items is given and not empty. */
  lemma StrategicSupplementaryDirectiveIff(t: StrategicTexts, doc: StrategicCase)
    requires DistinctLeads(t.frameworkDirective, t.supplementaryDirective)
    requires doc.projectSector.Some?
    ensures CitesFrameworks(doc.frameworks) ==>
      (HasSupplementary(doc.supplementaryInformation) <==>
        OccursAt(StrategicPrompt(t, doc).value, t.supplementaryDirective,
          |HeadingsText(StrategicFields(doc, doc.projectSector.value))| + |t.frameworkDirective|))
    ensures !CitesFrameworks(doc.frameworks) ==>
      (HasSupplementary(doc.supplementaryInformation) <==>
        OccursAt(StrategicPrompt(t, doc).value, t.supplementaryDirective,
          |HeadingsText(StrategicFields(doc, doc.projectSector.value))|))
  {
    var body := StrategicBody(t, FrameworksText(doc.frameworks), MaterialsText(ItemsOf(doc.supplementaryInformation)));
    StrategicBodyParts(t, FrameworksText(doc.frameworks), MaterialsText(ItemsOf(doc.supplementaryInformation)));
    CaseSupplementaryDirectiveIff(HeadingsText(StrategicFields(doc, doc.projectSector.value)),
      t.frameworkDirective, t.supplementaryDirective,
      CitesFrameworks(doc.frameworks), HasSupplementary(doc.supplementaryInformation), body);
  }

  /** The budget heading is always there, stated in millions of pounds. */
  lemma StrategicBudgetStated(t: StrategicTexts, doc: StrategicCase)
    requires doc.projectSector.Some?
    ensures Contains(StrategicPrompt(t, doc).value, HeadingBlock(("Estimated Budget", BudgetText(doc.estimatedBudget))))
  {
    var fields := StrategicFields(doc, doc.projectSector.value);
    ConcatMapHas(fields, HeadingBlock, 3);
    var k :| OccursAt(HeadingsText(fields), HeadingBlock(fields[3]), k);
    CaseHeadingAt(HeadingsText(fields), t.frameworkDirective, t.supplementaryDirective,
      CitesFrameworks(doc.frameworks), HasSupplementary(doc.supplementaryInformation),
      StrategicBody(t, FrameworksText(doc.frameworks), MaterialsText(ItemsOf(doc.supplementaryInformation))),
      HeadingBlock(fields[3]), k);
    ContainsAt(StrategicPrompt(t, doc).value, HeadingBlock(fields[3]), k);
  }

  /** The headed fields appear in the fixed order title, description, key
      facts, budget, location, sector; a field without content has none. */
  lemma StrategicHeadingsInOrder(t: StrategicTexts, doc: StrategicCase, i: int, j: int)
    requires doc.projectSector.Some?
    requires 0 <= i < j < 6
    ensures var fields := StrategicFields(doc, doc.projectSector.value);
      OccursAt(StrategicPrompt(t, doc).value, HeadingBlock(fields[i]), |HeadingsText(fields[..i])|) &&
      OccursAt(StrategicPrompt(t, doc).value, HeadingBlock(fields[j]), |HeadingsText(fields[..j])|) &&
      |HeadingsText(fields[..i])| + |HeadingBlock(fields[i])| <= |HeadingsText(fields[..j])|
  {
    var fields := StrategicFields(doc, doc.projectSector.value);
    var body := StrategicBody(t, FrameworksText(doc.frameworks), MaterialsText(ItemsOf(doc.supplementaryInformation)));
    HeadingsInOrder(fields, i, j);
    CaseHeadingAt(HeadingsText(fields), t.frameworkDirective, t.supplementaryDirective,
      CitesFrameworks(doc.frameworks), HasSupplementary(doc.supplementaryInformation), body,
      HeadingBlock(fields[i]), |HeadingsText(fields[..i])|);
    CaseHeadingAt(HeadingsText(fields), t.frameworkDirective, t.supplementaryDirective,
      CitesFrameworks(doc.frameworks), HasSupplementary(doc.supplementaryInformation), body,
      HeadingBlock(fields[j]), |HeadingsText(fields[..j])|);
  }

  /** When the directive is emitted, every framework entry, placeholder or
      not, is named in the prompt. */
  lemma StrategicNamesFrameworks(t: StrategicTexts, doc: StrategicCase, i: int)
    requires doc.projectSector.Some? && CitesFrameworks(doc.frameworks)
    requires 0 <= i < |doc.frameworks.value|
    ensures Contains(StrategicPrompt(t, doc).value, doc.frameworks.value[i])
  {
    var works := FrameworksText(doc.frameworks);
    var sups := MaterialsText(ItemsOf(doc.supplementaryInformation));
    var m := Mandate(t.mandateStart, works, t.mandateMiddle, sups, t.mandateEnd);
    FrameworksTextNamesAll(doc.frameworks, i);
    MandateHolds(t.mandateStart, works, t.mandateMiddle, sups, t.mandateEnd);
    StrategicBodyParts(t, works, sups);
    StrategicHoldsBody(t, doc);
    ContainsTransitive(m, works, doc.frameworks.value[i]);
    ContainsTransitive(StrategicBody(t, works, sups), m, doc.frameworks.value[i]);
    ContainsTransitive(StrategicPrompt(t, doc).value, StrategicBody(t, works, sups), doc.frameworks.value[i]);
  }

  /** Every supplementary item's text block is in the prompt. */
  lemma StrategicCarriesMaterials(t: StrategicTexts, doc: StrategicCase, i: int)
    requires doc.projectSector.Some? && HasSupplementary(doc.supplementaryInformation)
    requires 0 <= i < |doc.supplementaryInformation.value|
    ensures Contains(StrategicPrompt(t, doc).value, MaterialBlock(doc.supplementaryInformation.value[i]))
  {
    var items := doc.supplementaryInformation.value;
    var works := FrameworksText(doc.frameworks);
    var sups := MaterialsText(items);
    var m := Mandate(t.mandateStart, works, t.mandateMiddle, sups, t.mandateEnd);
    ConcatMapHas(items, MaterialBlock, i);
    MandateHolds(t.mandateStart, works, t.mandateMiddle, sups, t.mandateEnd);
    StrategicBodyParts(t, works, sups);
    StrategicHoldsBody(t, doc);
    ContainsTransitive(m, sups, MaterialBlock(items[i]));
    ContainsTransitive(StrategicBody(t, works, sups), m, MaterialBlock(items[i]));
    ContainsTransitive(StrategicPrompt(t, doc).value, StrategicBody(t, works, sups), MaterialBlock(items[i]));
  }

  /** The prompt carries the skeleton of the strategic case, whatever the
      case's fields. */
  lemma StrategicCarriesSkeleton(t: StrategicTexts, doc: StrategicCase)
    requires doc.projectSector.Some?
    ensures Contains(StrategicPrompt(t, doc).value, t.skeleton)
  {
    var body := StrategicBody(t, FrameworksText(doc.frameworks), MaterialsText(ItemsOf(doc.supplementaryInformation)));
    StrategicBodyParts(t, FrameworksText(doc.frameworks), MaterialsText(ItemsOf(doc.supplementaryInformation)));
    StrategicHoldsBody(t, doc);
    ContainsTransitive(StrategicPrompt(t, doc).value, body, t.skeleton);
  }

  // ---------------------------------------------------------------------
  // generate_section
  // ---------------------------------------------------------------------

  /** SectionGeneration: the section to write, the sections it builds on
      and the project parameters as a JSON text. */
  datatype SectionGeneration = SectionGeneration(sectionId: string, sections: seq<SectionModel>, initialParams: string)

  /** The context block of one earlier section: its id written with dots,
      then its content. */
  function ContextBlock(section: SectionModel): (r: string)
    ensures StartsWith(r, "Section " + ReplaceChar(section.sectionId, '-', '.') + "\n")
  {
    assert ("Section " + ReplaceChar(section.sectionId, '-', '.') + "\n" + (section.content + "\n\n"))[..|"Section " + ReplaceChar(section.sectionId, '-', '.') + "\n"|]
      == "Section " + ReplaceChar(section.sectionId, '-', '.') + "\n";
    "Section " + ReplaceChar(section.sectionId, '-', '.') + "\n" + (section.content + "\n\n")
  }

  /** The context blocks of the given sections, in input order. */
  function ContextText(sections: seq<SectionModel>): string
  {
    ConcatMap(sections, ContextBlock)
  }

  /** One block per section, each in its input position. */
  lemma ContextInOrder(sections: seq<SectionModel>, i: int)
    requires 0 <= i < |sections|
    ensures ContextText(sections) == ContextText(sections[..i]) + ContextBlock(sections[i]) + ContextText(sections[i + 1..])
  {
    ConcatMapSplit(sections, ContextBlock, i);
  }

  /** What a run of appends that may be cut short leaves: the text
      appended so far, and whether the run reached its end. */
  datatype Partial = Partial(text: string, complete: bool)

  /** One line of the parameter block: the text before the value of `key`
      and the text after it. */
  datatype ParamLine = ParamLine(lead: string, key: string, suffix: string)

  /** The lines of the parameter block, in the order they are appended. */
  const ParamLines: seq<ParamLine> := [
    ParamLine("Project title: ", "projectTitle", "\n"),
    ParamLine("Project description: ", "projectDescription", "\n"),
    ParamLine("Key facts and issues: ", "keyFactsIssues", "\n"),
    ParamLine("Estimated budget: £", "estimatedBudget", " million\n"),
    ParamLine("Location: ", "location", "\n"),
    ParamLine("Sector: ", "projectSector", "\n")
  ]

  /** Appends `line` for the parameters `data`, unless an earlier line
      failed; a missing key or a value that is not a dict stops the run. */
  function AppendLine(acc: Partial, data: Json, line: ParamLine): (r: Partial)
    ensures !acc.complete ==> r == acc
    ensures r.complete <==> acc.complete && Index(data, line.key).Ok?
    ensures !r.complete ==> r.text == acc.text
    ensures StartsWith(r.text, acc.text)
    ensures r.complete ==> r.text == acc.text + (line.lead + Show(Index(data, line.key).value) + line.suffix)
  {
    if !acc.complete then acc
    else match Index(data, line.key)
      case Ok(v) =>
        assert (acc.text + (line.lead + Show(v) + line.suffix))[..|acc.text|] == acc.text;
        Partial(acc.text + (line.lead + Show(v) + line.suffix), true)
      case Raise(_) => Partial(acc.text, false)
  }

  /** The lines appended for `lines`, in order, up to the first failure. */
  function FieldLines(data: Json, lines: seq<ParamLine>): Partial
  {
    if |lines| == 0 then Partial("", true)
    else AppendLine(FieldLines(data, lines[..|lines| - 1]), data, lines[|lines| - 1])
  }

  /** Once a line fails, the run is over: nothing later is appended. */
  lemma {:induction false} FieldLinesStop(data: Json, lines: seq<ParamLine>, k: int)
    requires 0 <= k <= |lines| && !FieldLines(data, lines[..k]).complete
    ensures FieldLines(data, lines) == FieldLines(data, lines[..k])
    decreases |lines|
  {
    if k < |lines| {
      var n := |lines| - 1;
      TakeTake(lines, k, n);
      FieldLinesStop(data, lines[..n], k);
    } else {
      assert lines[..k] == lines;
    }
  }

  /** Every line is appended exactly when every key is there. */
  lemma {:induction false} FieldLinesComplete(data: Json, lines: seq<ParamLine>)
    ensures FieldLines(data, lines).complete <==> forall i :: 0 <= i < |lines| ==> Index(data, lines[i].key).Ok?
  {
    if |lines| > 0 {
      var n := |lines| - 1;
      FieldLinesComplete(data, lines[..n]);
      assert forall i :: 0 <= i < n ==> lines[..n][i] == lines[i];
    }
  }

  /** A cut-short run keeps exactly the lines before the first key that
      could not be read. */
  lemma {:induction false} FieldLinesKeepPrefix(data: Json, lines: seq<ParamLine>)
    requires !FieldLines(data, lines).complete
    ensures exists j :: (0 <= j < |lines| && Index(data, lines[j].key).Raise? &&
      FieldLines(data, lines[..j]).complete && FieldLines(data, lines).text == FieldLines(data, lines[..j]).text)
  {
    var n := |lines| - 1;
    var before := FieldLines(data, lines[..n]);
    if before.complete {
      assert lines[..n] == lines[..n];
    } else {
      FieldLinesKeepPrefix(data, lines[..n]);
      var j :| 0 <= j < n && Index(data, lines[..n][j].key).Raise? &&
        FieldLines(data, lines[..n][..j]).complete && before.text == FieldLines(data, lines[..n][..j]).text;
      assert lines[..n][..j] == lines[..j];
    }
  }

  /** The title and summary lines of one supplementary item, after `text`;
      a missing key ends the run. */
  function ItemStep(text: string, item: Json): Partial
  {
    match Index(item, "title")
    case Raise(_) => Partial(text, false)
    case Ok(title) =>
      var withTitle := text + ("Document title: " + Show(title) + "\n");
      match Index(item, "text")
      case Raise(_) => Partial(withTitle, false)
      case Ok(summary) => Partial(withTitle + ("Document summary: " + Show(summary) + "\n\n"), true)
  }

  /** Appends the title and summary lines of one supplementary item. */
  function AppendItem(acc: Partial, item: Json): (r: Partial)
    ensures !acc.complete ==> r == acc
    ensures acc.complete && Index(item, "title").Raise? ==> r == Partial(acc.text, false)
    ensures acc.complete && Index(item, "title").Ok? ==>
      var withTitle := acc.text + ("Document title: " + Show(Index(item, "title").value) + "\n");
      (Index(item, "text").Raise? ==> r == Partial(withTitle, false)) &&
      (Index(item, "text").Ok? ==>
        r == Partial(withTitle + ("Document summary: " + Show(Index(item, "text").value) + "\n\n"), true))
  {
    if !acc.complete then acc else ItemStep(acc.text, item)
  }

  /** The lines appended for the items, in order, up to the first failure. */
  function ItemLines(items: seq<Json>): Partial
  {
    if |items| == 0 then Partial("", true)
    else AppendItem(ItemLines(items[..|items| - 1]), items[|items| - 1])
  }

  lemma {:induction false} ItemLinesStop(items: seq<Json>, k: int)
    requires 0 <= k <= |items| && !ItemLines(items[..k]).complete
    ensures ItemLines(items) == ItemLines(items[..k])
    decreases |items|
  {
    if k < |items| {
      var n := |items| - 1;
      TakeTake(items, k, n);
      ItemLinesStop(items[..n], k);
      assert ItemLines(items) == AppendItem(ItemLines(items[..n]), items[n]);
    } else {
      assert items[..k] == items;
    }
  }

  /** Iterating over the supplementary value: a list yields its items; a
      dict yields its keys and a string its characters, which cannot be
      subscripted by a name; anything else cannot be iterated. */
  function SupplementaryLines(supplementary: Json): (r: Partial)
    ensures !supplementary.JArray? ==> r.text == ""
  {
    match supplementary
    case JArray(items) => ItemLines(items)
    case JObject(members) => Partial("", |members| == 0)
    case JStr(s) => Partial("", |s| == 0)
    case _ => Partial("", false)
  }

  /** The parameter block. An exception anywhere is caught: the lines
      appended so far stay, and the raw parameter text follows them. */
  function ParamsText(loads: Decoder, raw: string): (r: string)
    ensures loads(raw).None? ==> r == raw
  {
    match loads(raw)
    case None => raw
    case Some(data) =>
      var fields := FieldLines(data, ParamLines);
      if !fields.complete then fields.text + raw
      else match Index(data, "supplementaryInformation")
        case Raise(_) => fields.text + raw
        case Ok(supplementary) =>
          var items := SupplementaryLines(supplementary);
          var text := fields.text + "Supplementary information:\n" + items.text;
          if items.complete then text + "End of supplementary information\n\n" else text + raw
  }

  /** A parameter text that decodes to parameters missing a field gives
      the lines before that field, then the raw text. */
  lemma ParamsFallback(loads: Decoder, raw: string)
    requires loads(raw).Some? && !FieldLines(loads(raw).value, ParamLines).complete
    ensures exists j :: (0 <= j < |ParamLines| && Index(loads(raw).value, ParamLines[j].key).Raise? &&
      ParamsText(loads, raw) == FieldLines(loads(raw).value, ParamLines[..j]).text + raw)
  {
    FieldLinesKeepPrefix(loads(raw).value, ParamLines);
  }

  /** With every field and the supplementary list there and well formed,
      the block ends with the end marker and holds no raw text. */
  lemma ParamsComplete(loads: Decoder, raw: string)
    requires loads(raw).Some?
    requires forall i :: 0 <= i < |ParamLines| ==> Index(loads(raw).value, ParamLines[i].key).Ok?
    requires Index(loads(raw).value, "supplementaryInformation").Ok?
    requires SupplementaryLines(Index(loads(raw).value, "supplementaryInformation").value).complete
    ensures ParamsText(loads, raw) ==
      FieldLines(loads(raw).value, ParamLines).text + "Supplementary information:\n"
      + SupplementaryLines(Index(loads(raw).value, "supplementaryInformation").value).text
      + "End of supplementary information\n\n"
  {
    FieldLinesComplete(loads(raw).value, ParamLines);
  }

  /** Appends one line of the parameter block, as the source does for
      each field; on failure reports what the block ends with instead. */
  method AppendParamLine(prompt: string, data: Json, k: int, ghost base: string) returns (out: string, ok: bool)
    requires 0 <= k < |ParamLines|
    requires FieldLines(data, ParamLines[..k]).complete && prompt == base + FieldLines(data, ParamLines[..k]).text
    ensures ok ==> FieldLines(data, ParamLines[..k + 1]).complete && out == base + FieldLines(data, ParamLines[..k + 1]).text
    ensures !ok ==> (FieldLines(data, ParamLines).text == FieldLines(data, ParamLines[..k]).text &&
      !FieldLines(data, ParamLines).complete && out == prompt)
  {
    var line := ParamLines[k];
    TakeTake(ParamLines, k, k + 1);
    var v := Index(data, line.key);
    if v.Raise? {
      FieldLinesStop(data, ParamLines, k + 1);
      return prompt, false;
    }
    ConcatAssoc(base, FieldLines(data, ParamLines[..k]).text, line.lead + Show(v.value) + line.suffix);
    out := prompt + (line.lead + Show(v.value) + line.suffix);
    ok := true;
  }

  /** The six field lines of the try block: what is appended, and whether
      every field could be read. */
  method AppendFields(prompt: string, data: Json) returns (out: string, ok: bool)
    ensures out == prompt + FieldLines(data, ParamLines).text
    ensures ok == FieldLines(data, ParamLines).complete
  {
    TakeEnds(ParamLines);
    EmptyUnit(prompt);
    out, ok := AppendParamLine(prompt, data, 0, prompt);
    if !ok { return; }
    out, ok := AppendParamLine(out, data, 1, prompt);
    if !ok { return; }
    out, ok := AppendParamLine(out, data, 2, prompt);
    if !ok { return; }
    out, ok := AppendParamLine(out, data, 3, prompt);
    if !ok { return; }
    out, ok := AppendParamLine(out, data, 4, prompt);
    if !ok { return; }
    out, ok := AppendParamLine(out, data, 5, prompt);
  }

  /** The loop over the supplementary value: what is appended, and whether
      the loop ran to its end. */
  method AppendSupplementary(prompt: string, supplementary: Json) returns (out: string, ok: bool)
    ensures out == prompt + SupplementaryLines(supplementary).text
    ensures ok == SupplementaryLines(supplementary).complete
  {
    EmptyUnit(prompt);
    match supplementary {
      case JArray(items) =>
        out := prompt;
        TakeEnds(items);
        for j := 0 to |items|
          invariant ItemLines(items[..j]).complete && out == prompt + ItemLines(items[..j]).text
        {
          TakeTake(items, j, j + 1);
          var acc := ItemLines(items[..j]).text;
          var title := Index(items[j], "title");
          if title.Raise? {
            ItemLinesStop(items, j + 1);
            return out, false;
          }
          ConcatAssoc(prompt, acc, "Document title: " + Show(title.value) + "\n");
          out := out + ("Document title: " + Show(title.value) + "\n");
          var text := Index(items[j], "text");
          if text.Raise? {
            ItemLinesStop(items, j + 1);
            return out, false;
          }
          ConcatAssoc(prompt, acc + ("Document title: " + Show(title.value) + "\n"), "Document summary: " + Show(text.value) + "\n\n");
          out := out + ("Document summary: " + Show(text.value) + "\n\n");
        }
        ok := true;
      case JObject(members) =>
        out, ok := prompt, |members| == 0;
      case JStr(s) =>
        out, ok := prompt, |s| == 0;
      case _ =>
        out, ok := prompt, false;
    }
  }

  /** The try block of generate_section: appends the parameter lines and
      the supplementary lines to `prompt`, or, when anything raises, what
      was appended so far and the raw text. */
  method AppendParams(prompt: string, loads: Decoder, raw: string) returns (out: string)
    ensures out == prompt + ParamsText(loads, raw)
  {
    var parsed := loads(raw);
    if parsed.None? {
      return prompt + raw;
    }
    var data := parsed.value;
    var ok;
    out, ok := AppendFields(prompt, data);
    ghost var fields := FieldLines(data, ParamLines).text;
    if !ok {
      ConcatAssoc(prompt, fields, raw);
      return out + raw;
    }
    var supplementary := Index(data, "supplementaryInformation");
    if supplementary.Raise? {
      ConcatAssoc(prompt, fields, raw);
      return out + raw;
    }
    ConcatAssoc(prompt, fields, "Supplementary information:\n");
    out := out + "Supplementary information:\n";
    ghost var started := fields + "Supplementary information:\n";
    out, ok := AppendSupplementary(out, supplementary.value);
    ghost var items := SupplementaryLines(supplementary.value).text;
    ConcatAssoc(prompt, started, items);
    if !ok {
      ConcatAssoc(prompt, started + items, raw);
      return out + raw;
    }
    ConcatAssoc(prompt, started + items, "End of supplementary information\n\n");
    out := out + "End of supplementary information\n\n";
  }

  /** The system prompt a section is asked under, the fixed texts of the
      section prompt (the lead before the brief,
      the leads before the context blocks and the parameter block, and the
      three closing directives) and the rendering of a SECTION_PROMPTS
      entry. The builder is modelled over any such texts; SectionProse
      gives the source's. */
  datatype SectionTexts = SectionTexts(
    system: string,
    lead: string,
    contextLead: string,
    paramsLead: string,
    noHeadings: string,
    noNumbering: string,
    schema: string,
    render: Template -> string)

  /** The texts generate_section writes, and the table's own rendering. */
  function SectionProse(): SectionTexts
  {
    SectionTexts(SystemCreateCase(), SectionLead(), SectionContextLead(), SectionParamsLead(),
      NoHeadingsDirective(), NoNumberingDirective(), ContentSchemaDirective(), Render)
  }

  /** The section prompt in the order the builder appends its parts. */
  function SectionAssembly(t: SectionTexts, brief: string, context: string, params: string): string
  {
    t.lead + brief + t.contextLead + context + t.paramsLead + params + t.noHeadings + t.noNumbering + t.schema
  }

  /** The three closing directives, in order. */
  function Closing(t: SectionTexts): string
  {
    t.noHeadings + t.noNumbering + t.schema
  }

  /** The section prompt: the section's entry of SECTION_PROMPTS, the
      context blocks and the parameter block; KeyError for an unknown id. */
  function SectionPrompt(t: SectionTexts, loads: Decoder, request: SectionGeneration): (r: Outcome<string>)
    ensures r.Ok? <==> request.sectionId in SectionTable
    ensures r.Raise? ==> r.fault == KeyError(request.sectionId)
  {
    var template :- Lookup(request.sectionId);
    Ok(SectionAssembly(t, t.render(template), ContextText(request.sections), ParamsText(loads, request.initialParams)))
  }

  /** The brief comes first, the context blocks follow it, and the closing
      directives always end the prompt, whatever the parameters. */
  lemma SectionAssemblyShape(t: SectionTexts, brief: string, context: string, params: string)
    ensures OccursAt(SectionAssembly(t, brief, context, params), brief, |t.lead|)
    ensures OccursAt(SectionAssembly(t, brief, context, params), context, |t.lead| + |brief| + |t.contextLead|)
    ensures OccursAt(SectionAssembly(t, brief, context, params), params,
      |t.lead| + |brief| + |t.contextLead| + |context| + |t.paramsLead|)
    ensures EndsWith(SectionAssembly(t, brief, context, params), Closing(t))
  {
    var a := SectionAssembly(t, brief, context, params);
    var upToContext := t.lead + brief + t.contextLead + context;
    OccursAtEnd(t.lead, brief);
    OccursExtend(t.lead + brief, t.contextLead, brief, |t.lead|);
    OccursExtend(t.lead + brief + t.contextLead, context, brief, |t.lead|);
    OccursAtEnd(t.lead + brief + t.contextLead, context);
    OccursExtend(upToContext, t.paramsLead, brief, |t.lead|);
    OccursExtend(upToContext, t.paramsLead, context, |t.lead + brief + t.contextLead|);
    OccursExtend(upToContext + t.paramsLead, params, brief, |t.lead|);
    OccursExtend(upToContext + t.paramsLead, params, context, |t.lead + brief + t.contextLead|);
    var body := upToContext + t.paramsLead + params;
    assert a == body + Closing(t);
    OccursExtend(body, Closing(t), brief, |t.lead|);
    OccursExtend(body, Closing(t), context, |t.lead + brief + t.contextLead|);
    OccursAtEnd(upToContext + t.paramsLead, params);
    OccursExtend(body, Closing(t), params, |upToContext + t.paramsLead|);
    assert a[|body|..] == Closing(t);
  }

  /** For a section of the table, the prompt opens with the lead and the
      rendering of the section's entry, holds the context blocks right
      after the context lead, and ends with the closing directives. */
  lemma SectionPromptShape(t: SectionTexts, loads: Decoder, request: SectionGeneration)
    requires request.sectionId in SectionTable
    ensures var brief := t.render(SectionTable[request.sectionId]);
      OccursAt(SectionPrompt(t, loads, request).value, brief, |t.lead|) &&
      OccursAt(SectionPrompt(t, loads, request).value, ContextText(request.sections), |t.lead| + |brief| + |t.contextLead|)
    ensures var brief := t.render(SectionTable[request.sectionId]);
      OccursAt(SectionPrompt(t, loads, request).value, ParamsText(loads, request.initialParams),
        |t.lead| + |brief| + |t.contextLead| + |ContextText(request.sections)| + |t.paramsLead|)
    ensures EndsWith(SectionPrompt(t, loads, request).value, Closing(t))
  {
    SectionAssemblyShape(t, t.render(SectionTable[request.sectionId]), ContextText(request.sections),
      ParamsText(loads, request.initialParams));
  }

  /** A looked-up member that is present and a string. */
  predicate IsText(member: Option<Json>)
  {
    member.Some? && member.value.JStr?
  }

  /** The section: the backend's reply to the section prompt, sanitised and
      decoded; its `content` must be a string. A reply that does not decode
      raises, since nothing catches the decoding error. */
  function SectionContent(t: SectionTexts, backend: Backend, loads: Decoder, request: SectionGeneration): (r: Outcome<string>)
    ensures request.sectionId !in SectionTable ==> r == Raise(KeyError(request.sectionId))
    ensures request.sectionId in SectionTable && backend(t.system, SectionPrompt(t, loads, request).value).Raise? ==>
      r == Raise(backend(t.system, SectionPrompt(t, loads, request).value).fault)
    ensures request.sectionId in SectionTable && backend(t.system, SectionPrompt(t, loads, request).value).Ok? ==>
      var decoded := loads(Sanitise(backend(t.system, SectionPrompt(t, loads, request).value).value));
      (decoded.None? ==> r == Raise(DecodeError)) &&
      (decoded.Some? && !decoded.value.JObject? ==> r == Raise(TypeError)) &&
      (decoded.Some? && decoded.value.JObject? && IsText(Get(decoded.value.members, "content")) ==>
        r == Ok(Get(decoded.value.members, "content").value.s)) &&
      (decoded.Some? && decoded.value.JObject? && !IsText(Get(decoded.value.members, "content")) ==>
        r == Raise(ValidationError("content")))
  {
    var prompt :- SectionPrompt(t, loads, request);
    var reply :- backend(t.system, prompt);
    match loads(Sanitise(reply))
    case None => Raise(DecodeError)
    case Some(JObject(members)) =>
      (match Get(members, "content")
       case Some(JStr(s)) => Ok(s)
       case _ => Raise(ValidationError("content")))
    case Some(_) => Raise(TypeError)
  }

  /** A decoding failure of the reply is not caught: it is the result. */
  lemma SectionDecodeFailureRaises(t: SectionTexts, backend: Backend, loads: Decoder, request: SectionGeneration)
    requires request.sectionId in SectionTable
    requires backend(t.system, SectionPrompt(t, loads, request).value).Ok?
    requires loads(Sanitise(backend(t.system, SectionPrompt(t, loads, request).value).value)).None?
    ensures SectionContent(t, backend, loads, request) == Raise(DecodeError)
  {
  }

  /** Builds the section prompt part by part, as generate_section does
      before it calls the backend. */
  method BuildSectionPrompt(t: SectionTexts, loads: Decoder, request: SectionGeneration) returns (r: Outcome<string>)
    ensures r == SectionPrompt(t, loads, request)
  {
    var prompt := "";
    EmptyUnit(t.lead);
    prompt := prompt + t.lead;
    var template :- Lookup(request.sectionId);
    prompt := prompt + t.render(template);
    prompt := prompt + t.contextLead;
    ghost var head := prompt;
    var sections := request.sections;
    TakeEnds(sections);
    EmptyUnit(head);
    for k := 0 to |sections|
      invariant prompt == head + ConcatMap(sections[..k], ContextBlock)
    {
      var section := sections[k];
      TakeTake(sections, k, k + 1);
      ghost var done := ConcatMap(sections[..k], ContextBlock);
      var heading := "Section " + ReplaceChar(section.sectionId, '-', '.') + "\n";
      ConcatAssoc(head + done, heading, section.content + "\n\n");
      ConcatAssoc(head, done, ContextBlock(section));
      prompt := prompt + heading;
      prompt := prompt + (section.content + "\n\n");
    }
    prompt := prompt + t.paramsLead;
    prompt := AppendParams(prompt, loads, request.initialParams);
    prompt := prompt + t.noHeadings;
    prompt := prompt + t.noNumbering;
    prompt := prompt + t.schema;
    return Ok(prompt);
  }

  /** Builds the section prompt, asks the backend and decodes the reply. */
  method GenerateSection(t: SectionTexts, backend: Backend, loads: Decoder, request: SectionGeneration) returns (r: Outcome<string>)
    ensures r == SectionContent(t, backend, loads, request)
  {
    var prompt :- BuildSectionPrompt(t, loads, request);
    var reply :- backend(t.system, prompt);
    var cleaned := Sanitise(reply);
    match loads(cleaned) {
      case None => r := Raise(DecodeError);
      case Some(JObject(members)) =>
        match Get(members, "content") {
          case Some(JStr(s)) => r := Ok(s);
          case _ => r := Raise(ValidationError("content"));
        }
      case Some(_) => r := Raise(TypeError);
    }
  }

  // ---------------------------------------------------------------------
  // Prompt text
  // ---------------------------------------------------------------------

  /** The question detect_file_knowledge asks, up to the file name. */
  function KnowledgeQuestionStart(): string
  {
    "Are " + "you " + "able " + "to " + "reference " + "the " + "document " + "entitled: "
  }

  /** The question detect_file_knowledge asks, after the file name. */
  function KnowledgeQuestionEnd(): string
  {
    "? " + "Are " + "you " + "able " + "to " + "provide " + "the " + "url " + "to " + "the " + "latest " + "version"
  }

  /** The message of a reply that does not validate, up to the error text. */
  function ValidationMessageStart(): string
  {
    "Validation " + "error " + "when " + "creating " + "response " + "from " + "AI "
  }

  /** The label of the sections in the excerpt prompt. */
  function ExcerptContextLabel(): string
  {
    "\n"
      + ("        " + "Additional " + "context: ")
  }

  /** The label of the conversation history in the excerpt prompt. */
  function ExcerptHistoryLabel(): string
  {
    "\n"
      + ("        " + "Conversation " + "history: ")
  }

  /** The label of the original text in the excerpt prompt. */
  function ExcerptOriginalLabel(): string
  {
    "\n"
      + ("        " + "Original " + "text: ")
  }

  /** The label of the user query in the excerpt prompt. */
  function ExcerptQueryLabel(): string
  {
    "\n"
      + ("        " + "User " + "query: ")
  }

  /** The rewriting instructions that close the excerpt prompt. */
  function ExcerptInstructions(): string
  {
    "\n"
      + ("        " + "\n")
      + ("        " + "Review " + "the " + "additional " + "context " + "and " + "conversation " + "history, " + "and " + "rewrite " + "the " + "original " + "text " + "to " + "satisfy " + "the " + "user " + "query.\n")
      + "\n"
      + ("        " + "Write " + "in " + "a " + "neutral " + "and " + "factual " + "tone, " + "without " + "explicitly " + "naming " + "the " + "project.\n")
      + ("        " + "Use " + "the " + "passive " + "voice " + "where " + "possible; " + "do " + "not " + "use " + "first-person " + "pronouns.\n")
      + ("        " + "Use " + "British " + "(UK) " + "English " + "for " + "spelling " + "and " + "grammar.\n")
      + ("        " + "Return " + "plain " + "text " + "only. " + "Do " + "not " + "return " + "HTML.\n")
      + "        "
  }

  /** The lead-in to OPTIONS_FRAMEWORK_PROMPT in the excerpt prompt. */
  function OptionsAppendixStart(): string
  {
    "\n"
      + ("            " + "Use " + "the " + "following " + "prompt " + "for " + "further " + "context " + "and " + "instruction:\n")
      + "            "
  }

  /** What follows OPTIONS_FRAMEWORK_PROMPT in the excerpt prompt. */
  function OptionsAppendixEnd(): string
  {
    "\n"
      + "            "
  }

  /** The summary request, up to the document text. */
  function SummaryRequestStart(): string
  {
    "Summarise " + "the " + "following " + "document: "
  }

  /** The opening line of the section prompt. */
  function SectionLead(): string
  {
    "You " + "are " + "a " + "UK " + "public " + "sector " + "business " + "case " + "assistant. " + "Generate " + "a " + "section " + "of " + "a " + "business " + "case " + "report " + "according " + "to " + "the " + "following " + "prompt:\n"
  }

  /** The line that introduces the other sections of the case. */
  function SectionContextLead(): string
  {
    "The " + "generated " + "content " + "must " + "follow " + "on " + "from " + "and/or " + "reference " + "the " + "content " + "of " + "the " + "other " + "sections " + "in " + "the " + "business " + "case:\n"
  }

  /** The line that introduces the project parameters. */
  function SectionParamsLead(): string
  {
    "The " + "generated " + "content " + "must " + "consider " + "the " + "project " + "information " + "provided " + "in " + "the " + "parameters, " + "and " + "**MUST** " + "reference " + "supplementary " + "information " + "and " + "frameworks " + "where " + "applicable:\n"
  }

  /** The directive against headings. */
  function NoHeadingsDirective(): string
  {
    "Do " + "not " + "add " + "any " + "headings " + "or " + "numbered " + "headings.\n"
  }

  /** The directive against guessing the section number. */
  function NoNumberingDirective(): string
  {
    "Do " + "not " + "attempt " + "to " + "guess " + "the " + "number " + "for " + "the " + "next " + "section.\n"
  }

  /** The JSON schema of the reply to a section prompt. */
  function ContentSchemaDirective(): string
  {
    ("The " + "response " + "must " + "be " + "in " + "*valid " + "JSON* " + "format " + "according " + "to " + "the " + "following " + "schema:\n")
      + ("        " + "{\n")
      + ("            " + "\"content\": " + "HTML " + "string\n")
      + ("        " + "}\n")
      + ("        " + "Do " + "not " + "return " + "any " + "other " + "text " + "in " + "the " + "response. " + "*ONLY " + "return " + "the " + "JSON " + "object*.\n")
      + "        "
  }

  /** The framework directive of the strategic prompt. */
  function StrategicFrameworkDirective(): string
  {
    "**Crucially, " + ("you " + "MUST " + "incorporate " + "your " + "understanding " + "of " + "each " + "of " + "these " + "government " + "frameworks " + "when " + "considering " + "your " + "output:**\n")
  }

  /** The role and purpose paragraph of the strategic prompt, after the
      line break that opens it. */
  function StrategicRole(): string
  {
    ("        " + "You " + "respond " + "as " + "if " + "your " + "temperature " + "is " + "set " + "to " + "0.2 " + "— " + "responses " + "must " + "always " + "be " + "consistent, " + "structured, " + "and " + "deterministic. " + "Never " + "invent " + "or " + "speculate.\n")
      + ("        " + "You " + "are " + "a " + "professional " + "UK " + "public " + "sector " + "assistant " + "specialising " + "in " + "the " + "Strategic " + "Case " + "under " + "HM " + "Treasury's " + "Five " + "Case " + "Model. " + "You " + "help " + "users " + "construct " + "a " + "compelling, " + "evidence-based " + "Strategic " + "Case " + "for " + "Strategic " + "Outline " + "Cases " + "(SOC) " + "and " + "Outline " + "Business " + "Cases " + "(OBC), " + "using " + "the " + "structure " + "set " + "out " + "in " + "the " + "Project " + "and " + "Programme " + "Business " + "Case " + "guidance.\n")
      + ("        " + "Your " + "purpose " + "is " + "to " + "help " + "users " + "clearly " + "define " + "and " + "justify " + "proposals " + "using " + "the " + "following " + "elements " + "of " + "the " + "Strategic " + "Case.\n")
      + "        "
  }

  /** The mandate of the strategic prompt, up to the frameworks text. */
  function StrategicMandateStart(): string
  {
    "\n"
      + ("        " + "Please " + "provide " + "a " + "response " + "that " + "is " + "strictly " + "factual, " + "verifiable, " + "and " + "aligned " + "with " + "the " + "following " + "mandatory " + "government " + "frameworks:\n")
      + "        "
  }

  /** The mandate of the strategic prompt, after the materials text. */
  function StrategicMandateEnd(): string
  {
    "\n"
      + "        "
  }

  /** The evidence rules and the reply format of the strategic prompt. */
  function StrategicInstructions(): string
  {
    ("Do " + "not " + "include " + "any " + "content " + "that " + "is " + "speculative, " + "fictional, " + "or " + "unverifiable. " + "If " + "a " + "claim " + "or " + "statement " + "cannot " + "be " + "substantiated " + "with " + "a " + "reliable " + "and " + "reputable " + "source, " + "omit " + "it " + "entirely. " + "When " + "making " + "factual " + "claims, " + "include " + "hyperlinked " + "references " + "to " + "primary " + "or " + "authoritative " + "sources " + "wherever " + "possible " + "(e.g., " + "official " + "documentation, " + "laws, " + "standards, " + "or " + "peer-reviewed " + "research).\n")
      + ("        " + "All " + "responses " + "must:\n")
      + ("        " + "Be " + "evidence-based " + "and " + "framework-compliant.\n")
      + ("        " + "Clearly " + "cite " + "the " + "source " + "of " + "every " + "verifiable " + "claim.\n")
      + ("        " + "Avoid " + "assumptions " + "or " + "unstated " + "interpretations.\n")
      + ("        " + "If " + "there " + "is " + "a " + "conflict " + "between " + "the " + "supplementary " + "material " + "and " + "a " + "framework, " + "note " + "the " + "discrepancy " + "without " + "making " + "assumptions.\n")
      + ("        " + "Your " + "task " + "is " + "to " + "co-design " + "the " + "input " + "for " + "the " + "**Strategic " + "Case** " + "of " + "a " + "Five " + "Case " + "Model " + "Full " + "Business " + "Case.\n")
      + ("        " + "\n")
      + ("        " + "If " + "you " + "are " + "unable " + "to " + "generate " + "the " + "case " + "content " + "due " + "to " + "insufficient " + "user " + "input, " + "you " + "must " + "return " + "the " + "following " + "JSON " + "schema:\n")
      + ("        " + "{\"error\": " + "\"List " + "out " + "the " + "error " + "message " + "and " + "required " + "information, " + "with " + "appropriate " + "HTML " + "elements " + "such " + "as " + "<p> " + "and " + "<li>\"}\n")
      + ("        " + "All " + "line " + "breaks " + "must " + "be " + "'\n")
      + ("', " + "and " + "all " + "double " + "quotation " + "marks " + "must " + "be " + "escaped " + "with " + "a " + "backslash " + "and " + "should " + "look " + "like " + "\\\"\n")
      + ("        " + "\n")
      + ("        " + "Otherwise, " + "you " + "must " + "generate " + "the " + "**Strategic " + "Case** " + "in " + "JSON " + "format " + "with " + "the " + "following " + "JSON " + "structure, " + "adding " + "to " + "each " + "JSON " + "object " + "in " + "the " + "list " + "a " + "“body”: " + "“<html " + "string>” " + "attribute " + "the " + "“body” " + "will " + "be " + "where " + "you " + "provide " + "the " + "required " + "content " + "as " + "a " + "HTML " + "snippet " + "as " + "described " + "in " + "the " + "Five " + "Case " + "Model " + "Full " + "Business " + "Case " + "strategy " + "and " + "the " + "“description” " + "element " + "of " + "that " + "item:\n")
      + ("        " + "\n")
      + "\n"
      + "\n"
      + "        "
  }

  /** The closing request for verified content of the strategic prompt. */
  function StrategicClosing(): string
  {
    "Please " + "provide " + "a " + "response " + "that " + "is " + "strictly " + "factual, " + "referenceable, " + "and " + "based " + "only " + "on " + "verified " + "information. " + "Do " + "not " + "include " + "any " + "fictional, " + "speculative, " + "or " + "unverifiable " + "content. " + "If " + "a " + "claim " + "cannot " + "be " + "backed " + "up " + "by " + "a " + "reliable " + "source, " + "please " + "omit " + "it " + "entirely. " + "Where " + "possible, " + "include " + "hyperlinks " + "to " + "reputable " + "sources " + "so " + "I " + "can " + "verify " + "the " + "information " + "directly. " + "Only " + "include " + "content " + "that " + "can " + "be " + "substantiated.\n"
  }

  /** The last line of the strategic prompt. */
  function StrategicJsonReminder(): string
  {
    "Your " + "response " + "must " + "be " + "in " + "a " + "*valid " + "JSON* " + "format\n"
  }

}
