# bcg-be prompt and Bedrock core, modelled in Dafny

bcg-be is a FastAPI back end that helps UK public-sector users draft
business cases (HM Treasury's Five Case Model) with a large language model
hosted on AWS Bedrock. The logic modelled here is everything between an
HTTP request and the model call, and between the model's reply and the
HTTP response:

- **Response cleanup** (`sanitise_json_string_response`): cuts the reply
  to the first `{` and drops one trailing code fence.
- **Prompt assembly** in `PromptManager` and `EconomicPromptManager`:
  - the strategic-case and economic-case prompts: headings of the truthy
    project fields, the framework and supplementary directives, the
    mandate that quotes the frameworks and materials, and the JSON
    skeleton of the case sections;
  - the section-generation prompt with its parameter block, which
    falls back to the raw `initialParams` text;
  - the excerpt-rewrite prompt with its options-framework appendix;
  - the summary prompt;
  - the policy-document knowledge check and its result shaping.
- **The `SECTION_PROMPTS` table**: 22 section ids mapped to templates that
  share the `REPEATED_PROMPT` ending and, for the five options sections,
  embed `OPTIONS_FRAMEWORK_PROMPT` and "part k of 5".
- **The Bedrock adapter** `AWSBedrockService`:
  - client keyword arguments built from the config;
  - the default request parameters;
  - the `{**params, **kwargs}` merge;
  - the fold of the response stream into one text;
  - the wrapping of every failure as a `RuntimeError`.
- **The raw `/api/bedrock` endpoint**: input check, model default, request
  body by model family, completion extraction and error mapping; and the
  `/api/ai/policy-docs` endpoint's one-result-per-document list.

The model backend, the Bedrock client and `json.loads` are oracles passed
as function parameters:

- `Controller.Backend` is `generate_response(system, user)`;
- `Bedrock.Invoker` and `Api.RawInvoker` are the boto3 calls;
- `Values.Decoder` is `json.loads`.

Python exceptions are values: `Values.Outcome` is a value or a
`Values.Fault`, and a `Fault` names the exception raised.

The prompt builders take a record of their prose
(`Manager.StrategicTexts`, `Manager.SectionTexts`, `Manager.ExcerptTexts`,
`Economic.EconomicTexts`). The functions `Manager.StrategicProse`,
`Manager.SectionProse`, `Manager.ExcerptProse` and
`Economic.EconomicProse` give the source's exact strings for those
records. The section table's texts are given exactly by
`Sections.BriefText`, `Sections.RepeatedPrompt`,
`Sections.OptionsFrameworkPrompt` and `Sections.BlankPrompt`. The system
prompts are in `SystemPrompts`.

Every property about the order and presence of parts is proved for any
prose. The few facts the directive properties need about the real prose
are proved as separate lemmas: `Manager.ProseLeads` and
`Economic.EconomicProseLeads`.

Files, one module each:

| file | models |
|---|---|
| `values.dfy` | decoded JSON, exceptions, Python's `dict.get`, subscript, `str()` and truthiness |
| `text.dfy` | `str.find`, slicing, `replace`, `strip`, `lower`, `join` |
| `controller.dfy` | the backend interface |
| `system_prompts.dfy` | the system prompts |
| `sections.dfy` | `SECTION_PROMPTS` and its shared fragments |
| `cases.dfy` | request records and the pieces shared by both case prompts |
| `manager.dfy` | `PromptManager` and `sanitise_json_string_response` |
| `economic.dfy` | `EconomicPromptManager` |
| `bedrock.dfy` | `AWSBedrockService` |
| `api.dfy` | `invoke_bedrock` and `policy_docs` |

## Model

| member | source | states |
|---|---|---|
| Manager.Sanitise | services/prompt/manager.py:26-30 | the cleaned reply is never longer than the reply |
| Manager.SanitiseStartsAtBrace | services/prompt/manager.py:26-30 | when the reply contains `{`, the cleaned reply starts with `{` |
| Manager.SanitiseCutsPrefix | services/prompt/manager.py:27-30 | when the reply contains `{`, the cleaned reply is the suffix from the first `{`, minus exactly one trailing fence when that suffix ends with one |
| Manager.SanitiseWithoutBrace | services/prompt/manager.py:27 | a reply without `{` is reduced to its last character, and the empty reply stays empty, because `find` returns -1 |
| Manager.SanitiseKeepsObject | services/prompt/manager.py:27-30 | a reply that starts with `{` and does not end with a fence comes back unchanged |
| Text.Find | services/prompt/manager.py:27 | `str.find`: -1 exactly when the character is absent, otherwise the index of its first occurrence |
| Text.SliceFrom | services/prompt/manager.py:27 | Python's `s[i:]` for an index in range and for a negative index counted from the end |
| Text.ReplaceChar | services/prompt/manager.py:141 | `replace('-', '.')` keeps the length and maps every `-` to `.` and every other character to itself |
| Text.StripStart | services/prompt/manager.py:197 | the stripped text is a suffix that starts with a non-space, and everything cut is whitespace |
| Text.StripEnd | services/prompt/manager.py:197 | the stripped text is a prefix that ends with a non-space, and everything cut is whitespace |
| Text.Lower | services/prompt/manager.py:197 | `lower()` on ASCII: the length is kept, A to Z become a to z and every other character is unchanged |
| Text.JoinContainsEach | services/prompt/manager.py:201 | `", ".join(frameworks)` contains every framework |
| Values.Index | controllers/ai/bedrock.py:74-76 | a subscript by name succeeds exactly on a dict that has the key and gives the value the key last maps to; a missing key raises KeyError(key) and a non-dict raises TypeError |
| Values.GetFindsLast | main.py:273-275 | `dict.get` finds a value exactly when some member has the key, and it finds the last such member, the one `json.loads` keeps |
| Values.ShowOptional | services/prompt/manager.py:127 | an f-string shows a present optional text as itself |
| Manager.OptionalText | models/doc.py:15 | an optional string field accepts exactly missing, null or a string; missing or null gives None, a string gives itself, anything else is a validation error on that field |
| Manager.ValidateDocument | services/prompt/manager.py:57 | validation succeeds exactly when `status` is missing or a string, `message` and `url` are missing, null or strings, `accessible` is a boolean and `name` is a string; the result carries those values, with status "success" when it is missing; a failure is a validation error |
| Manager.KnowledgeQuestion | services/prompt/manager.py:44 | the question names the file |
| Manager.DetectFileKnowledge | services/prompt/manager.py:38-71 | the name in a result is always the caller's file name; a backend failure propagates; an undecodable reply raises on the unbound `response`; a decoded non-dict raises TypeError; a dict that validates is returned as validated; one that does not gives status "success", the validation message, `accessible` false and no url |
| Manager.SummaryPrompt | services/prompt/manager.py:127 | the summary request is the fixed lead-in followed by exactly the document's text |
| Manager.GenerateSummaryResponse | services/prompt/manager.py:125-132 | the backend's reply to the summary system prompt and request is returned unmodified |
| Manager.OptionsAppendix | services/prompt/manager.py:113-117 | the options appendix opens with its lead-in, holds OPTIONS_FRAMEWORK_PROMPT and ends with its closing text |
| Manager.ExcerptAppendixIff | services/prompt/manager.py:98-117 | the prompt is the base prompt plus the appendix if and only if the first section's id is one of 2-3-2 to 2-3-6 |
| Manager.ExcerptCarriesQuery | services/prompt/manager.py:100-111 | the prompt contains the original text and the user query |
| Manager.ExcerptAppendixMatchesTable | services/prompt/manager.py:98 | for an id in the table, the appendix is added exactly when the table's template is an options section |
| Manager.GenerateAdditionalContent | services/prompt/manager.py:92-123 | an empty section list raises IndexError; otherwise the backend's reply to the excerpt prompt is returned unmodified |
| Manager.BudgetText | services/prompt/manager.py:185 | the budget text is "£", the shown budget (None when absent), then " million"; it is never empty, so its heading is always emitted |
| Manager.StrategicFields | services/prompt/manager.py:181-188 | six fields, the fourth being "Estimated Budget" with the budget text |
| Manager.StrategicPrompt | services/prompt/manager.py:177-301 | the strategic prompt fails with AttributeError exactly when the project has no sector |
| Manager.ProcessStrategicResponse | services/prompt/manager.py:177-301 | the step-by-step builder produces the strategic prompt |
| Manager.StrategicResponse | services/prompt/manager.py:73-90 | without a sector the request raises AttributeError; otherwise a backend failure propagates unchanged, and a backend reply is returned sanitised |
| Manager.StrategicReplyStartsAtBrace | services/prompt/manager.py:82-87 | a strategic reply that contains `{` is returned starting at `{`, unlike the economic reply |
| Manager.GenerateStrategicResponse | services/prompt/manager.py:73-90 | the method, which builds the prompt step by step, returns the strategic response: the sanitised backend reply to the strategic prompt |
| Manager.FrameworkDirectiveLead | services/prompt/manager.py:198-200 | the strategic framework directive starts with `*` and its fourteenth character is `y` |
| Manager.ProseLeads | services/prompt/manager.py:198-207 | the strategic framework and supplementary directives differ within their leads, so neither can be read for the other |
| Manager.StrategicBodyParts | services/prompt/manager.py:212-296 | the fixed body opens with a line break and holds the mandate and the case skeleton |
| Manager.StrategicHoldsBody | services/prompt/manager.py:212-301 | the prompt holds the body built from the frameworks text and the materials |
| Manager.StrategicFrameworkDirectiveIff | services/prompt/manager.py:195-201 | the framework directive follows the headings if and only if some framework is not the "string" placeholder after strip and lower |
| Manager.StrategicSupplementaryDirectiveIff | services/prompt/manager.py:203-207 | the supplementary directive follows the headings and any framework directive if and only if the supplementary list is non-empty |
| Manager.StrategicBudgetStated | services/prompt/manager.py:185-192 | the "Estimated Budget" heading is always present |
| Manager.StrategicHeadingsInOrder | services/prompt/manager.py:181-192 | field headings appear in the fixed field order, each where its predecessors end |
| Manager.StrategicNamesFrameworks | services/prompt/manager.py:197-219 | when frameworks are cited, every entry appears in the prompt, placeholders included |
| Manager.StrategicCarriesMaterials | services/prompt/manager.py:204-221 | every supplementary item's block appears in the prompt |
| Manager.StrategicCarriesSkeleton | services/prompt/manager.py:238-296 | the case skeleton appears in the prompt |
| Manager.ContextBlock | services/prompt/manager.py:141-142 | a context block starts with "Section " and the id with every `-` replaced by `.` |
| Manager.ContextInOrder | services/prompt/manager.py:140-142 | the context text is the blocks of the sections in input order |
| Manager.AppendLine | services/prompt/manager.py:146-151 | a parameter line extends the text by its label, the shown value of its key and its ending when the key is present; at a missing key the text stops and stays as it was |
| Manager.FieldLinesStop | services/prompt/manager.py:144-159 | once a key is missing, later lines add nothing |
| Manager.FieldLinesComplete | services/prompt/manager.py:146-151 | the six field lines complete exactly when every key is present |
| Manager.FieldLinesKeepPrefix | services/prompt/manager.py:144-159 | an incomplete run keeps exactly the lines before the first missing key |
| Manager.AppendItem | services/prompt/manager.py:154-156 | after a failure, items add nothing; otherwise an item adds its "Document title" line and, when it has a text, its "Document summary" line, and a missing title or text ends the run after the lines written so far |
| Manager.ItemLinesStop | services/prompt/manager.py:154-159 | once an item lacks a key, later items add nothing |
| Manager.SupplementaryLines | services/prompt/manager.py:152-156 | only a list contributes item lines |
| Manager.ParamsText | services/prompt/manager.py:144-159 | parameters that do not decode are appended raw |
| Manager.ParamsFallback | services/prompt/manager.py:158-159 | at the first missing key, the lines already written are kept and the raw parameters follow |
| Manager.ParamsComplete | services/prompt/manager.py:145-157 | with every key present, the block is the six lines, the supplementary heading, the item lines and the closing line |
| Manager.AppendParamLine | services/prompt/manager.py:146-151 | one step of the parameter block, proved against the field-line fold |
| Manager.AppendFields | services/prompt/manager.py:146-151 | the six `+=` steps append the field-line fold and report whether it completed |
| Manager.AppendSupplementary | services/prompt/manager.py:152-157 | the item loop appends the item-line fold and reports whether it completed |
| Manager.AppendParams | services/prompt/manager.py:144-159 | the try block and its handler append exactly the parameter text |
| Manager.SectionPrompt | services/prompt/manager.py:134-167 | the section prompt exists exactly when the section id is a table key, and raises KeyError for that id otherwise |
| Manager.SectionAssemblyShape | services/prompt/manager.py:136-167 | the brief follows the lead, the context follows the context lead, the parameter block follows the parameter lead, and the heading, numbering and schema directives end the prompt |
| Manager.SectionPromptShape | services/prompt/manager.py:137-167 | for a table key, the table's template, the context blocks and the parameter block sit at those positions and the closing directives always follow |
| Manager.SectionContent | services/prompt/manager.py:134-175 | an unknown section id raises KeyError; a backend failure propagates; a sanitised reply that does not decode raises a decode error, one that is not an object raises TypeError, and an object yields its string `content` or fails validation on `content` |
| Manager.SectionDecodeFailureRaises | services/prompt/manager.py:173-175 | a reply that does not decode raises DecodeError, uncaught |
| Manager.BuildSectionPrompt | services/prompt/manager.py:134-167 | the step-by-step builder produces the section prompt |
| Manager.GenerateSection | services/prompt/manager.py:134-175 | the method, which builds the prompt step by step, returns the section content with all of its outcomes |
| Cases.AnyOfIff | services/prompt/manager.py:197 | `any(...)` holds exactly when some entry satisfies the test |
| Cases.CitesFrameworksIff | services/prompt/economic.py:51 | frameworks are cited exactly when the list exists and some entry is not the placeholder after strip and lower |
| Cases.FrameworksText | services/prompt/economic.py:49-55 | without cited frameworks, the frameworks text is empty |
| Cases.FrameworksTextNamesAll | services/prompt/economic.py:55 | with cited frameworks, the text contains every entry, placeholders included |
| Cases.ItemsOf | services/prompt/economic.py:58-60 | an absent or empty supplementary list gives no items |
| Cases.Materials | services/prompt/economic.py:60-64 | the loop builds a newline-wrapped block per item, in input order |
| Cases.EntryTexts | services/prompt/economic.py:88-148 | one rendered entry per section entry |
| Cases.EntryTextsAt | services/prompt/economic.py:88-148 | the i-th rendered entry is the rendering of the i-th entry |
| Cases.SkeletonHasEntry | services/prompt/economic.py:88-148 | the skeleton contains every rendered entry |
| Cases.NameStartsWithId | services/prompt/economic.py:93 | an entry's name begins with its id with `-` replaced by `.` |
| Cases.StrategicEntryIds | services/prompt/manager.py:238-296 | the strategic skeleton lists 1-1 to 1-11 in order |
| Cases.StrategicEntryNames | services/prompt/manager.py:238-296 | each strategic name starts with its dotted id |
| Cases.StrategicEntryBriefs | services/prompt/manager.py:243-293 | only 1-1 carries its table brief; the others carry the blank prompt |
| Cases.EconomicEntryIds | services/prompt/economic.py:88-148 | the economic skeleton lists 2-1, 2-2, 2-3, 2-3-1 to 2-3-6, 2-4 and 2-5 in order |
| Cases.EconomicEntryNames | services/prompt/economic.py:88-148 | each economic name starts with its dotted id |
| Cases.EconomicEntryBriefs | services/prompt/economic.py:92-145 | only 2-1, 2-2 and 2-3 carry their table briefs; the others carry the blank prompt |
| Cases.OrEmpty | services/prompt/manager.py:182-187 | an optional field shows as empty exactly when it is absent or empty, and as its own value when present |
| Cases.HeadingBlock | services/prompt/manager.py:190-192 | a heading is emitted exactly for a non-empty field: "### title" and a line break, then the field's text, then a blank line |
| Cases.Headings | services/prompt/manager.py:190-192 | the heading loop builds the headings text |
| Cases.HeadingsInOrder | services/prompt/manager.py:190-192 | headings appear in field order, without overlap |
| Cases.SupplementaryDirectiveLead | services/prompt/manager.py:207 | the supplementary directive starts with `*` and its fourteenth character is `f` |
| Cases.MandateHolds | services/prompt/economic.py:66-71 | the mandate quotes the frameworks text and the materials |
| Cases.CaseFrameworkDirectiveIff | services/prompt/economic.py:51-54 | in any case prompt, the framework directive sits after the headings if and only if frameworks are cited |
| Cases.CaseSupplementaryDirectiveIff | services/prompt/economic.py:60-61 | the supplementary directive sits next if and only if materials were supplied |
| Cases.CasePromptParts | services/prompt/economic.py:38-87 | a case prompt starts with its headings and contains its body |
| Cases.CaseHeadingAt | services/prompt/economic.py:44-46 | a heading keeps its position in the full prompt |
| Economic.ProcessEconomicResponse | services/prompt/economic.py:36-155 | the step-by-step builder produces the economic prompt, a function of the document alone |
| Economic.GenerateEconomicResponse | services/prompt/economic.py:17-34 | the backend's reply to the economic prompt is returned unsanitised |
| Economic.EconomicFrameworkDirectiveLead | services/prompt/economic.py:52-54 | the economic framework directive starts with `*` and its fourteenth character is `o` |
| Economic.EconomicProseLeads | services/prompt/economic.py:52-66 | the economic directives differ within their leads and the mandate opens with a line break |
| Economic.EconomicBodyParts | services/prompt/economic.py:66-148 | the body opens with a line break and holds the mandate and the skeleton |
| Economic.EconomicHoldsBody | services/prompt/economic.py:36-155 | the prompt holds the body built from the frameworks text and the materials |
| Economic.EconomicHeading | services/prompt/economic.py:40-46 | the "### economic_case" heading appears, at the front, only when the strategic case text is non-empty |
| Economic.EconomicFrameworkDirectiveIff | services/prompt/economic.py:49-55 | the framework directive follows the heading if and only if some framework is not the placeholder |
| Economic.EconomicSupplementaryDirectiveIff | services/prompt/economic.py:57-61 | the supplementary directive follows if and only if the list is non-empty |
| Economic.EconomicNamesFrameworks | services/prompt/economic.py:49-69 | every framework entry, placeholders included, appears in the prompt when frameworks are cited |
| Economic.EconomicCarriesMaterials | services/prompt/economic.py:57-71 | every item's block appears in the prompt |
| Economic.EconomicCarriesSkeleton | services/prompt/economic.py:88-148 | the skeleton appears in the prompt |
| Sections.LayoutShape | services/prompt/sections.py:37-299 | a template starts with its brief and ends with the shared prompt, and an options template holds the framework prompt and its part sentence |
| Sections.EndsWithRepeatedPrompt | services/prompt/sections.py:47-297 | every template ends with `REPEATED_PROMPT` |
| Sections.StartsWithBrief | services/prompt/sections.py:40-297 | every template starts with its own brief |
| Sections.OptionsSectionEmbedsFramework | services/prompt/sections.py:219-256 | options templates embed `OPTIONS_FRAMEWORK_PROMPT` and their part sentence |
| Sections.Lookup | services/prompt/manager.py:138 | a lookup succeeds exactly for a table key, yields that key's template and raises KeyError otherwise |
| Sections.TableKeys | services/prompt/sections.py:37-299 | the keys are exactly the 22 section ids |
| Sections.OptionsSectionsAre | services/prompt/sections.py:219-256 | a key's template is an options section exactly when the key is one of 2-3-2 to 2-3-6 |
| Sections.PartNumbering | services/prompt/sections.py:223-255 | the five options ids state part 1 to 5 in id order |
| Sections.BlankIsNoValue | services/prompt/sections.py:33-35 | no template renders to `BLANK_PROMPT` |
| Sections.BlankEndsWithBreak | services/prompt/sections.py:33-35 | `BLANK_PROMPT` ends with a line break |
| Bedrock.PutGet | controllers/ai/bedrock.py:25-26 | after a key assignment the key maps to the new value and every other key is unchanged |
| Bedrock.PutKeys | controllers/ai/bedrock.py:25-26 | assigning an existing key keeps the key order; a new key goes last |
| Bedrock.GetReplace | controllers/ai/bedrock.py:25-26 | replacing a present key changes only that key's value |
| Bedrock.MergeGet | controllers/ai/bedrock.py:61 | in `{**params, **kwargs}` the keys are the union and a kwargs value wins on a shared key |
| Bedrock.MergeKeepsParamsOrder | controllers/ai/bedrock.py:61 | the merge lists params' keys first, in their order |
| Bedrock.MergeIntoEmpty | controllers/ai/bedrock.py:56-61 | merging into empty params gives kwargs exactly |
| Bedrock.ClientKwargs | controllers/ai/bedrock.py:21-26 | a missing region raises KeyError; credentials are passed exactly when both key names are present, with the config's values |
| Bedrock.DefaultParams | controllers/ai/bedrock.py:32-44 | exactly the keys anthropic_version "bedrock-2023-05-31", max_tokens 50000, system and one user message carrying the prompt |
| Bedrock.RequestBodyGet | controllers/ai/bedrock.py:55-61 | each body value is the kwargs value when given, else the default |
| Bedrock.RequestBodyIgnoringDefaults | controllers/ai/bedrock.py:55-61 | with defaults ignored the body is kwargs exactly |
| Bedrock.Loads | controllers/ai/bedrock.py:74 | a chunk decodes exactly to what the decoder makes of its string; a non-string raises TypeError and an undecodable string raises the decoding error |
| Bedrock.EventText | controllers/ai/bedrock.py:74-76 | a failure to read the chunk or its `type` propagates; a non-delta event contributes ""; a delta event contributes its `delta.text` when that is a string, raises TypeError when it is not, and propagates the failure to read it |
| Bedrock.StreamStop | controllers/ai/bedrock.py:73-76 | after a failing event the rest of the stream is not read |
| Bedrock.StreamSingle | controllers/ai/bedrock.py:73-76 | a one-event stream yields that event's text |
| Bedrock.StreamAppend | controllers/ai/bedrock.py:71-78 | the text of two streams in a row is the concatenation, and the first failure wins |
| Bedrock.Wrapped | controllers/ai/bedrock.py:81-83 | every failure becomes a RuntimeError prefixed "Bedrock API error: " |
| Bedrock.Reply | controllers/ai/bedrock.py:64-83 | no stream or an empty stream gives ""; any call or event failure is wrapped |
| Bedrock.ReadStream | controllers/ai/bedrock.py:71-78 | the loop produces the stream fold |
| Bedrock.BedrockService.constructor | controllers/ai/bedrock.py:11-29 | the client kwargs are the credential selection and the model id is the config's |
| Bedrock.BedrockService.GenerateResponse | controllers/ai/bedrock.py:46-83 | the reply to the merged body from the service's model |
| Bedrock.Connect | controllers/ai/bedrock.py:21-29 | a config without region or model id raises KeyError for the first missing key; otherwise a new service |
| Api.GetOr | main.py:273-275 | `data.get(key, default)` gives the value if present, else the default |
| Api.In | main.py:281 | `in` on a string is substring containment, and raises on values that cannot be searched |
| Api.AnthropicPrompt | main.py:281-287 | "\n\nHuman: " opens and "\n\nAssistant:" ends the prompt; the system prompt leads when truthy; the user prompt is always inside |
| Api.AnthropicBody | main.py:290-296 | exact keys: prompt, max_tokens_to_sample 2000, temperature 0.7, top_p 0.9, stop sequence "\n\nHuman:" |
| Api.GenericBody | main.py:299-305 | exact keys: system_prompt, prompt, max_tokens 2000, temperature 0.7, top_p 0.9 |
| Api.Completion | main.py:317-328 | anthropic takes `completion` or ""; others take the first present of `generated_text`, `text`, `output`, else the stringified body; a non-object raises |
| Api.Answer | main.py:308-337 | a client failure is a client error, never an HTTP error; a reply that does not decode, or whose completion cannot be read, raises that failure; otherwise the answer is exactly status "success", the model id, and a response holding the extracted completion and the decoded raw reply |
| Api.Attempt | main.py:270-337 | the only HTTP error raised inside the try is the 400 for a missing prompt |
| Api.Respond | main.py:339-342 | HTTP errors pass unchanged; any other error becomes a 500 "Bedrock invocation failed: ..." |
| Api.InvokeBedrock | main.py:253-342 | every failure is an HTTP error: the 400 for a missing prompt, or a 500 |
| Api.RejectsMissingPrompt | main.py:277-278 | an empty or missing user prompt gives 400 before any invocation |
| Api.DefaultsToClaude | main.py:273 | a missing model id means "anthropic.claude-v2" with the anthropic body |
| Api.BodyByFamily | main.py:281-305 | the body and extraction follow whether the model id contains "anthropic" |
| Api.PolicyDocs | main.py:116-120 | one result per document, in request order, each the knowledge check of that title; the first failure propagates |
| Api.PolicyDocsNamed | main.py:118-119 | each result carries its own document's title as name |

## Left out

- The network and boto3: the model backend, `invoke_model` and
  `invoke_model_with_response_stream` are oracle parameters. The stream is
  given as a sequence of events.
- `json.loads` and `json.dumps`: decoding is the `Decoder` oracle, and the
  Bedrock request body is kept as a key-value list rather than serialised.
- pydantic: request models are plain datatypes without their validation or
  coercion. The validation of `PolicyDocumentResponse` accepts only exact
  JSON types for `accessible` (a boolean) and `url`, `message` (string or
  null); pydantic's lax coercions are not modelled.
- `print` calls and their side effects.
- The FastAPI wiring:
  - CORS;
  - the Cognito placeholder;
  - the root and health routes;
  - the mocked endpoint;
  - the duplicate case routes;
  - the factory in `services/ai.py`, whose timeouts never reach the
    client.
- `request.json()` in `invoke_bedrock` is the decoder applied to the
  request text.
- Values.FaultText: the text of an exception is approximate (for example
  the decode error's message), and the `AttributeError` text always names
  `NoneType`.
- Values.Repr: `repr` of decoded values does not escape quotes or control
  characters, and numbers show the decoder's text. An object with
  duplicate keys is shown member by member, where a Python dict shows
  each key once, at its first position, with its last value.
- Text.Lower: only ASCII A to Z are lowered. Python's `lower()` lowers
  every cased character and can lengthen a string (such as `İ`). The one
  use, the test of a framework against the `"string"` placeholder, is
  unaffected: no non-ASCII character lowercases to letters of "string".
- Manager.ExcerptPrompt: the `repr` of the section and message lists is
  approximated the same way.
- The rules for RAG ratings (one green, red forces red, carry-forward):
  they are instructions in the prompt text, not code.
- Whether the case skeletons are valid JSON. The economic one is not: one
  description lacks its closing quote. The strategic one keeps a stray
  `f`. Both are rendered as the source writes them.
- Manager.DetectFileKnowledge: `response["name"] = file_name` is modelled
  as appending the member, which has the same effect on lookups (`get`
  takes the last member) but not on the members' order.
- The `date` and `data` fields of response models (the default timestamp
  comes from the clock).
