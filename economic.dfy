/**
 * EconomicPromptManager (services/prompt/economic.py): the prompt for the
 * first part of the economic case, framed like the strategic prompt, and
 * the call that sends it to the backend. Unlike the strategic case, the
 * backend's reply is returned as it comes, without sanitising.
 */
module Economic {
  import opened Values
  import opened Text
  import opened SystemPrompts
  import opened Cases
  import opened Controller

  /** The titled fields of the economic prompt: the strategic case text. */
  function EconomicFields(doc: EconomicCase): seq<(string, string)>
  {
    [("economic_case", doc.strategicCase)]
  }

  /** The system prompt the economic case is asked under, and the fixed
      texts of the economic prompt in the order they are appended. The
      builder is modelled over any such texts; EconomicProse gives the ones
      generate_economic_response uses. */
  datatype EconomicTexts = EconomicTexts(
    system: string,
    frameworkDirective: string,
    supplementaryDirective: string,
    mandateStart: string,
    mandateMiddle: string,
    mandateEnd: string,
    skeleton: string,
    closing: string)

  /** The texts process_economic_response writes. */
  function EconomicProse(): EconomicTexts
  {
    EconomicTexts(SystemCreateCase(),
      EconomicFrameworkDirective(), SupplementaryDirective(),
      EconomicMandateStart(), MandateMiddle(), EconomicMandateEnd(),
      EconomicSkeleton(), EconomicClosing())
  }

  /** Texts whose directives can be told apart and whose body opens with
      a line break, as the source's do (EconomicProseLeads). */
  predicate WellLed(t: EconomicTexts)
  {
    DistinctLeads(t.frameworkDirective, t.supplementaryDirective) && OpensWithBreak(t.mandateStart)
  }

  /** The economic prompt after its directives: the mandate, the skeleton
      and the closing request. */
  function EconomicBody(t: EconomicTexts, works: string, sups: string): string
  {
    Mandate(t.mandateStart, works, t.mandateMiddle, sups, t.mandateEnd)
    + t.skeleton
    + t.closing
  }

  /** The economic prompt of a case. Every input has one: the builder
      raises nothing. */
  function EconomicPrompt(t: EconomicTexts, doc: EconomicCase): string
  {
    CasePrompt(
      HeadingsText(EconomicFields(doc)),
      t.frameworkDirective,
      t.supplementaryDirective,
      CitesFrameworks(doc.frameworks),
      HasSupplementary(doc.supplementaryInformation),
      EconomicBody(t, FrameworksText(doc.frameworks), MaterialsText(ItemsOf(doc.supplementaryInformation))))
  }

  /** Builds the economic prompt part by part; it reads nothing but the
      request and the texts. */
  method ProcessEconomicResponse(t: EconomicTexts, request: EconomicCaseRequest) returns (prompt: string)
    ensures prompt == EconomicPrompt(t, request.document)
  {
    var doc := request.document;
    var sections := EconomicFields(doc);
    prompt := Headings(sections);
    ghost var headings := prompt;
    var works := "";
    if CitesFrameworks(doc.frameworks) {
      prompt := prompt + t.frameworkDirective;
      EmptyUnit(Join(doc.frameworks.value, ", ") + "\n\n");
      works := works + (Join(doc.frameworks.value, ", ") + "\n\n");
    } else {
      EmptyUnit(headings);
    }
    ghost var directed := prompt;
    var sups := "";
    if HasSupplementary(doc.supplementaryInformation) {
      prompt := prompt + t.supplementaryDirective;
      sups := Materials(doc.supplementaryInformation.value);
    } else {
      EmptyUnit(directed);
      assert sups == MaterialsText([]);
    }
    ghost var framed := prompt;
    var mandate := t.mandateStart + works + t.mandateMiddle + sups + t.mandateEnd;
    prompt := prompt + mandate;
    ghost var body := mandate;
    ConcatAssoc(framed, body, t.skeleton);
    prompt, body := prompt + t.skeleton, body + t.skeleton;
    ConcatAssoc(framed, body, t.closing);
    prompt, body := prompt + t.closing, body + t.closing;
  }

  /** Asks the backend for the economic case and returns its reply as it
      comes, unsanitised, or the exception the backend raised. */
  method GenerateEconomicResponse(t: EconomicTexts, backend: Backend, request: EconomicCaseRequest) returns (r: Outcome<string>)
    ensures r == backend(t.system, EconomicPrompt(t, request.document))
  {
    var prompt := ProcessEconomicResponse(t, request);
    r := backend(t.system, prompt);
  }

  /** The source's framework directive opens with "**" and, having no
      space after the comma, reads "ou" from index 13 on. */
  lemma EconomicFrameworkDirectiveLead()
    ensures |EconomicFrameworkDirective()| > 13
    ensures EconomicFrameworkDirective()[0] == '*' && EconomicFrameworkDirective()[13] == 'o'
  {
  }

  /** The source's texts are well led: the directives differ at index 13
      and the mandate opens with a line break. */
  lemma EconomicProseLeads()
    ensures DistinctLeads(EconomicFrameworkDirective(), SupplementaryDirective())
    ensures OpensWithBreak(EconomicMandateStart())
  {
    EconomicFrameworkDirectiveLead();
    SupplementaryDirectiveLead();
  }

  /** The body opens as the mandate does, and holds the mandate and the
      skeleton. */
  lemma EconomicBodyParts(t: EconomicTexts, works: string, sups: string)
    requires OpensWithBreak(t.mandateStart)
    ensures OpensWithBreak(EconomicBody(t, works, sups))
    ensures Contains(EconomicBody(t, works, sups), Mandate(t.mandateStart, works, t.mandateMiddle, sups, t.mandateEnd))
    ensures Contains(EconomicBody(t, works, sups), t.skeleton)
  {
    var m := Mandate(t.mandateStart, works, t.mandateMiddle, sups, t.mandateEnd);
    var b := EconomicBody(t, works, sups);
    var s := t.mandateStart;
    StartsAtFront(s, works);
    StartsExtend(s + works, t.mandateMiddle, s);
    StartsExtend(s + works + t.mandateMiddle, sups, s);
    StartsExtend(s + works + t.mandateMiddle + sups, t.mandateEnd, s);
    StartsExtend(m, t.skeleton, s);
    StartsExtend(m + t.skeleton, t.closing, s);
    assert b[0] == b[..|s|][0] == s[0];
    StartsAtFront(m, t.skeleton);
    StartsExtend(m + t.skeleton, t.closing, m);
    assert b[0..|m|] == b[..|m|];
    ContainsAt(b, m, 0);
    OccursAtEnd(m, t.skeleton);
    OccursExtend(m + t.skeleton, t.closing, t.skeleton, |m|);
    ContainsAt(b, t.skeleton, |m|);
  }

  /** The economic prompt holds the body. */
  lemma EconomicHoldsBody(t: EconomicTexts, doc: EconomicCase)
    ensures Contains(EconomicPrompt(t, doc),
      EconomicBody(t, FrameworksText(doc.frameworks), MaterialsText(ItemsOf(doc.supplementaryInformation))))
  {
    CasePromptParts(HeadingsText(EconomicFields(doc)),
      t.frameworkDirective, t.supplementaryDirective,
      CitesFrameworks(doc.frameworks), HasSupplementary(doc.supplementaryInformation),
      EconomicBody(t, FrameworksText(doc.frameworks), MaterialsText(ItemsOf(doc.supplementaryInformation))));
  }

  /** The prompt opens with the "### economic_case" heading and the
      strategic case text when that text is not empty, and with nothing
      of the kind when it is. */
  lemma EconomicHeading(t: EconomicTexts, doc: EconomicCase)
    ensures HeadingsText(EconomicFields(doc)) ==
      (if doc.strategicCase != "" then "### economic_case\n" + doc.strategicCase + "\n\n" else "")
    ensures StartsWith(EconomicPrompt(t, doc), HeadingsText(EconomicFields(doc)))
  {
    var fields := EconomicFields(doc);
    assert fields[..0] == [];
    assert ConcatMap(fields[..0], HeadingBlock) == "";
    assert HeadingsText(fields) == ConcatMap(fields[..0], HeadingBlock) + HeadingBlock(fields[0]);
    EmptyUnit(HeadingBlock(fields[0]));
    CasePromptParts(HeadingsText(fields),
      t.frameworkDirective, t.supplementaryDirective,
      CitesFrameworks(doc.frameworks), HasSupplementary(doc.supplementaryInformation),
      EconomicBody(t, FrameworksText(doc.frameworks), MaterialsText(ItemsOf(doc.supplementaryInformation))));
  }

  /** The framework directive follows the heading exactly when some
      framework entry is not the "string" placeholder. */
  lemma EconomicFrameworkDirectiveIff(t: EconomicTexts, doc: EconomicCase)
    requires WellLed(t)
    ensures OccursAt(EconomicPrompt(t, doc), t.frameworkDirective, |HeadingsText(EconomicFields(doc))|) <==>
      doc.frameworks.Some? && exists i :: 0 <= i < |doc.frameworks.value| && !IsPlaceholder(doc.frameworks.value[i])
  {
    var body := EconomicBody(t, FrameworksText(doc.frameworks), MaterialsText(ItemsOf(doc.supplementaryInformation)));
    EconomicBodyParts(t, FrameworksText(doc.frameworks), MaterialsText(ItemsOf(doc.supplementaryInformation)));
    CaseFrameworkDirectiveIff(HeadingsText(EconomicFields(doc)),
      t.frameworkDirective, t.supplementaryDirective,
      CitesFrameworks(doc.frameworks), HasSupplementary(doc.supplementaryInformation), body);
    CitesFrameworksIff(doc.frameworks);
  }

  /** The supplementary directive follows exactly when the list of
      supplementary items is given and not empty. */
  lemma EconomicSupplementaryDirectiveIff(t: EconomicTexts, doc: EconomicCase)
    requires WellLed(t)
    ensures CitesFrameworks(doc.frameworks) ==>
      (HasSupplementary(doc.supplementaryInformation) <==>
        OccursAt(EconomicPrompt(t, doc), t.supplementaryDirective,
          |HeadingsText(EconomicFields(doc))| + |t.frameworkDirective|))
    ensures !CitesFrameworks(doc.frameworks) ==>
      (HasSupplementary(doc.supplementaryInformation) <==>
        OccursAt(EconomicPrompt(t, doc), t.supplementaryDirective, |HeadingsText(EconomicFields(doc))|))
  {
    var body := EconomicBody(t, FrameworksText(doc.frameworks), MaterialsText(ItemsOf(doc.supplementaryInformation)));
    EconomicBodyParts(t, FrameworksText(doc.frameworks), MaterialsText(ItemsOf(doc.supplementaryInformation)));
    CaseSupplementaryDirectiveIff(HeadingsText(EconomicFields(doc)),
      t.frameworkDirective, t.supplementaryDirective,
      CitesFrameworks(doc.frameworks), HasSupplementary(doc.supplementaryInformation), body);
  }

  /** When the directive is emitted, every framework entry, placeholder or
      not, is named in the prompt. */
  lemma EconomicNamesFrameworks(t: EconomicTexts, doc: EconomicCase, i: int)
    requires CitesFrameworks(doc.frameworks)
    requires 0 <= i < |doc.frameworks.value|
    ensures Contains(EconomicPrompt(t, doc), doc.frameworks.value[i])
  {
    var works := FrameworksText(doc.frameworks);
    var sups := MaterialsText(ItemsOf(doc.supplementaryInformation));
    var m := Mandate(t.mandateStart, works, t.mandateMiddle, sups, t.mandateEnd);
    var b := EconomicBody(t, works, sups);
    FrameworksTextNamesAll(doc.frameworks, i);
    MandateHolds(t.mandateStart, works, t.mandateMiddle, sups, t.mandateEnd);
    StartsAtFront(m, t.skeleton);
    StartsExtend(m + t.skeleton, t.closing, m);
    assert b[0..|m|] == b[..|m|];
    ContainsAt(b, m, 0);
    EconomicHoldsBody(t, doc);
    ContainsTransitive(m, works, doc.frameworks.value[i]);
    ContainsTransitive(b, m, doc.frameworks.value[i]);
    ContainsTransitive(EconomicPrompt(t, doc), b, doc.frameworks.value[i]);
  }

  /** Every supplementary item's text block is in the prompt, in the
      materials text that the mandate carries. */
  lemma EconomicCarriesMaterials(t: EconomicTexts, doc: EconomicCase, i: int)
    requires HasSupplementary(doc.supplementaryInformation)
    requires 0 <= i < |doc.supplementaryInformation.value|
    ensures Contains(EconomicPrompt(t, doc), MaterialBlock(doc.supplementaryInformation.value[i]))
  {
    var items := doc.supplementaryInformation.value;
    var works := FrameworksText(doc.frameworks);
    var sups := MaterialsText(items);
    var m := Mandate(t.mandateStart, works, t.mandateMiddle, sups, t.mandateEnd);
    var b := EconomicBody(t, works, sups);
    ConcatMapHas(items, MaterialBlock, i);
    MandateHolds(t.mandateStart, works, t.mandateMiddle, sups, t.mandateEnd);
    StartsAtFront(m, t.skeleton);
    StartsExtend(m + t.skeleton, t.closing, m);
    assert b[0..|m|] == b[..|m|];
    ContainsAt(b, m, 0);
    EconomicHoldsBody(t, doc);
    ContainsTransitive(m, sups, MaterialBlock(items[i]));
    ContainsTransitive(b, m, MaterialBlock(items[i]));
    ContainsTransitive(EconomicPrompt(t, doc), b, MaterialBlock(items[i]));
  }

  /** The prompt carries the skeleton of the economic case, whatever the
      case's fields. */
  lemma EconomicCarriesSkeleton(t: EconomicTexts, doc: EconomicCase)
    ensures Contains(EconomicPrompt(t, doc), t.skeleton)
  {
    var works := FrameworksText(doc.frameworks);
    var sups := MaterialsText(ItemsOf(doc.supplementaryInformation));
    var m := Mandate(t.mandateStart, works, t.mandateMiddle, sups, t.mandateEnd);
    var b := EconomicBody(t, works, sups);
    OccursAtEnd(m, t.skeleton);
    OccursExtend(m + t.skeleton, t.closing, t.skeleton, |m|);
    ContainsAt(b, t.skeleton, |m|);
    EconomicHoldsBody(t, doc);
    ContainsTransitive(EconomicPrompt(t, doc), b, t.skeleton);
  }

  // ---------------------------------------------------------------------
  // The fixed texts of the economic prompt
  // ---------------------------------------------------------------------

  /** The framework directive of the economic prompt (written without a space after the comma). */
  function EconomicFrameworkDirective(): string
  {
    "**Crucially,you " + ("MUST " + "incorporate " + "your " + "understanding " + "of " + "each " + "of " + "these " + "government " + "frameworks " + "when " + "considering " + "your " + "output:**\n")
  }

  /** The mandate of the economic prompt up to the frameworks text; it
      opens the prompt's body with a line break. */
  function EconomicMandateStart(): string
  {
    "\n" + (
      ("        " + "You " + "are " + "a " + "UK " + "public " + "sector " + "business " + "case " + "assistant.\n")
      + ("        " + "Please " + "provide " + "a " + "response " + "that " + "is " + "strictly " + "factual, " + "verifiable, " + "and " + "aligned " + "with " + "the " + "following " + "mandatory " + "government " + "frameworks:\n")
      + "        ")
  }

  /** The evidence rules and the reply format of the economic prompt, after the materials text. */
  function EconomicMandateEnd(): string
  {
    "\n"
      + ("        " + "Do " + "not " + "include " + "any " + "content " + "that " + "is " + "speculative, " + "fictional, " + "or " + "unverifiable. " + "If " + "a " + "claim " + "or " + "statement " + "cannot " + "be " + "substantiated " + "with " + "a " + "reliable " + "and " + "reputable " + "source, " + "omit " + "it " + "entirely. " + "When " + "making " + "factual " + "claims, " + "include " + "hyperlinked " + "references " + "to " + "primary " + "or " + "authoritative " + "sources " + "wherever " + "possible " + "(e.g., " + "official " + "documentation, " + "laws, " + "standards, " + "or " + "peer-reviewed " + "research).\n")
      + ("        " + "\n")
      + ("        " + "All " + "responses " + "must:\n")
      + ("        " + "Be " + "evidence-based " + "and " + "framework-compliant.\n")
      + ("        " + "Clearly " + "cite " + "the " + "source " + "of " + "every " + "verifiable " + "claim.\n")
      + ("        " + "Avoid " + "assumptions " + "or " + "unstated " + "interpretations.\n")
      + ("        " + "If " + "there " + "is " + "a " + "conflict " + "between " + "the " + "supplementary " + "material " + "and " + "a " + "framework, " + "note " + "the " + "discrepancy " + "without " + "making " + "assumptions.\n")
      + ("        " + "Your " + "task " + "is " + "to " + "co-design " + "the " + "input " + "for " + "the " + "**Economic " + "Case " + "Part " + "1 " + "** " + "of " + "a " + "Five " + "Case " + "Model " + "Business " + "Case.\n")
      + ("        " + "\n")
      + ("        " + "If " + "you " + "are " + "unable " + "to " + "generate " + "the " + "case " + "content " + "due " + "to " + "insufficient " + "user " + "input, " + "you " + "must " + "return " + "the " + "following " + "JSON " + "schema:\n")
      + ("        " + "{\"error\": " + "\"List " + "out " + "the " + "error " + "message " + "and " + "required " + "information, " + "with " + "appropriate " + "HTML " + "elements " + "such " + "as " + "<p> " + "and " + "<li>\"}\n")
      + ("        " + "All " + "line " + "breaks " + "must " + "be " + "'\n")
      + ("', " + "and " + "all " + "double " + "quotation " + "marks " + "must " + "be " + "escaped " + "with " + "a " + "backslash " + "and " + "should " + "look " + "like " + "\\\"\n")
      + ("        " + "\n")
      + ("        " + "Otherwise, " + "you " + "must " + "generate " + "the " + "**Economic " + "Case " + "Part " + "1** " + " " + "of " + "in " + "JSON " + "format " + "with " + "the " + "following " + "JSON " + "structure, " + "adding " + "to " + "each " + "JSON " + "object " + "in " + "the " + "list " + "a " + "“body”: " + "“<html " + "string>” " + "attribute " + "the " + "“body” " + "will " + "be " + "where " + "you " + "provide " + "the " + "required " + "content " + "as " + "a " + "HTML " + "snippet " + "as " + "described " + "in " + "the " + "Five " + "Case " + "Model " + "Full " + "Business " + "Case " + "strategy " + "and " + "the " + "“description” " + "element " + "of " + "that " + "item:\n")
      + ("        " + "\n")
      + "\n"
      + "\n"
      + "        "
  }

  /** The closing request of the economic prompt. */
  function EconomicClosing(): string
  {
    "\n"
      + ("        " + "Please " + "provide " + "a " + "response " + "that " + "is " + "strictly " + "factual, " + "referenceable, " + "and " + "based " + "only " + "on " + "verified " + "information. " + "Do " + "not " + "include " + "any " + "fictional, " + "speculative, " + "or " + "unverifiable " + "content. " + "If " + "a " + "claim " + "cannot " + "be " + "backed " + "up " + "by " + "a " + "reliable " + "source, " + "please " + "omit " + "it " + "entirely. " + "Where " + "possible, " + "include " + "hyperlinks " + "to " + "reputable " + "sources " + "so " + "I " + "can " + "verify " + "the " + "information " + "directly. " + "Only " + "include " + "content " + "that " + "can " + "be " + "substantiated.\n")
      + ("        " + "***REQUIRED:*** " + "Only " + "provide " + "the " + "json " + "object " + "in " + "your " + "response.\n")
      + "        "
  }

}
