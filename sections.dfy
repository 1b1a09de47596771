/**
 * The section prompt table SECTION_PROMPTS: for each section id of the
 * business case, the instructions the model receives when it writes that
 * section. Every value is an f-string made of the section's brief, for the
 * five option sections of part 2 the options-framework guidance and the
 * section's place among the five categories of choice, and the guidance
 * shared by all sections. The table keeps each value in that structured
 * form; Render gives its text.
 *
 * The prose is exact; it is held in functions so that a proof only sees the
 * text of a brief when it asks for it.
 */
module Sections {
  import opened Values
  import opened Text

  /** The indentation that follows every line break inside the table's literals. */
  const Indent: string := "\n    "

  /** The place of an options section among the five categories of choice. */
  type PartNumber = k: int | 1 <= k <= 5 witness 1

  /** The section whose brief a template carries. */
  datatype Brief =
    | StrategicContext
    | OrganisationalOverview
    | StrategicDrivers
    | SpendingObjectives
    | ExistingArrangements
    | BusinessNeeds
    | CaseForChangeSummary
    | PotentialBenefits
    | PotentialRisks
    | Constraints
    | Dependencies
    | PurposeOfEconomicCase
    | MarketFailure
    | LonglistToShortlist
    | CriticalSuccessFactors
    | ScopeOptions
    | SolutionOptions
    | DeliveryOptions
    | ImplementationOptions
    | FundingOptions
    | OptionsFrameworkSummary
    | ShortlistOfOptions

  /** How one SECTION_PROMPTS value is built. */
  datatype Template =
    | Plain(brief: Brief)
    | OptionsSection(brief: Brief, part: PartNumber)

  /** SECTION_PROMPTS, by section id. */
  const SectionTable: map<string, Template> :=
    map[
      "1-1" := Plain(StrategicContext),
      "1-2" := Plain(OrganisationalOverview),
      "1-3" := Plain(StrategicDrivers),
      "1-4" := Plain(SpendingObjectives),
      "1-5" := Plain(ExistingArrangements),
      "1-6" := Plain(BusinessNeeds),
      "1-7" := Plain(CaseForChangeSummary),
      "1-8" := Plain(PotentialBenefits),
      "1-9" := Plain(PotentialRisks),
      "1-10" := Plain(Constraints),
      "1-11" := Plain(Dependencies),
      "2-1" := Plain(PurposeOfEconomicCase),
      "2-2" := Plain(MarketFailure),
      "2-3" := Plain(LonglistToShortlist),
      "2-3-1" := Plain(CriticalSuccessFactors),
      "2-3-2" := OptionsSection(ScopeOptions, 1),
      "2-3-3" := OptionsSection(SolutionOptions, 2),
      "2-3-4" := OptionsSection(DeliveryOptions, 3),
      "2-3-5" := OptionsSection(ImplementationOptions, 4),
      "2-3-6" := OptionsSection(FundingOptions, 5),
      "2-4" := Plain(OptionsFrameworkSummary),
      "2-5" := Plain(ShortlistOfOptions)
    ]

  /** The section ids of the table, in the order of the business case. */
  const SectionIds: seq<string> :=
    ["1-1", "1-2", "1-3", "1-4", "1-5", "1-6", "1-7", "1-8", "1-9", "1-10", "1-11",
     "2-1", "2-2", "2-3", "2-3-1", "2-3-2", "2-3-3", "2-3-4", "2-3-5", "2-3-6", "2-4", "2-5"]

  /** The sentence that tells the model which of the five categories it writes. */
  function PartSentence(k: PartNumber): string
  {
    "This is part " + [('0' as int + k) as char] + " " + "of " + "5 " + "sections. " + "Each " + "category " + "of " + "choice " + "(scope, " + "solution, " + "delivery " + "implementation " + "and " + "funding) " + "builds " + "on " + "the " + "previous " + "category " + "of " + "choice " + "and " + "the " + "preferred " + "and " + "carry " + "forward " + "options " + "selected."
  }

  function Render(t: Template): string
  {
    Layout(t, BriefText(t.brief), OptionsFrameworkPrompt(), RepeatedPrompt())
  }

  function Layout(t: Template, brief: string, options: string, shared: string): string
  {
    match t
    case Plain(_) =>
      (Indent + brief) + (Indent + shared + Indent)
    case OptionsSection(_, k) =>
      (Indent + brief) + (Indent + options + Indent + PartSentence(k)) + (Indent + shared + Indent)
  }

  lemma LayoutShape(t: Template, brief: string, options: string, shared: string)
    ensures StartsWith(Layout(t, brief, options, shared), Indent + brief)
    ensures EndsWith(Layout(t, brief, options, shared), Indent + shared + Indent)
    ensures t.OptionsSection? ==>
      Contains(Layout(t, brief, options, shared), options) && Contains(Layout(t, brief, options, shared), PartSentence(t.part))
  {
    match t
    case Plain(_) =>
      PlainLayout(Indent + brief, Indent + shared + Indent);
    case OptionsSection(_, k) =>
      OptionsLayout(Indent + brief, Indent, options, PartSentence(k), Indent + shared + Indent);
  }

  /** Every value of the table ends with REPEATED_PROMPT on a line of its own. */
  lemma EndsWithRepeatedPrompt(t: Template)
    ensures EndsWith(Render(t), Indent + RepeatedPrompt() + Indent)
  {
    LayoutShape(t, BriefText(t.brief), OptionsFrameworkPrompt(), RepeatedPrompt());
  }

  /** Every value of the table opens with its section's brief. */
  lemma StartsWithBrief(t: Template)
    ensures StartsWith(Render(t), Indent + BriefText(t.brief))
  {
    LayoutShape(t, BriefText(t.brief), OptionsFrameworkPrompt(), RepeatedPrompt());
  }

  /** An options section embeds OPTIONS_FRAMEWORK_PROMPT and its part sentence. */
  lemma OptionsSectionEmbedsFramework(t: Template)
    requires t.OptionsSection?
    ensures Contains(Render(t), OptionsFrameworkPrompt())
    ensures Contains(Render(t), PartSentence(t.part))
  {
    LayoutShape(t, BriefText(t.brief), OptionsFrameworkPrompt(), RepeatedPrompt());
  }

  lemma PlainLayout(head: string, tail: string)
    ensures StartsWith(head + tail, head) && EndsWith(head + tail, tail)
  {
    assert (head + tail)[..|head|] == head;
    assert (head + tail)[|head + tail| - |tail|..] == tail;
  }

  lemma OptionsLayout(head: string, i: string, options: string, part: string, tail: string)
    ensures StartsWith(head + (i + options + i + part) + tail, head)
    ensures EndsWith(head + (i + options + i + part) + tail, tail)
    ensures Contains(head + (i + options + i + part) + tail, options)
    ensures Contains(head + (i + options + i + part) + tail, part)
  {
    var middle := i + options + i + part;
    ConcatParts(head, middle, tail);
    ContainsEnds(i, options);
    ContainsExtend(i + options, i, options);
    ContainsExtend(i + options + i, part, options);
    ContainsEnds(i + options + i, part);
    ContainsTransitive(head + middle + tail, middle, options);
    ContainsTransitive(head + middle + tail, middle, part);
  }

  /** `SECTION_PROMPTS[id]`: the value held for a known section, whose text
      is Render of it; KeyError otherwise. */
  function Lookup(id: string): (r: Outcome<Template>)
    ensures r.Ok? <==> id in SectionTable
    ensures r.Ok? ==> r.value == SectionTable[id]
    ensures r.Raise? ==> r.fault == KeyError(id)
  {
    if id in SectionTable then Ok(SectionTable[id]) else Raise(KeyError(id))
  }

  /** The five sections that carry OPTIONS_FRAMEWORK_PROMPT, in the order of their parts. */
  const OptionsIds: seq<string> := ["2-3-2", "2-3-3", "2-3-4", "2-3-5", "2-3-6"]

  /** The table has exactly the 22 section ids of the business case. */
  lemma TableKeys()
    ensures SectionTable.Keys == set id | id in SectionIds
    ensures |SectionIds| == 22
  {
  }

  /** Exactly the sections 2-3-2 to 2-3-6 are options sections. */
  lemma OptionsSectionsAre(id: string)
    requires id in SectionTable
    ensures SectionTable[id].OptionsSection? <==> id in OptionsIds
  {
  }

  /** The five options sections are parts 1 to 5, in id order. */
  lemma PartNumbering(j: int)
    requires 0 <= j < |OptionsIds|
    ensures OptionsIds[j] in SectionTable
    ensures SectionTable[OptionsIds[j]] == OptionsSection(SectionTable[OptionsIds[j]].brief, j + 1)
  {
  }

  /** BLANK_PROMPT is not the value of any key: it ends with a line break,
      every value of the table with the indentation of its last line. */
  lemma BlankIsNoValue(t: Template)
    ensures Render(t) != BlankPrompt()
  {
    EndsWithRepeatedPrompt(t);
    LastOfIndented(Render(t), Indent + RepeatedPrompt());
    BlankEndsWithBreak();
  }

  lemma LastOfIndented(s: string, line: string)
    requires EndsWith(s, line + Indent)
    ensures |s| > 0 && s[|s| - 1] == ' '
  {
    assert s[|s| - 1] == (line + Indent)[|line + Indent| - 1];
  }

  lemma BlankEndsWithBreak()
    ensures |BlankPrompt()| > 0 && BlankPrompt()[|BlankPrompt()| - 1] == '\n'
  {
  }

  function BriefText(b: Brief): string
  {
    match b
    case StrategicContext => StrategicContextBrief()
    case OrganisationalOverview => OrganisationalOverviewBrief()
    case StrategicDrivers => StrategicDriversBrief()
    case SpendingObjectives => SpendingObjectivesBrief()
    case ExistingArrangements => ExistingArrangementsBrief()
    case BusinessNeeds => BusinessNeedsBrief()
    case CaseForChangeSummary => CaseForChangeSummaryBrief()
    case PotentialBenefits => PotentialBenefitsBrief()
    case PotentialRisks => PotentialRisksBrief()
    case Constraints => ConstraintsBrief()
    case Dependencies => DependenciesBrief()
    case PurposeOfEconomicCase => PurposeOfEconomicCaseBrief()
    case MarketFailure => MarketFailureBrief()
    case LonglistToShortlist => LonglistToShortlistBrief()
    case CriticalSuccessFactors => CriticalSuccessFactorsBrief()
    case ScopeOptions => ScopeOptionsBrief()
    case SolutionOptions => SolutionOptionsBrief()
    case DeliveryOptions => DeliveryOptionsBrief()
    case ImplementationOptions => ImplementationOptionsBrief()
    case FundingOptions => FundingOptionsBrief()
    case OptionsFrameworkSummary => OptionsFrameworkSummaryBrief()
    case ShortlistOfOptions => ShortlistOfOptionsBrief()
  }

  /** REPEATED_PROMPT: the guidance every section prompt ends with. */
  function RepeatedPrompt(): string
  {
    "\n"
      + "The " + "content " + "of " + "this " + "section " + "should " + "logically " + "follow " + "on " + "from " + "the " + "content " + "of " + "the " + "previous " + "section, " + "and " + "the " + "content " + "of " + "the " + "entire " + "case.\n"
      + "Write " + "in " + "a " + "neutral " + "and " + "factual " + "tone, " + "without " + "explicitly " + "naming " + "the " + "project.\n"
      + "Use " + "the " + "passive " + "voice " + "where " + "possible; " + "do " + "not " + "use " + "first-person " + "pronouns.\n"
      + "All " + "claims " + "and " + "data " + "should " + "be " + "referenced " + "with " + "links " + "in " + "<a> " + "tags.\n"
      + "Use " + "British " + "(UK) " + "English " + "for " + "spelling " + "and " + "grammar.\n"
      + "Do " + "not " + "use " + "'flowery " + "language' " + "- " + "don't " + "introduce " + "references " + "(e.g. " + "'according " + "to " + "X...'), " + "just " + "state " + "the " + "point " + "and " + "make " + "sure " + "it " + "is " + "referenced.\n"
      + "Within " + "section " + "content, " + "always " + "use " + "'\\n' " + "for " + "line " + "breaks " + "between " + "HTML " + "elements.\n"
      + "All " + "double " + "quotes " + "must " + "be " + "escaped " + "with " + "a " + "backslash " + "- " + "they " + "should " + "appear " + "as " + "\\\"\n"
      + "\n"
  }

  /** OPTIONS_FRAMEWORK_PROMPT: how to lay out and rate an options table. */
  function OptionsFrameworkPrompt(): string
  {
    "\n"
      + "Before " + "the " + "table, " + "there " + "should " + "be " + "a " + "small " + "section " + "explaining " + "each " + "of " + "the " + "options " + "considered. " + "Begin " + "this " + "with " + "a " + "sentence " + "like " + "'The " + "<type> " + "options " + "considered " + "were:' " + "Then " + "list " + "a " + "brief " + "description " + "of " + "each " + "option.\n"
      + "The " + "first " + "column " + "should " + "be " + "titled " + "'Critical " + "Success " + "Factors' " + "and " + "should " + "contain " + "the " + "five " + "CSF " + "categories, " + "one " + "for " + "each " + "row:\n"
      + "    " + "- " + "Strategic " + "fit " + "and " + "meets " + "business " + "needs\n"
      + "    " + "- " + "Potential " + "value " + "for " + "money\n"
      + "    " + "- " + "Supplier " + "capability " + "and " + "capacity\n"
      + "    " + "- " + "Potential " + "affordability\n"
      + "    " + "- " + "Potential " + "achievability\n"
      + "Each " + "subsequent " + "column " + "should " + "be " + "reserved " + "for " + "each " + "option. " + "They " + "should " + "be " + "given " + "a " + "header " + "containing " + "each " + "option " + "description. " + "Number " + "the " + "options " + "numerically.\n"
      + "Columns " + "should " + "be " + "ordered " + "from " + "least " + "ambitious " + "on " + "the " + "left " + "to " + "most " + "ambitious " + "on " + "the " + "right. " + "Don't " + "specifically " + "refer " + "to " + "this " + "in " + "the " + "column " + "headings.\n"
      + "Each " + "option " + "should " + "be " + "rated " + "against " + "the " + "critical " + "success " + "factors " + "in " + "each " + "row " + "using " + "the " + "Red " + "Amber " + "Green " + "(RAG) " + "rating " + "system.\n"
      + "There " + "should " + "be " + "a " + "very " + "brief " + "sentence " + "in " + "each " + "cell " + "explaining " + "how " + "the " + "option " + "applies " + "to " + "the " + "CSF. " + "Use " + "coloured " + "dots " + "(🔴🟡🟢) " + "at " + "the " + "beginning " + "of " + "each " + "cell.\n"
      + "All " + "assessments " + "should " + "be " + "qualitative " + "- " + "**do " + "not " + "perform " + "quantitative " + "analysis " + "at " + "this " + "stage.**\n"
      + "The " + "last " + "row " + "should " + "be " + "a " + "conclusion " + "row, " + "accounting " + "for " + "all " + "CSF " + "applicability " + "for " + "that " + "specific " + "option.\n"
      + "Out " + "of " + "all " + "the " + "option " + "conclusions, " + "**there " + "MUST " + "only " + "be " + "ONE " + "preferred " + "option " + "(green " + "dot " + "🟢).**\n"
      + "**If " + "there " + "is " + "at " + "least " + "one " + "red " + "dot " + "for " + "that " + "option, " + "the " + "conclusion " + "dot " + "MUST " + "be " + "red " + "🔴 " + "and " + "the " + "option " + "must " + "be " + "discounted**.\n"
      + "Otherwise, " + "if " + "it " + "is " + "a " + "combination " + "of " + "amber " + "and " + "green, " + "the " + "conclusion " + "should " + "be " + "decided " + "accordingly, " + "with " + "green " + "conclusions " + "being " + "more " + "preferable.\n"
      + "These " + "options " + "should " + "consider " + "all " + "previous " + "sections " + "as " + "context " + "(particularly " + "business " + "needs " + "and " + "market " + "failure " + "sections) " + "in " + "suggesting " + "first " + "cut " + "of " + "options " + "and " + "RAG " + "ratings.\n"
      + "After " + "the " + "table, " + "include " + "a " + "brief " + "discussion " + "and " + "summary " + "of " + "options " + "considered. " + "This " + "should " + "be " + "around " + "50 " + "words " + "long.\n"
  }

  /** BLANK_PROMPT: the description of a section that is written at a later step. */
  function BlankPrompt(): string
  {
    "\n"
      + "Leave " + "this " + "section " + "blank " + "- " + "it " + "is " + "generated " + "at " + "a " + "later " + "step.\n"
  }

  function StrategicContextBrief(): string
  {
    "Write " + "an " + "introduction " + "of " + "around " + "250 " + "words " + "(±50) " + "that " + "sets " + "the " + "scene " + "by " + "describing " + "national " + "and " + "local " + "trends " + "relevant " + "to " + "the " + "project's " + "sector " + "and " + "location, " + "with " + "only " + "brief " + "reference " + "to " + "global " + "context " + "where " + "essential.\n"
      + "    " + "The " + "trends " + "may " + "include " + "themes " + "such " + "as " + "population " + "and " + "demographics, " + "economy " + "and " + "public " + "services, " + "digitalisation, " + "consumer " + "behaviour, " + "political " + "priorities, " + "legislative " + "changes, " + "development " + "pressures, " + "and " + "so " + "forth, " + "but " + "feel " + "free " + "to " + "include " + "other " + "themes " + "if " + "relevant " + "and " + "available.\n"
      + "    " + "Include " + "3-5 " + "headline " + "statistics, " + "with " + "at " + "least " + "one " + "at " + "national " + "and " + "one " + "at " + "the " + "location " + "of " + "the " + "project, " + "and " + "present " + "the " + "content " + "in " + "a " + "neutral " + "and " + "factual " + "tone.\n"
      + "    " + "Integrate " + "these " + "themes " + "into " + "a " + "cohesive " + "narrative, " + "explicitly " + "linking " + "the " + "proposed " + "project " + "to " + "its " + "intended " + "impacts.\n"
      + "    " + "Focus " + "only " + "on " + "wider " + "trends " + "and " + "circumstantial " + "information, " + "without " + "mentioning " + "the " + "specific " + "project " + "explicitly.\n"
      + "    " + "All " + "claims " + "and " + "data " + "should " + "be " + "referenced " + "with " + "links " + "in " + "<a> " + "tags."
  }

  function OrganisationalOverviewBrief(): string
  {
    "Write " + "an " + "overview " + "of " + "around " + "300 " + "words " + "(±100) " + "of " + "the " + "organisation " + "delivering " + "the " + "proposed " + "project.\n"
      + "    " + "Describe " + "its " + "legal " + "form, " + "governance " + "arrangements, " + "mission, " + "and " + "strategic " + "objectives.\n"
      + "    " + "Summarise " + "its " + "track " + "record " + "in " + "delivering " + "comparable " + "initiatives " + "and " + "its " + "reputation " + "in " + "the " + "community " + "or " + "sector.\n"
      + "    " + "Highlight " + "available " + "resources, " + "skills, " + "facilities, " + "and " + "partnerships " + "that " + "strengthen " + "its " + "capacity.\n"
      + "    " + "In " + "addition, " + "briefly " + "note " + "any " + "other " + "relevant " + "organisations " + "responsible " + "for " + "oversight, " + "management, " + "or " + "regulation " + "in " + "this " + "area.\n"
      + "    " + "This " + "section " + "should " + "be " + "written " + "strictly " + "in " + "prose " + "and " + "not " + "bullet " + "points."
  }

  function StrategicDriversBrief(): string
  {
    "Write " + "a " + "300–400 " + "word " + "section " + "on " + "the " + "strategic " + "drivers " + "relevant " + "to " + "the " + "proposed " + "project. " + "\n"
      + "    " + "Begin " + "with " + "a " + "short " + "introductory " + "paragraph " + "summarising " + "recent " + "changes " + "in " + "national, " + "regional, " + "and " + "local " + "policy " + "that " + "affect " + "this " + "area, " + "highlighting " + "their " + "significance " + "in " + "shaping " + "the " + "case " + "for " + "intervention.\n"
      + "    " + "After " + "the " + "introduction, " + "present " + "a " + "table " + "with " + "four " + "columns: " + "(1) " + "Level " + "(National, " + "Regional, " + "or " + "Local), " + "(2) " + "Strategic " + "Driver " + "(e.g. " + "Policy, " + "Strategy), " + "(3) " + "Objective, " + "and " + "(4) " + "Basis " + "of " + "grading, " + "specific " + "focus " + "of " + "alignment " + "and " + "contribution.\n"
      + "    " + "The " + "columns " + "should " + "be " + "titled: " + "(1) " + "Level, " + "(2) " + "Strategic " + "Driver, " + "(3) " + "Objective, " + "(4) " + "Description\n"
      + "    " + "In " + "the " + "table, " + "list " + "at " + "least " + "5–7 " + "policies " + "spanning " + "national, " + "regional, " + "and " + "local " + "levels, " + "each " + "with " + "a " + "clear " + "objective " + "and " + "explanation " + "of " + "how " + "it " + "is " + "relevant.\n"
      + "    " + "Table " + "rows " + "should " + "be " + "ordered " + "so " + "that " + "all " + "National " + "level " + "drivers " + "appear " + "first, " + "then " + "all " + "Regional " + "level " + "drivers, " + "than " + "Local " + "level " + "drivers " + "last.\n"
      + "    " + "This " + "section " + "should " + "conclude " + "with " + "a " + "description " + "of " + "any " + "overarching " + "programme " + "or " + "related " + "projects " + "to " + "the " + "project " + "being " + "developed " + "(if " + "available), " + "so " + "it " + "is " + "clear " + "where " + "the " + "new " + "project " + "fits " + "in " + "the " + "landscape " + "of " + "related " + "investment.\n"
      + "    " + "When " + "wording " + "this " + "section, " + "do " + "not " + "assume " + "that " + "the " + "project " + "exists " + "- " + "for " + "example, " + "use " + "\"An " + "investment " + "could...\" " + "instead " + "of " + "\"The " + "project " + "will...\".\n"
      + "    " + "All " + "links " + "to " + "references " + "should " + "be " + "included."
  }

  function SpendingObjectivesBrief(): string
  {
    "Write " + "approximately " + "150–250 " + "words " + "outlining " + "between " + "three " + "and " + "six " + "SMART " + "(Specific, " + "Measurable, " + "Achievable, " + "Relevant, " + "Time-bound) " + "objectives " + "that " + "justify " + "public " + "or " + "external " + "investment " + "in " + "the " + "proposed " + "project.\n"
      + "    " + "Ensure " + "each " + "objective " + "maps " + "to " + "a " + "different " + "dimension—such " + "as " + "cultural, " + "physical, " + "financial, " + "economic, " + "environmental, " + "or " + "social.\n"
      + "    " + "Present " + "the " + "outputs " + "in " + "a " + "numbered " + "table " + "with " + "two " + "columns: " + "(1) " + "Objective " + "and " + "(2) " + "SMART " + "Measures.\n"
      + "    " + "Under " + "each " + "objective, " + "provide " + "between " + "one " + "and " + "three " + "SMART " + "measures, " + "listed " + "as " + "bullet " + "points.\n"
      + "    " + "SMART " + "objectives " + "should " + "consider " + "the " + "following " + "reasons " + "for " + "public " + "investment: " + "economy " + "(cost " + "reduction), " + "efficiency " + "(doing " + "more " + "for " + "less), " + "effectiveness " + "(quality), " + "statutory " + "compliance " + "and " + "re-procurement.\n"
      + "    " + "In " + "practice " + "you " + "should " + "aim " + "to " + "include " + "an " + "objective " + "for " + "the " + "first " + "three " + "and " + "only " + "for " + "the " + "last " + "two " + "if " + "they " + "are " + "relevant."
  }

  function ExistingArrangementsBrief(): string
  {
    "Write " + "an " + "overview " + "of " + "around " + "400 " + "words " + "(±200) " + "describing " + "the " + "current " + "situation " + "regarding " + "the " + "proposed " + "project " + "investment.\n"
      + "    " + "Begin " + "with " + "the " + "wider " + "context, " + "outlining " + "how " + "service " + "provision " + "is " + "currently " + "structured " + "at " + "local " + "authority " + "and " + "town " + "level " + "(e.g. " + "what " + "facilities " + "or " + "venues " + "exist, " + "who " + "operates " + "them, " + "and " + "what " + "services " + "they " + "provide).\n"
      + "    " + "Then " + "focus " + "on " + "the " + "specific " + "facilities " + "at " + "the " + "project " + "location, " + "describing " + "ownership, " + "governance, " + "management " + "arrangements, " + "physical " + "condition, " + "and " + "role " + "within " + "the " + "town.\n"
      + "    " + "Highlight " + "how " + "any " + "facilities " + "are " + "currently " + "used " + "to " + "provide " + "services, " + "how " + "they " + "compare " + "to " + "other " + "provision, " + "and " + "what " + "limitations " + "or " + "gaps " + "exist " + "in " + "both " + "organisational " + "and " + "physical " + "terms.\n"
      + "    " + "Ensure " + "the " + "response " + "integrates " + "both " + "the " + "broader " + "community/cultural " + "landscape " + "and " + "the " + "individual " + "facility " + "context.\n"
      + "    " + "All " + "claims " + "and " + "data " + "should " + "be " + "referenced " + "with " + "links " + "in " + "<a> " + "tags."
  }

  function BusinessNeedsBrief(): string
  {
    "Write " + "an " + "overview " + "of " + "around " + "400 " + "words " + "(±100) " + "describing " + "the " + "business " + "needs " + "that " + "underpin " + "the " + "proposed " + "project.\n"
      + "    " + "Begin " + "with " + "broader " + "evidence " + "of " + "community " + "demand " + "for " + "cultural " + "and " + "civic " + "space " + "at " + "the " + "town " + "and " + "district " + "level, " + "before " + "narrowing " + "to " + "specific " + "evidence " + "from " + "local " + "groups, " + "facilities, " + "or " + "consultations.\n"
      + "    " + "Emphasise " + "that " + "the " + "primary " + "driver " + "of " + "the " + "need " + "is " + "bottom-up " + "community " + "demand " + "and " + "user " + "preferences, " + "not " + "just " + "top-down " + "government " + "priorities.\n"
      + "    " + "Show " + "this " + "through " + "evidence " + "such " + "as " + "demographic " + "pressures, " + "consultation " + "findings, " + "levels " + "of " + "bookings " + "at " + "comparable " + "venues, " + "or " + "the " + "number " + "and " + "type " + "of " + "community " + "groups " + "seeking " + "the " + "intended " + "project’s " + "impacts.\n"
      + "    " + "Identify " + "barriers " + "created " + "by " + "limited, " + "outdated, " + "or " + "unsuitable " + "facilities, " + "and " + "explain " + "the " + "consequences " + "of " + "not " + "addressing " + "these " + "needs.\n"
      + "    " + "Include " + "any " + "foreseen " + "future " + "issues.\n"
      + "    " + "Ensure " + "the " + "response " + "demonstrates " + "how " + "these " + "needs " + "align " + "with, " + "but " + "are " + "distinct " + "from, " + "broader " + "policy " + "goals.\n"
      + "    " + "Present " + "in " + "a " + "neutral " + "and " + "factual " + "tone, " + "avoiding " + "abstract " + "statements " + "or " + "unsupported " + "generalisations.\n"
      + "    " + "Any " + "online-sourced " + "evidence " + "and " + "data " + "used " + "must " + "be " + "correctly " + "referenced " + "referenced " + "with " + "links " + "in " + "<a> " + "tags.\n"
      + "    " + "Present " + "the " + "analysis " + "in " + "two " + "sections: " + "'problems " + "with " + "the " + "existing " + "arrangements' " + "and " + "'opportunities'.\n"
      + "    " + "Use " + "a " + "mixture " + "of " + "narrative " + "and " + "bullet " + "points " + "for " + "clarity."
  }

  function CaseForChangeSummaryBrief(): string
  {
    "Produce " + "a " + "Case " + "for " + "Change " + "table " + "that " + "summarises " + "the " + "challenges, " + "objectives, " + "and " + "business " + "needs " + "relevant " + "to " + "the " + "proposed " + "project.\n"
      + "    " + "Structure " + "the " + "table " + "into " + "three " + "columns: " + "(1) " + "Existing " + "challenges " + "and " + "opportunities, " + "(2) " + "Objectives, " + "and " + "(3) " + "Business " + "need " + "(Gap).\n"
      + "    " + "Present " + "rows " + "thematically " + "but " + "without " + "a " + "separate " + "thematic " + "area " + "column, " + "and " + "do " + "not " + "insert " + "headings " + "within " + "the " + "cells.\n"
      + "    " + "The " + "objectives " + "must " + "match " + "the " + "spending " + "objectives " + "presented " + "in " + "section " + "1.3. " + "Do " + "not " + "add " + "or " + "remove " + "any " + "objectives " + "from " + "this " + "section.\n"
      + "    " + "Write " + "concisely " + "and " + "factually " + "in " + "each " + "cell, " + "focusing " + "on " + "practical " + "needs " + "and " + "evidence.\n"
      + "    " + "Do " + "not " + "contrast " + "a " + "'do " + "nothing' " + "vs " + "'do " + "minimum' " + "scenario; " + "instead, " + "present " + "the " + "key " + "challenges, " + "what " + "should " + "be " + "achieved, " + "and " + "what " + "the " + "gap " + "is " + "that " + "must " + "be " + "addressed.\n"
      + "    " + "For " + "each " + "row, " + "the " + "existing " + "arrangements " + "must " + "align " + "with " + "the " + "objective " + "and " + "corresponding " + "business " + "needs."
  }

  function PotentialBenefitsBrief(): string
  {
    "Write " + "an " + "overview " + "of " + "around " + "150 " + "words " + "(±50) " + "setting " + "out " + "the " + "potential " + "benefits " + "of " + "the " + "proposed " + "project.\n"
      + "    " + "After " + "the " + "introductory " + "text, " + "present " + "a " + "concise " + "table " + "with " + "three " + "columns: " + "(1) " + "Benefit " + "number, " + "(2) " + "brief " + "description " + "of " + "the " + "benefit, " + "and " + "to " + "whom " + "this " + "benefit " + "accrues " + "– " + "the " + "beneficiaries, " + "(3) " + "is " + "the " + "benefit " + "cash " + "releasing, " + "non-cash " + "releasing " + "or " + "wider " + "social, " + "economic " + "or " + "environmental " + "benefit.\n"
      + "    " + "The " + "three " + "columns " + "should " + "be " + "titled " + "(1) " + "(leave " + "title " + "blank), " + "(2) " + "Benefit, " + "(3) " + "Type " + "of " + "Benefit\n"
      + "    " + "Structure " + "the " + "content " + "to " + "follow " + "the " + "same " + "order " + "as " + "the " + "objectives " + "previously " + "identified, " + "but " + "do " + "not " + "explicitly " + "label " + "or " + "categorise " + "the " + "dimensions. " + "\n"
      + "    " + "In " + "each " + "case, " + "state " + "clearly " + "who " + "the " + "beneficiaries " + "would " + "be " + "(e.g. " + "residents, " + "community " + "groups, " + "audiences, " + "visitors, " + "or " + "the " + "local " + "economy).\n"
      + "    " + "Where " + "possible, " + "provide " + "quantitative " + "estimates " + "of " + "potential " + "benefits, " + "such " + "as " + "projected " + "attendance, " + "financial " + "sustainability " + "measures, " + "visitor " + "numbers, " + "or " + "environmental " + "performance."
  }

  function PotentialRisksBrief(): string
  {
    "Write " + "an " + "overview " + "of " + "no " + "more " + "than " + "150 " + "words " + "introducing " + "the " + "potential " + "risks " + "associated " + "with " + "the " + "proposed " + "project.\n"
      + "    " + "After " + "the " + "introductory " + "text, " + "present " + "a " + "concise " + "table " + "with " + "four " + "columns: " + "(1) " + "Risk " + "number, " + "(2) " + "Potential " + "risk, " + "(3) " + "Mitigation " + "method, " + "and " + "(4) " + "Level " + "of " + "impact " + "(High/Medium/Low). " + "\n"
      + "    " + "Order " + "the " + "risks " + "in " + "the " + "table " + "by " + "level " + "of " + "impact, " + "with " + "High-impact " + "risks " + "listed " + "first, " + "followed " + "by " + "Medium, " + "and " + "then " + "Low.\n"
      + "    " + "Cover " + "risks " + "across " + "strategic, " + "financial, " + "operational, " + "market/demand, " + "and " + "environmental/regulatory " + "areas.\n"
      + "    " + "Keep " + "the " + "section " + "concise " + "so " + "that " + "its " + "overall " + "length " + "does " + "not " + "exceed " + "that " + "of " + "the " + "Potential " + "Benefits " + "section."
  }

  function ConstraintsBrief(): string
  {
    "Write " + "an " + "overview " + "of " + "around " + "150 " + "words " + "(±50) " + "summarising " + "the " + "likely " + "constraints " + "that " + "could " + "limit " + "the " + "scope " + "or " + "shape " + "of " + "the " + "proposed " + "project.\n"
      + "    " + "Cover " + "legal, " + "regulatory, " + "financial, " + "environmental, " + "planning, " + "and " + "practical " + "constraints."
  }

  function DependenciesBrief(): string
  {
    "Write " + "an " + "overview " + "of " + "around " + "150 " + "words " + "(±50) " + "summarising " + "the " + "dependencies " + "that " + "could " + "affect " + "this " + "proposed " + "project.\n"
      + "    " + "Describe " + "reliance " + "on " + "other " + "factors, " + "including " + "for " + "example " + "funding " + "streams, " + "infrastructure " + "availability, " + "planning " + "or " + "regulatory " + "approvals, " + "local " + "partnerships, " + "policy " + "frameworks, " + "community " + "engagement, " + "and " + "other " + "relevant " + "areas.\n"
      + "    " + "Highlight " + "both " + "risks " + "and " + "opportunities " + "that " + "arise " + "from " + "these " + "dependencies."
  }

  function PurposeOfEconomicCaseBrief(): string
  {
    "This " + "section " + "should " + "consist " + "of " + "one " + "short " + "paragraph " + "describing " + "the " + "overall " + "structure " + "and " + "approach " + "of " + "the " + "economic " + "case. " + "It " + "should " + "cover " + "the " + "objectives " + "and " + "coverage " + "of " + "the " + "case.\n"
      + "    " + "Use " + "the " + "following " + "passage " + "as " + "a " + "boilerplate " + "from " + "which " + "to " + "base " + "this " + "section:\n"
      + "    " + "'The " + "purpose " + "of " + "the " + "Economic " + "Case " + "is " + "to " + "identify " + "the " + "preferred " + "project " + "option " + "– " + "i.e. " + "the " + "option " + "that " + "provides " + "the " + "'optimal' " + "balance " + "of " + "cost, " + "risk " + "and " + "benefits " + "to " + "deliver " + "the " + "objectives " + "set " + "out " + "in " + "the " + "Strategic " + "Case. " + "Identifying " + "this " + "option " + "includes " + "two " + "main " + "steps:\n"
      + "    " + "- " + "Use " + "the " + "HMT " + "Green " + "Book " + "options " + "assessment " + "framework " + "to " + "generate " + "and " + "appraise " + "a " + "long " + "list " + "of " + "options, " + "using " + "the " + "categories " + "of " + "choice " + "in " + "sequence, " + "to " + "develop " + "a " + "shortlist\n"
      + "    " + "- " + "Further " + "assess " + "the " + "shortlist " + "to " + "identify " + "the " + "preferred " + "option, " + "taking " + "into " + "account " + "value " + "for " + "money " + "(VfM), " + "risk, " + "qualitative " + "factors, " + "place-based " + "considerations, " + "and " + "wider " + "sustainability " + "impacts, " + "applied " + "proportionately'"
  }

  function MarketFailureBrief(): string
  {
    "This " + "section " + "must " + "only " + "consist " + "of " + "a " + "table, " + "and " + "optionally " + "one " + "short " + "sentence " + "introducing " + "the " + "table " + "(e.g. " + "'The " + "market " + "failures " + "are " + "presented " + "in " + "the " + "table " + "below').\n"
      + "    " + "The " + "table " + "should " + "use " + "the " + "four " + "categories " + "of " + "market " + "failure " + "recognised " + "in " + "HM " + "Treasury's " + "Green " + "Book: " + "(1) " + "Public " + "goods, " + "(2) " + "Imperfect " + "information, " + "(3) " + "Externalities, " + "and " + "(4) " + "Market " + "power.\n"
      + "    " + "Only " + "include " + "rows " + "for " + "those " + "failures " + "that " + "are " + "actually " + "relevant " + "to " + "the " + "proposed " + "project; " + "if " + "one " + "does " + "not " + "apply, " + "leave " + "it " + "out.\n"
      + "    " + "Within " + "each " + "relevant " + "row, " + "explain " + "briefly " + "how " + "that " + "type " + "of " + "failure " + "applies " + "to " + "the " + "project, " + "with " + "references " + "where " + "possible.\n"
      + "    " + "Where " + "appropriate, " + "refer " + "also " + "to " + "the " + "related " + "concepts " + "of " + "factor " + "immobility " + "and " + "missing " + "markets, " + "but " + "integrate " + "these " + "into " + "the " + "explanation " + "rather " + "than " + "presenting " + "them " + "as " + "separate " + "rows.\n"
      + "    " + "Keep " + "the " + "explanations " + "concise, " + "factual, " + "and " + "aligned " + "with " + "Green " + "Book " + "definitions."
  }

  function LonglistToShortlistBrief(): string
  {
    "This " + "section " + "should " + "consist " + "of " + "one " + "short " + "paragraph " + "that " + "comprises " + "a " + "brief " + "introduction " + "to " + "the " + "options " + "framework.\n"
      + "    " + "This " + "is " + "a " + "six-part " + "section " + "consisting " + "of:\n"
      + "    " + "- " + "Critical " + "success " + "factors\n"
      + "    " + "- " + "Scope " + "options " + "(the " + "'what')\n"
      + "    " + "- " + "Solution " + "options " + "(the " + "'how')\n"
      + "    " + "- " + "Delivery " + "options " + "(the " + "'who')\n"
      + "    " + "- " + "Implementation " + "(the " + "'when')\n"
      + "    " + "- " + "Funding " + "options " + "(the " + "'who " + "pays')\n"
      + "    " + "Do " + "not " + "explain " + "why " + "this " + "is " + "a " + "good " + "thing " + "to " + "do, " + "etc., " + "only " + "outline " + "the " + "process.\n"
      + "    " + "Critical " + "success " + "factors " + "will " + "be " + "defined " + "in " + "the " + "next " + "section, " + "and " + "the " + "following " + "five " + "sections " + "will " + "be " + "worked " + "through " + "for " + "each.\n"
      + "    " + "This " + "section " + "should " + "be " + "written " + "strictly " + "in " + "prose " + "and " + "not " + "bullet " + "points."
  }

  function CriticalSuccessFactorsBrief(): string
  {
    "This " + "section " + "must " + "only " + "consist " + "of " + "a " + "table, " + "and " + "optionally " + "one " + "sentence " + "introducing " + "the " + "table. " + "For " + "example, " + "'The " + "critical " + "success " + "factors " + "are " + "presented " + "in " + "the " + "table " + "below:'.\n"
      + "    " + "The " + "table " + "should " + "consist " + "of " + "two " + "columns: " + "(1) " + "Critical " + "Success " + "Factor, " + "(2) " + "How " + "well " + "does " + "the " + "option... " + "(3) " + "Description\n"
      + "    " + "These " + "factors " + "should " + "be " + "derived " + "from " + "strategic " + "objectives, " + "legal " + "statutes, " + "or " + "absolute " + "technical " + "necessities. " + "List " + "each " + "CSF " + "clearly " + "(e.g., " + "'Full " + "operation " + "by " + "Q1 " + "2027', " + "'Compliance " + "with " + "the " + "Environment " + "Act " + "2021', " + "'Integration " + "with " + "existing " + "Core " + "IT " + "System " + "X').\n"
      + "    " + "Do " + "not " + "begin " + "the " + "success " + "factors " + "with " + "'must', " + "they " + "should " + "be " + "worded " + "as " + "variable " + "statements " + "like " + "the " + "examples " + "given " + "above.\n"
      + "    " + "There " + "should " + "be " + "five " + "critical " + "success " + "factors " + "that " + "correspond " + "to " + "the " + "following " + "categories. " + "Each " + "row " + "should " + "start " + "with, " + "in " + "the " + "first " + "column:\n"
      + "    " + "- " + "\"Strategic " + "fit " + "and " + "meets " + "business " + "needs\" " + "(Does " + "the " + "option " + "fulfil " + "the " + "[strategic " + "drivers " + "section " + "1.3 " + "of " + "strategic " + "case " + "and " + "meet " + "the " + "spending " + "objectives " + "and " + "business " + "needs " + "in " + "the " + "1.7 " + "summary " + "case " + "for " + "change]?)\n"
      + "    " + "- " + "\"Potential " + "value " + "for " + "money\" " + "(How " + "likely " + "is " + "the " + "option " + "to " + "deliver " + "benefits " + "such " + "as " + "[expected " + "benefits " + "section " + "of " + "strategic " + "case] " + "at " + "a " + "proportionate " + "cost, " + "while " + "managing " + "delivery " + "and " + "operational " + "risks?)\n"
      + "    " + "- " + "\"Supplier " + "capability " + "and " + "capacity\" " + "(Does " + "the " + "market " + "and " + "its " + "suppliers " + "in " + "the " + "[MARKET " + "from " + "2.2 " + "market " + "failure " + "section] " + "have " + "the " + "capacity " + "and " + "capability " + "to " + "deliver " + "the " + "option?)\n"
      + "    " + "- " + "\"Potential " + "affordability\" " + "(Is " + "the " + "option " + "feasible " + "given " + "the " + "available " + "[capital " + "budget " + "input " + "at " + "landing " + "page], " + "and " + "in " + "terms " + "of " + "covering " + "operational " + "costs " + "given " + "reasonable " + "assumptions " + "regarding " + "expected " + "revenue " + "and " + "funding " + "when " + "in " + "operation?)\n"
      + "    " + "- " + "\"Potential " + "achievability\" " + "(Is " + "the " + "option " + "likely " + "to " + "be " + "delivered " + "successfully, " + "considering " + "the " + "skills " + "of " + "the " + "project " + "proponent " + "and " + "organisation " + "responsible " + "for " + "delivery " + "[see " + "project " + "information " + "page], " + "governance, " + "risks, " + "and " + "timescales " + "[of " + "proposition]?)\n"
      + "    " + "In " + "the " + "second " + "column, " + "the " + "values " + "should " + "be, " + "from " + "top " + "to " + "bottom:\n"
      + "    " + "-------------------------------\n"
      + "    " + "- " + "meet " + "agreed " + "spending " + "objectives, " + "related " + "business " + "needs " + "and " + "service " + "requirements?\n"
      + "    " + "- " + "provide " + "holistic " + "fit " + "and " + "synergy " + "with " + "other " + "strategies, " + "programmes " + "and " + "projects?\n"
      + "    " + "-------------------------------\n"
      + "    " + "- " + "optimise " + "social " + "value " + "(social, " + "economic " + "and " + "environmental), " + "in " + "terms " + "of " + "the " + "potential " + "costs, " + "benefits " + "and " + "risks?\n"
      + "    " + "-------------------------------\n"
      + "    " + "- " + "match " + "the " + "ability " + "of " + "potential " + "suppliers " + "to " + "deliver " + "the " + "required " + "services?\n"
      + "    " + "-------------------------------\n"
      + "    " + "- " + "fit " + "within " + "available " + "funding?\n"
      + "    " + "- " + "align " + "with " + "sourcing " + "constraints?\n"
      + "    " + "-------------------------------\n"
      + "    " + "- " + "match " + "the " + "level " + "of " + "available " + "skills " + "required " + "for " + "successful " + "delivery\n"
      + "    " + "- " + "appear " + "likely " + "to " + "be " + "delivered " + "given " + "an " + "organisation's " + "ability " + "to " + "respond " + "to " + "the " + "changes " + "required\n"
      + "    " + "-------------------------------\n"
      + "    " + "In " + "this " + "second " + "column, " + "all " + "list " + "items " + "should " + "begin " + "with " + "hyphens, " + "and " + "there " + "should " + "be " + "a " + "line " + "break " + "between " + "each " + "item.\n"
      + "    " + "\n"
      + "    " + "These " + "critical " + "success " + "factors " + "should " + "have " + "their " + "meaning " + "explained " + "in " + "relation " + "to " + "the " + "project."
  }

  function ScopeOptionsBrief(): string
  {
    "This " + "section " + "should " + "consist " + "of " + "a " + "table " + "with " + "scope " + "options.\n"
      + "    " + "Define " + "the " + "'what' " + "by " + "outlining " + "different " + "extents " + "or " + "boundaries " + "for " + "the " + "project. " + "Present " + "distinct " + "choices " + "for " + "what " + "the " + "project " + "will " + "and " + "will " + "not " + "cover. " + "Examples " + "include: " + "'Whole " + "service " + "end-to-end', " + "'Phased " + "rollout " + "by " + "geography', " + "'Minimum " + "viable " + "product " + "(MVP) " + "vs. " + "full " + "enhancement', " + "or " + "'Target " + "user " + "group " + "A " + "only " + "vs. " + "all " + "user " + "groups'. " + "Describe " + "the " + "service " + "model, " + "estimated " + "costs, " + "delivery " + "approach, " + "and " + "key " + "limitations " + "for " + "each " + "scope " + "option."
  }

  function SolutionOptionsBrief(): string
  {
    "This " + "section " + "should " + "consist " + "of " + "a " + "table " + "with " + "solution " + "options.\n"
      + "    " + "Define " + "the " + "'how' " + "by " + "presenting " + "different " + "methods " + "or " + "models " + "to " + "meet " + "the " + "project's " + "objectives " + "and " + "address " + "the " + "limitations " + "of " + "the " + "status " + "quo. " + "These " + "options " + "should " + "relate " + "to " + "the " + "practical, " + "physical " + "solutions."
  }

  function DeliveryOptionsBrief(): string
  {
    "This " + "section " + "should " + "consist " + "of " + "a " + "table " + "with " + "delivery " + "options.\n"
      + "    " + "Define " + "the " + "'who' " + "and " + "'how' " + "by " + "evaluating " + "different " + "models " + "for " + "procuring " + "and " + "delivering " + "the " + "chosen " + "solution. " + "Present " + "and " + "analyze " + "options " + "such " + "as " + "in-house " + "delivery, " + "outsourcing, " + "strategic " + "partnership, " + "joint " + "venture, " + "or " + "using " + "a " + "central " + "government " + "framework. " + "These " + "options " + "should " + "relate " + "to " + "who " + "is " + "going " + "to " + "implement " + "the " + "solution."
  }

  function ImplementationOptionsBrief(): string
  {
    "This " + "section " + "should " + "consist " + "of " + "a " + "table " + "with " + "implementation " + "options\n"
      + "    " + "Define " + "the " + "'when' " + "and " + "'how' " + "by " + "outlining " + "high-level " + "strategic " + "approaches " + "for " + "rolling " + "out " + "the " + "project. " + "Present " + "different " + "phasing " + "and " + "sequencing " + "strategies, " + "such " + "as " + "'Big " + "Bang' " + "launch, " + "'Phased " + "Geographical " + "Rollout', " + "or " + "'Pilot " + "followed " + "by " + "scaled " + "deployment'. " + "For " + "each " + "option, " + "briefly " + "describe " + "the " + "key " + "stages, " + "timeline, " + "and " + "major " + "dependencies. " + "This " + "should " + "be " + "directly " + "linked " + "to " + "achieving " + "the " + "project's " + "spending " + "objectives."
  }

  function FundingOptionsBrief(): string
  {
    "This " + "section " + "should " + "consist " + "of " + "a " + "table " + "with " + "funding " + "options.\n"
      + "    " + "Define " + "the " + "financial " + "mechanisms " + "for " + "resourcing " + "the " + "project. " + "Present " + "and " + "analyze " + "different " + "potential " + "sources " + "of " + "funding, " + "such " + "as " + "'Treasury " + "Grant', " + "'Departmental " + "Budget', " + "'Public-Private " + "Financing " + "(PF2)', " + "'User " + "Charges', " + "or " + "'Capital " + "Markets " + "Raising'. " + "For " + "each " + "option, " + "summarize " + "the " + "key " + "implications " + "for " + "affordability, " + "value " + "for " + "money, " + "risk " + "transfer, " + "and " + "budgetary " + "treatment."
  }

  function OptionsFrameworkSummaryBrief(): string
  {
    "Provide " + "a " + "consolidated " + "summary " + "of " + "the " + "Options " + "Framework. " + "Present " + "a " + "matrix " + "or " + "table " + "showing " + "how " + "each " + "option " + "from " + "the " + "longlist " + "(across " + "scope, " + "solution, " + "delivery, " + "implementation, " + "and " + "funding) " + "performed " + "against " + "the " + "Critical " + "Success " + "Factors " + "and " + "initial " + "high-level " + "scoring.\n"
      + "    " + "The " + "table " + "should " + "consist " + "of " + "five " + "rows " + "and " + "a " + "header " + "row. " + "The " + "first " + "column " + "in " + "the " + "table " + "should " + "represent " + "the " + "five " + "areas " + "considered " + "in " + "the " + "options " + "framework:\n"
      + "        " + "- " + "Scope " + "options\n"
      + "        " + "- " + "Solution " + "options\n"
      + "        " + "- " + "Delivery " + "options\n"
      + "        " + "- " + "Implementation\n"
      + "        " + "- " + "Funding " + "options\n"
      + "    " + "The " + "options " + "considered " + "for " + "each " + "area " + "should " + "then " + "be " + "presented " + "in " + "columns " + "to " + "the " + "right, " + "with " + "a " + "number " + "of " + "columns " + "in " + "each " + "row " + "equal " + "to " + "the " + "number " + "of " + "options.\n"
      + "    " + "If " + "the " + "number " + "of " + "options " + "is " + "different " + "for " + "each " + "row, " + "fill " + "the " + "extra " + "cells " + "with " + "empty " + "space.\n"
      + "    " + "Options " + "should " + "be " + "listed " + "in " + "numerical " + "order " + "from " + "left " + "to " + "right.\n"
      + "    " + "Be " + "sure " + "to " + "include " + "the " + "same " + "coloured " + "dot " + "as " + "provided " + "in " + "the " + "conclusion " + "for " + "each " + "option " + "considered.\n"
      + "    " + "Less " + "ambitious " + "options " + "should " + "be " + "placed " + "to " + "the " + "left, " + "and " + "more " + "ambitious " + "options " + "should " + "be " + "placed " + "to " + "the " + "right.\n"
      + "    " + "Introduce " + "the " + "table " + "with " + "a " + "brief " + "introduction. " + "Do " + "not " + "include " + "any " + "kind " + "of " + "analysis " + "or " + "conclusion " + "beneath " + "the " + "table."
  }

  function ShortlistOfOptionsBrief(): string
  {
    "This " + "section " + "should " + "contain " + "a " + "table " + "identifying " + "the " + "short " + "list " + "for " + "further " + "assessment.\n"
      + "    " + "The " + "table " + "should " + "contain " + "one " + "column " + "for " + "each " + "option " + "considered.\n"
      + "    " + "The " + "following " + "rows " + "should " + "contain " + "all " + "five " + "types " + "of " + "options " + "considered:\n"
      + "        " + "- " + "Scope " + "option\n"
      + "        " + "- " + "Solution " + "option\n"
      + "        " + "- " + "Delivery " + "option\n"
      + "        " + "- " + "Implementation " + "option\n"
      + "        " + "- " + "Funding " + "option\n"
      + "    " + "The " + "corresponding " + "cells " + "should " + "contain " + "the " + "options " + "considered " + "from " + "each " + "of " + "the " + "five " + "types " + "of " + "option " + "considered " + "in " + "previous " + "sections.\n"
      + "    " + "The " + "last " + "two " + "rows " + "should " + "have " + "headings " + "on " + "the " + "left " + "'Description' " + "and " + "'Rationale'.\n"
      + "    " + "The " + "first " + "column " + "should " + "have " + "the " + "heading " + "'Option " + "1 " + "- " + "Counterfactual' " + "and " + "contain " + "the " + "text " + "'No " + "investment' " + "for " + "each " + "of " + "the " + "five " + "option " + "rows.\n"
      + "    " + "The " + "second " + "column " + "should " + "have " + "the " + "heading " + "'Option " + "2 " + "- " + "Less " + "ambitious' " + "and " + "contain " + "the " + "'Less " + "ambitious' " + "option.\n"
      + "    " + "The " + "third " + "column " + "should " + "have " + "the " + "heading " + "'Option " + "3- " + "Preferred' " + "and " + "contain " + "the " + "'preferred' " + "option " + "- " + "all " + "five " + "preferred " + "(green) " + "options " + "from " + "the " + "options " + "framework.\n"
      + "    " + "The " + "fourth " + "column " + "should " + "have " + "the " + "heading " + "'Option " + "4 " + "- " + "More " + "ambitious' " + "and " + "contain " + "the " + "'More " + "ambitious' " + "option.\n"
      + "    " + "Outside " + "of " + "the " + "Counterfactual " + "option, " + "the " + "five " + "options " + "that " + "contribute " + "to " + "that " + "way " + "forward " + "should " + "be " + "listed.\n"
      + "    " + "The " + "Counterfactual " + "option " + "should " + "refer " + "back " + "to " + "content " + "from " + "section " + "1.5 " + "(1-5) " + "in " + "the " + "strategic " + "case.\n"
      + "    " + "Clearly " + "state " + "which " + "options " + "have " + "been " + "eliminated " + "and " + "which " + "have " + "progressed " + "to " + "the " + "shortlist, " + "providing " + "the " + "rationale " + "for " + "each " + "decision.\n"
      + "    " + "A " + "shortlist " + "should " + "be " + "suggested " + "based " + "on " + "the " + "available " + "options. " + "Green " + "choices " + "per " + "category " + "of " + "choice " + "form " + "the " + "preferred " + "option; " + "these " + "are " + "combined " + "with " + "yellow " + "carry " + "forward " + "options " + "which " + "are " + "more " + "or " + "less " + "ambitious " + "to " + "construct " + "a " + "more " + "ambitious " + "and " + "a " + "less " + "ambitious " + "option " + "to " + "take " + "forward " + "to " + "part " + "2 " + "of " + "the " + "analysis\n"
      + "    " + "Present " + "the " + "final, " + "viable " + "shortlist " + "of " + "options " + "that " + "will " + "undergo " + "detailed " + "appraisal. " + "Each " + "shortlisted " + "option " + "should " + "be " + "a " + "coherent " + "combination " + "of " + "choices " + "from " + "the " + "framework " + "(e.g., " + "'Option " + "3: " + "MVP " + "Scope " + "- " + "Outsourced " + "Solution " + "- " + "Phased " + "Implementation " + "- " + "Departmental " + "Funding'). " + "Provide " + "a " + "succinct " + "description " + "for " + "each " + "shortlisted " + "option, " + "explaining " + "why " + "it " + "is " + "considered " + "a " + "strong " + "contender " + "before " + "the " + "full " + "economic " + "analysis " + "is " + "conducted.\n"
      + "    " + "The " + "analysis " + "beneath " + "the " + "table " + "should " + "consist " + "of " + "250-500 " + "words, " + "as " + "required. " + "It " + "should " + "begin " + "with " + "a " + "brief " + "sentence " + "and " + "bullet " + "point " + "list " + "introducing " + "the " + "preferred " + "way " + "forward " + "- " + "all " + "five " + "green " + "dotted " + "conclusions " + "from " + "the " + "previous " + "option " + "tables."
  }
}
