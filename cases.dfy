/**
 * The request records of the case endpoints, and what the strategic and
 * economic prompt builders share: the "string" placeholder test on the
 * frameworks, the text of the frameworks and of the supplementary
 * materials, and the JSON skeleton of section entries each of them appends.
 */
module Cases {
  import opened Values
  import opened Text
  import opened Sections

  /** A supplementary document: its title and, possibly missing, its text. */
  datatype SupplementaryInfo = SupplementaryInfo(title: string, text: Option<string>)

  /** The sectors a strategic case can name. */
  datatype ProjectSector =
    | Transport
    | Health
    | Education
    | Housing
    | Environment
    | Digital
    | EconomicDevelopment
    | OtherSector

  /** The text value of a sector. */
  function SectorValue(s: ProjectSector): string
  {
    match s
    case Transport => "Transport & Infrastructure"
    case Health => "Health & Social Care"
    case Education => "Education"
    case Housing => "Housing & Planning"
    case Environment => "Environment & Sustainability"
    case Digital => "Digital & Technology"
    case EconomicDevelopment => "Economic Development"
    case OtherSector => "Other"
  }

  /** The inputs of a strategic case. */
  datatype StrategicCase = StrategicCase(
    projectTitle: string,
    projectDescription: string,
    keyFactsIssues: Option<string>,
    estimatedBudget: Option<string>,
    location: Option<string>,
    projectSector: Option<ProjectSector>,
    frameworks: Option<seq<string>>,
    supplementaryInformation: Option<seq<SupplementaryInfo>>)

  datatype StrategicCaseRequest = StrategicCaseRequest(document: StrategicCase)

  /** The inputs of the first part of an economic case. */
  datatype EconomicCase = EconomicCase(
    strategicCase: string,
    frameworks: Option<seq<string>>,
    supplementaryInformation: Option<seq<SupplementaryInfo>>)

  datatype EconomicCaseRequest = EconomicCaseRequest(document: EconomicCase)

  // ---------------------------------------------------------------------
  // Frameworks
  // ---------------------------------------------------------------------

  /** A framework entry that is only the schema's "string" placeholder,
      whatever its case and surrounding whitespace. */
  predicate IsPlaceholder(f: string)
  {
    Lower(Strip(f)) == "string"
  }

  /** Python's `any(...)` over a list: some element satisfies `p`. */
  function AnyOf(xs: seq<string>, p: string -> bool): bool
  {
    |xs| > 0 && (p(xs[0]) || AnyOf(xs[1..], p))
  }

  lemma {:induction false} AnyOfIff(xs: seq<string>, p: string -> bool)
    ensures AnyOf(xs, p) <==> exists i :: 0 <= i < |xs| && p(xs[i])
  {
    if |xs| > 0 {
      AnyOfIff(xs[1..], p);
      if !AnyOf(xs, p) {
        forall i | 0 <= i < |xs|
          ensures !p(xs[i])
        {
          if i > 0 {
            assert xs[i] == xs[1..][i - 1];
          }
        }
      } else if !p(xs[0]) {
        var j :| 0 <= j < |xs[1..]| && p(xs[1..][j]);
        assert xs[j + 1] == xs[1..][j];
      }
    }
  }

  /** `any(f.strip().lower() != "string" for f in frameworks)`. */
  function AnyReal(frameworks: seq<string>): bool
  {
    AnyOf(frameworks, f => !IsPlaceholder(f))
  }

  /** The guard of the framework directive: the list is given, not empty,
      and holds an entry that is not the placeholder. */
  predicate CitesFrameworks(frameworks: Option<seq<string>>)
  {
    frameworks.Some? && |frameworks.value| > 0 && AnyReal(frameworks.value)
  }

  /** The frameworks text: all entries, placeholders included, joined with
      ", " and followed by a blank line; empty when the directive is not emitted. */
  function FrameworksText(frameworks: Option<seq<string>>): (r: string)
    ensures !CitesFrameworks(frameworks) ==> r == ""
  {
    if CitesFrameworks(frameworks) then Join(frameworks.value, ", ") + "\n\n" else ""
  }

  /** When the directive is emitted, every entry is named in the frameworks
      text, the placeholders as well. */
  lemma FrameworksTextNamesAll(frameworks: Option<seq<string>>, i: int)
    requires CitesFrameworks(frameworks)
    requires 0 <= i < |frameworks.value|
    ensures Contains(FrameworksText(frameworks), frameworks.value[i])
  {
    var joined := Join(frameworks.value, ", ");
    JoinContainsEach(frameworks.value, ", ", i);
    ContainsEnds(joined, "\n\n");
    ContainsTransitive(joined + "\n\n", joined, frameworks.value[i]);
  }

  /** The directive is emitted exactly when one entry is not the placeholder. */
  lemma CitesFrameworksIff(frameworks: Option<seq<string>>)
    ensures CitesFrameworks(frameworks) <==>
      frameworks.Some? && exists i :: 0 <= i < |frameworks.value| && !IsPlaceholder(frameworks.value[i])
  {
    if frameworks.Some? {
      AnyOfIff(frameworks.value, f => !IsPlaceholder(f));
    }
  }

  // ---------------------------------------------------------------------
  // Supplementary materials
  // ---------------------------------------------------------------------

  /** The guard of the supplementary directive: a list is given and is not empty. */
  predicate HasSupplementary(items: Option<seq<SupplementaryInfo>>)
  {
    items.Some? && |items.value| > 0
  }

  /** The items of an optional list; none when the list is missing. */
  function ItemsOf(items: Option<seq<SupplementaryInfo>>): (r: seq<SupplementaryInfo>)
    ensures !HasSupplementary(items) ==> r == []
  {
    if items.Some? then items.value else []
  }

  /** The block one supplementary item adds to the materials text. */
  function MaterialBlock(item: SupplementaryInfo): string
  {
    "\n" + ShowOptional(item.text) + "\n\n"
  }

  /** The materials text after the loop has visited `items`: one block per
      item, in input order. */
  function MaterialsText(items: seq<SupplementaryInfo>): string
  {
    ConcatMap(items, MaterialBlock)
  }

  /** The loop that builds the materials text, one block per item. */
  method Materials(items: seq<SupplementaryInfo>) returns (sups: string)
    ensures sups == MaterialsText(items)
  {
    sups := "";
    for k := 0 to |items|
      invariant sups == ConcatMap(items[..k], MaterialBlock)
    {
      assert items[..k + 1][..k] == items[..k];
      sups := sups + MaterialBlock(items[k]);
    }
    assert items[..|items|] == items;
  }

  // ---------------------------------------------------------------------
  // The JSON skeleton of section entries
  // ---------------------------------------------------------------------

  /** What an entry of the skeleton asks for: the section's own prompt from
      SECTION_PROMPTS, or BLANK_PROMPT. */
  datatype Description = TableBrief(template: Template) | Blank

  /** One entry of the skeleton. `opener` and `closer` are the characters
      written around the description, as the source writes them. */
  datatype Entry = Entry(id: string, number: string, title: string, description: Description, opener: string, closer: string)
  {
    /** The entry's name: its number, a space and its title. */
    function Name(): string
    {
      number + " " + title
    }
  }

  /** The whitespace and brackets around the entries of a skeleton. */
  datatype Layout = Layout(start: string, braceIndent: string, idIndent: string, fieldIndent: string, finish: string)

  /** The text of a description. */
  function DescriptionText(d: Description): string
  {
    match d
    case TableBrief(t) => Render(t)
    case Blank => BlankPrompt()
  }

  /** The text of one entry, its description written out by `describe`. */
  function EntryText(layout: Layout, e: Entry, describe: Description -> string): string
  {
    layout.braceIndent + "{\n"
    + layout.idIndent + "\"id\": \"" + e.id + "\",\n"
    + layout.fieldIndent + "\"name\": \"" + e.Name() + "\",\n"
    + layout.fieldIndent + "\"description\": " + e.opener + describe(e.description) + e.closer + "\n"
    + layout.braceIndent + "}"
  }

  /** The texts of the entries, in order. */
  function EntryTexts(layout: Layout, entries: seq<Entry>, describe: Description -> string): (r: seq<string>)
    ensures |r| == |entries|
  {
    if |entries| == 0 then [] else [EntryText(layout, entries[0], describe)] + EntryTexts(layout, entries[1..], describe)
  }

  lemma {:induction false} EntryTextsAt(layout: Layout, entries: seq<Entry>, describe: Description -> string, i: int)
    requires 0 <= i < |entries|
    ensures EntryTexts(layout, entries, describe)[i] == EntryText(layout, entries[i], describe)
  {
    if i > 0 {
      EntryTextsAt(layout, entries[1..], describe, i - 1);
    }
  }

  /** The skeleton: its opening, the entries separated by a comma and a line
      break, and its closing. */
  function SkeletonText(layout: Layout, entries: seq<Entry>, describe: Description -> string): string
  {
    layout.start + Join(EntryTexts(layout, entries, describe), ",\n") + layout.finish
  }

  /** Every entry of a skeleton is written out in it. */
  lemma SkeletonHasEntry(layout: Layout, entries: seq<Entry>, describe: Description -> string, i: int)
    requires 0 <= i < |entries|
    ensures Contains(SkeletonText(layout, entries, describe), EntryText(layout, entries[i], describe))
  {
    var texts := EntryTexts(layout, entries, describe);
    var body := Join(texts, ",\n");
    JoinContainsEach(texts, ",\n", i);
    EntryTextsAt(layout, entries, describe, i);
    ConcatParts(layout.start, body, layout.finish);
    ContainsTransitive(layout.start + body + layout.finish, body, texts[i]);
  }

  /** An entry's number is its id written with dots. */
  predicate NamedAfterId(e: Entry)
  {
    |e.number| == |e.id| && forall k :: 0 <= k < |e.id| ==> e.number[k] == if e.id[k] == '-' then '.' else e.id[k]
  }

  /** So the entry's name begins with its id written with dots, and a space. */
  lemma NameStartsWithId(e: Entry)
    requires NamedAfterId(e)
    ensures StartsWith(e.Name(), ReplaceChar(e.id, '-', '.') + " ")
  {
    assert e.number == ReplaceChar(e.id, '-', '.');
    assert e.Name()[..|e.number| + 1] == e.number + " ";
  }

  /** The entry carries the prompt SECTION_PROMPTS holds for its id. */
  predicate CarriesTableBrief(e: Entry)
  {
    e.description.TableBrief? && e.id in SectionTable && SectionTable[e.id] == e.description.template
  }

  // The strategic skeleton

  const StrategicLayout: Layout := Layout(
    "{\n            \"strategic\": [\n",
    "            ", "            ", "                ",
    "\n        ]\n    }")

  /** The entries of the strategic skeleton: 1-1 carries its section prompt,
      written after a stray `f` and followed by a comma; the rest are blank. */
  const StrategicEntries: seq<Entry> := [
    Entry("1-1", "1.1", "Strategic Context", TableBrief(Plain(StrategicContext)), "f\"", "\","),
    Entry("1-2", "1.2", "Organisational Overview", Blank, "\"", "\""),
    Entry("1-3", "1.3", "Strategic Drivers", Blank, "\"", "\""),
    Entry("1-4", "1.4", "Spending Objectives", Blank, "\"", "\""),
    Entry("1-5", "1.5", "Existing Arrangements", Blank, "\"", "\""),
    Entry("1-6", "1.6", "Business Needs", Blank, "\"", "\""),
    Entry("1-7", "1.7", "Case for Change Summary", Blank, "\"", "\""),
    Entry("1-8", "1.8", "Potential Benefits", Blank, "\"", "\""),
    Entry("1-9", "1.9", "Potential Risks", Blank, "\"", "\""),
    Entry("1-10", "1.10", "Constraints", Blank, "\"", "\""),
    Entry("1-11", "1.11", "Dependencies", Blank, "\"", "\"")
  ]

  /** The strategic entries run 1-1 to 1-11, in the order of the table's ids. */
  lemma StrategicEntryIds()
    ensures |StrategicEntries| == 11
    ensures forall i :: 0 <= i < 11 ==> StrategicEntries[i].id == SectionIds[i]
  {
  }

  /** The skeleton process_strategic_response appends to its prompt. */
  function StrategicSkeleton(): string
  {
    SkeletonText(StrategicLayout, StrategicEntries, DescriptionText)
  }

  /** Every strategic entry is named after its id. */
  lemma StrategicEntryNames(i: int)
    requires 0 <= i < |StrategicEntries|
    ensures NamedAfterId(StrategicEntries[i])
  {
  }

  /** Only 1-1 carries a section prompt, and it is the one SECTION_PROMPTS holds. */
  lemma StrategicEntryBriefs(i: int)
    requires 0 <= i < |StrategicEntries|
    ensures i == 0 ==> CarriesTableBrief(StrategicEntries[i])
    ensures i != 0 ==> StrategicEntries[i].description == Blank
  {
  }

  // The economic skeleton

  const EconomicLayout: Layout := Layout(
    "\n        {\n            \"economic1\": [\n",
    "                ", "                    ", "                    ",
    "\n            ]\n        }\n        ")

  /** The entries of the economic skeleton: 2-1, 2-2 and 2-3 carry their
      section prompts; the rest are blank, and 2-3-1 lacks its closing quote. */
  const EconomicEntries: seq<Entry> := [
    Entry("2-1", "2.1", "Purpose of Economic Case", TableBrief(Plain(PurposeOfEconomicCase)), "\"", "\""),
    Entry("2-2", "2.2", "Market Failure", TableBrief(Plain(MarketFailure)), "\"", "\""),
    Entry("2-3", "2.3", "Longlist to Shortlist using the Options Framework", TableBrief(Plain(LonglistToShortlist)), "\"", "\""),
    Entry("2-3-1", "2.3.1", "Critical Success Factors", Blank, "\"", ""),
    Entry("2-3-2", "2.3.2", "Scope Options", Blank, "\"", "\""),
    Entry("2-3-3", "2.3.3", "Solution Options", Blank, "\"", "\""),
    Entry("2-3-4", "2.3.4", "Delivery Options", Blank, "\"", "\""),
    Entry("2-3-5", "2.3.5", "Implementation", Blank, "\"", "\""),
    Entry("2-3-6", "2.3.6", "Funding Options", Blank, "\"", "\""),
    Entry("2-4", "2.4", "Options Framework Summary", Blank, "\"", "\""),
    Entry("2-5", "2.5", "Shortlist of Options", Blank, "\"", "\"")
  ]

  /** The economic entries run 2-1, 2-2, 2-3, 2-3-1 to 2-3-6, 2-4, 2-5: the
      table's ids from 2-1 on. */
  lemma EconomicEntryIds()
    ensures |EconomicEntries| == 11
    ensures forall i :: 0 <= i < 11 ==> EconomicEntries[i].id == SectionIds[11 + i]
  {
  }

  /** The skeleton process_economic_response appends to its prompt. */
  function EconomicSkeleton(): string
  {
    SkeletonText(EconomicLayout, EconomicEntries, DescriptionText)
  }

  /** Every economic entry is named after its id. */
  lemma EconomicEntryNames(i: int)
    requires 0 <= i < |EconomicEntries|
    ensures NamedAfterId(EconomicEntries[i])
  {
  }

  /** Only 2-1, 2-2 and 2-3 carry section prompts, and those are the ones
      SECTION_PROMPTS holds. */
  lemma EconomicEntryBriefs(i: int)
    requires 0 <= i < |EconomicEntries|
    ensures i < 3 ==> CarriesTableBrief(EconomicEntries[i])
    ensures i >= 3 ==> EconomicEntries[i].description == Blank
  {
  }

  // ---------------------------------------------------------------------
  // Headed fields and shared prose
  // ---------------------------------------------------------------------

  /** The f-string text of an optional field that the builders only write
      when it is truthy: a missing field has no content, like an empty one. */
  function OrEmpty(o: Option<string>): (r: string)
    ensures r == "" <==> !Present(o)
    ensures o.Some? ==> r == o.value
  {
    if o.Some? then o.value else ""
  }

  /** The block a titled field adds to a case prompt: a level-3 heading and
      the content, only when the content is not empty. */
  function HeadingBlock(field: (string, string)): (r: string)
    ensures r == "" <==> field.1 == ""
    ensures field.1 != "" ==> StartsWith(r, "### " + field.0 + "\n")
    ensures field.1 != "" ==> OccursAt(r, field.1, |field.0| + 5) && EndsWith(r, "\n\n")
    ensures field.1 != "" ==> |r| == |field.0| + |field.1| + 7
  {
    if field.1 != "" then "### " + field.0 + "\n" + field.1 + "\n\n" else ""
  }

  /** The headed fields of a case prompt: the loop over the fields' dict. */
  function HeadingsText(fields: seq<(string, string)>): string
  {
    ConcatMap(fields, HeadingBlock)
  }

  /** The heading loop, one block per field with content, in field order. */
  method Headings(fields: seq<(string, string)>) returns (prompt: string)
    ensures prompt == HeadingsText(fields)
  {
    prompt := "";
    for k := 0 to |fields|
      invariant prompt == ConcatMap(fields[..k], HeadingBlock)
    {
      var (title, content) := fields[k];
      assert fields[..k + 1][..k] == fields[..k];
      if content != "" {
        prompt := prompt + ("### " + title + "\n" + content + "\n\n");
      }
    }
    assert fields[..|fields|] == fields;
  }

  /** Two headed fields with content appear in field order, neither
      overlapping the other. */
  lemma HeadingsInOrder(fields: seq<(string, string)>, i: int, j: int)
    requires 0 <= i < j < |fields|
    ensures OccursAt(HeadingsText(fields), HeadingBlock(fields[i]), |HeadingsText(fields[..i])|)
    ensures OccursAt(HeadingsText(fields), HeadingBlock(fields[j]), |HeadingsText(fields[..j])|)
    ensures |HeadingsText(fields[..i])| + |HeadingBlock(fields[i])| <= |HeadingsText(fields[..j])|
  {
    ConcatMapOrder(fields, HeadingBlock, i, j);
  }

  /** The supplementary directive both case prompts share. */
  function SupplementaryDirective(): string
  {
    "**Crucially, " + ("for " + "every " + "section " + "below, " + "you " + "MUST " + "incorporate " + "this " + "context:**")
  }

  /** The mandate between the frameworks text and the materials text, shared by both case prompts. */
  function MandateMiddle(): string
  {
    "\n"
      + "        " + "Additionally, " + "incorporate " + "and " + "follow " + "the " + "guidance, " + "definitions, " + "and " + "context " + "from " + "the " + "following " + "supplementary " + "materials:\n"
      + "        "
  }

  /** The source's supplementary directive opens with "**" and reads "for"
      from index 13 on. */
  lemma SupplementaryDirectiveLead()
    ensures |SupplementaryDirective()| > 13 && SupplementaryDirective()[0] == '*' && SupplementaryDirective()[13] == 'f'
  {
  }

  // ---------------------------------------------------------------------
  // The frame of a case prompt
  // ---------------------------------------------------------------------

  /** The mandate paragraph of a case prompt: its opening, the frameworks
      text, the shared middle, the materials text and its closing part. */
  function Mandate(start: string, works: string, middle: string, sups: string, end: string): string
  {
    start + works + middle + sups + end
  }

  /** The mandate holds the frameworks text and the materials text. */
  lemma MandateHolds(start: string, works: string, middle: string, sups: string, end: string)
    ensures Contains(Mandate(start, works, middle, sups, end), works)
    ensures Contains(Mandate(start, works, middle, sups, end), sups)
  {
    var m := Mandate(start, works, middle, sups, end);
    OccursAtEnd(start, works);
    OccursExtend(start + works, middle, works, |start|);
    OccursExtend(start + works + middle, sups, works, |start|);
    OccursExtend(start + works + middle + sups, end, works, |start|);
    ContainsAt(m, works, |start|);
    var before := start + works + middle;
    OccursAtEnd(before, sups);
    OccursExtend(before + sups, end, sups, |before|);
    ContainsAt(m, sups, |before|);
  }

  /** Both case prompts are framed alike: the headed fields, the framework
      directive when the frameworks are cited, the supplementary directive
      when materials are supplied, then a body of paragraphs. */
  function CasePrompt(headings: string, frameworkDirective: string, supplementaryDirective: string,
                      cites: bool, supplied: bool, body: string): string
  {
    headings
    + (if cites then frameworkDirective else "")
    + (if supplied then supplementaryDirective else "")
    + body
  }

  /** The two directives can be told apart by one character, and neither
      opens with a line break. */
  predicate DistinctLeads(frameworkDirective: string, supplementaryDirective: string)
  {
    |frameworkDirective| > 13 && |supplementaryDirective| > 13
    && frameworkDirective[13] != supplementaryDirective[13]
    && frameworkDirective[0] != '\n'
    && supplementaryDirective[0] != '\n'
  }

  /** A body that opens with a line break, as both case bodies do. */
  predicate OpensWithBreak(body: string)
  {
    |body| > 0 && body[0] == '\n'
  }

  /** Right after the headings, the prompt carries the framework directive
      exactly when the frameworks are cited. */
  lemma CaseFrameworkDirectiveIff(headings: string, fd: string, sd: string, cites: bool, supplied: bool, body: string)
    requires DistinctLeads(fd, sd) && OpensWithBreak(body)
    ensures OccursAt(CasePrompt(headings, fd, sd, cites, supplied, body), fd, |headings|) <==> cites
  {
    var d := if cites then fd else "";
    var s := if supplied then sd else "";
    var a := CasePrompt(headings, fd, sd, cites, supplied, body);
    if cites {
      OccursAtEnd(headings, d);
      OccursExtend(headings + d, s, d, |headings|);
      OccursExtend(headings + d + s, body, d, |headings|);
    } else if supplied {
      EmptyUnit(headings);
      OccursAtEnd(headings + d, s);
      OccursExtend(headings + d + s, body, s, |headings|);
      if OccursAt(a, fd, |headings|) {
        OccursAgree(a, fd, s, |headings|, 13);
      }
    } else {
      EmptyUnit(headings);
      EmptyUnit(headings + d);
      OccursAtEnd(headings + d + s, body);
      if OccursAt(a, fd, |headings|) {
        OccursAgree(a, fd, body, |headings|, 0);
      }
    }
  }

  /** Right after the framework directive's place, the prompt carries the
      supplementary directive exactly when materials are supplied. */
  lemma CaseSupplementaryDirectiveIff(headings: string, fd: string, sd: string, cites: bool, supplied: bool, body: string)
    requires DistinctLeads(fd, sd) && OpensWithBreak(body)
    ensures cites ==> (OccursAt(CasePrompt(headings, fd, sd, cites, supplied, body), sd, |headings| + |fd|) <==> supplied)
    ensures !cites ==> (OccursAt(CasePrompt(headings, fd, sd, cites, supplied, body), sd, |headings|) <==> supplied)
  {
    var d := if cites then fd else "";
    var s := if supplied then sd else "";
    var a := CasePrompt(headings, fd, sd, cites, supplied, body);
    var at := |headings + d|;
    if supplied {
      OccursAtEnd(headings + d, s);
      OccursExtend(headings + d + s, body, s, at);
    } else {
      EmptyUnit(headings + d);
      OccursAtEnd(headings + d + s, body);
      if OccursAt(a, sd, at) {
        OccursAgree(a, sd, body, at, 0);
      }
    }
  }

  /** The prompt opens with the headings and holds the body. */
  lemma CasePromptParts(headings: string, fd: string, sd: string, cites: bool, supplied: bool, body: string)
    ensures StartsWith(CasePrompt(headings, fd, sd, cites, supplied, body), headings)
    ensures Contains(CasePrompt(headings, fd, sd, cites, supplied, body), body)
  {
    var d := if cites then fd else "";
    var s := if supplied then sd else "";
    StartsAtFront(headings, d);
    StartsExtend(headings + d, s, headings);
    StartsExtend(headings + d + s, body, headings);
    OccursAtEnd(headings + d + s, body);
    ContainsAt(CasePrompt(headings, fd, sd, cites, supplied, body), body, |headings + d + s|);
  }

  /** What the headings carry, the prompt carries at the same place. */
  lemma CaseHeadingAt(headings: string, fd: string, sd: string, cites: bool, supplied: bool, body: string, part: string, k: int)
    requires OccursAt(headings, part, k)
    ensures OccursAt(CasePrompt(headings, fd, sd, cites, supplied, body), part, k)
  {
    CasePromptParts(headings, fd, sd, cites, supplied, body);
    OccursInPrefix(CasePrompt(headings, fd, sd, cites, supplied, body), headings, part, k);
  }
}
