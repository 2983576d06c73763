/**
 * The tool registry of the research agent: the four tools, the schemas
 * advertised to the language model, the note ledger, report rendering and
 * the dispatch-by-name that turns every failure into an error result.
 *
 * The search provider and the web server are not modelled; a `World` gives
 * the reply each of them would send.
 */
module Tools {
  import opened Wrappers
  import opened Text
  import opened Seqs

  /** The tools in the registry's dispatch table. */
  datatype Tool = WebSearchTool | FetchWebpageTool | TakeNotesTool | CompileReportTool {

    /** The name under which the tool is registered and advertised. */
    function Name(): string {
      match this
      case WebSearchTool => "web_search"
      case FetchWebpageTool => "fetch_webpage"
      case TakeNotesTool => "take_notes"
      case CompileReportTool => "compile_report"
    }
  }

  const AllTools: seq<Tool> := [WebSearchTool, FetchWebpageTool, TakeNotesTool, CompileReportTool]

  /** The registry's lookup `name in self._tools`, as a closed variant. */
  function LookupTool(name: string): (r: Option<Tool>)
    ensures r.Some? ==> r.value.Name() == name
    ensures forall t: Tool :: t.Name() == name ==> r == Some(t)
    ensures r.None? <==> name !in ["web_search", "fetch_webpage", "take_notes", "compile_report"]
  {
    if name == "web_search" then Some(WebSearchTool)
    else if name == "fetch_webpage" then Some(FetchWebpageTool)
    else if name == "take_notes" then Some(TakeNotesTool)
    else if name == "compile_report" then Some(CompileReportTool)
    else None
  }

  // ---------------------------------------------------------------------
  // Python signatures and keyword binding
  // ---------------------------------------------------------------------

  /** A keyword parameter of a tool method, with its default value if it has one. */
  datatype Param = Param(name: string, default: Option<string>)

  /** The parameters of each tool method after `self`, in declaration order. */
  function Signature(t: Tool): seq<Param> {
    match t
    case WebSearchTool => [Param("query", None)]
    case FetchWebpageTool => [Param("url", None)]
    case TakeNotesTool => [Param("note", None), Param("source", Some("Unknown"))]
    case CompileReportTool =>
      [Param("title", None), Param("summary", None), Param("detailed_findings", None), Param("conclusion", None)]
  }

  predicate Declares(t: Tool, key: string) {
    exists i :: 0 <= i < |Signature(t)| && Signature(t)[i].name == key
  }

  /**
   * `method(**args)` binds without a TypeError: every key names a parameter
   * and every parameter without a default is given.
   */
  predicate Binds(t: Tool, args: map<string, string>) {
    && (forall k :: k in args ==> Declares(t, k))
    && (forall i :: 0 <= i < |Signature(t)| ==> Signature(t)[i].default.Some? || Signature(t)[i].name in args)
  }

  /** The value bound to each parameter: the argument given, else the default. */
  function Bind(t: Tool, args: map<string, string>): seq<string>
    requires Binds(t, args)
  {
    var sig := Signature(t);
    seq(|sig|, i requires 0 <= i < |sig| =>
      if sig[i].name in args then args[sig[i].name] else sig[i].default.value)
  }

  /** The names of the parameters that have no default, in order. */
  function RequiredNames(sig: seq<Param>): (names: seq<string>)
    ensures forall k :: k in names ==> exists p :: p in sig && p.name == k && p.default.None?
  {
    if sig == [] then []
    else (if sig[0].default.None? then [sig[0].name] else []) + RequiredNames(sig[1..])
  }

  /** Every parameter without a default is a required name. */
  lemma {:induction false} RequiredNamesComplete(sig: seq<Param>)
    ensures forall i :: 0 <= i < |sig| && sig[i].default.None? ==> sig[i].name in RequiredNames(sig)
    decreases |sig|
  {
    if sig != [] {
      RequiredNamesComplete(sig[1..]);
      assert forall i :: 1 <= i < |sig| ==> sig[i] == sig[1..][i - 1];
    }
  }

  // ---------------------------------------------------------------------
  // Schemas advertised to the model
  // ---------------------------------------------------------------------

  datatype Property = Property(name: string, propertyType: string, description: string)

  /** One entry of `get_tool_definitions`: a function tool with an object of parameters. */
  datatype ToolDefinition = ToolDefinition(name: string, description: string, properties: seq<Property>, required: seq<string>)

  // The descriptions advertised with each tool.
  const WebSearchDescription: string :=
    "Search the web for information on a given query. Returns a list of search results with titles, URLs, and snippets."
  const FetchWebpageDescription: string :=
    "Fetch and extract the main text content from a webpage URL."
  const TakeNotesDescription: string :=
    "Save important findings or notes during research. Use this to record key information you want to include in the final report."
  const CompileReportDescription: string :=
    "Compile all gathered notes and findings into a final research report. Call this when you have gathered enough information to answer the research question."

  // The descriptions advertised with each parameter.
  const QueryDescription: string := "The search query to look up"
  const UrlDescription: string := "The URL of the webpage to fetch"
  const NoteDescription: string := "The note or finding to save"
  const SourceDescription: string := "The source URL or reference for this note"
  const TitleDescription: string := "Title for the research report"
  const SummaryDescription: string := "Executive summary of the findings"
  const FindingsDescription: string := "Detailed findings and analysis"
  const ConclusionDescription: string := "Conclusion and key takeaways"

  function Definition(t: Tool): ToolDefinition {
    match t
    case WebSearchTool =>
      ToolDefinition("web_search",
        WebSearchDescription,
        [Property("query", "string", QueryDescription)],
        ["query"])
    case FetchWebpageTool =>
      ToolDefinition("fetch_webpage",
        FetchWebpageDescription,
        [Property("url", "string", UrlDescription)],
        ["url"])
    case TakeNotesTool =>
      ToolDefinition("take_notes",
        TakeNotesDescription,
        [Property("note", "string", NoteDescription),
         Property("source", "string", SourceDescription)],
        ["note"])
    case CompileReportTool =>
      ToolDefinition("compile_report",
        CompileReportDescription,
        [Property("title", "string", TitleDescription),
         Property("summary", "string", SummaryDescription),
         Property("detailed_findings", "string", FindingsDescription),
         Property("conclusion", "string", ConclusionDescription)],
        ["title", "summary", "detailed_findings", "conclusion"])
  }

  /** `get_tool_definitions`: the four schemas, in a fixed order. */
  function ToolDefinitions(): (defs: seq<ToolDefinition>)
    ensures |defs| == 4
    ensures forall i :: 0 <= i < 4 ==> defs[i].name == AllTools[i].Name()
    ensures defs[0].required == ["query"] && defs[1].required == ["url"] && defs[2].required == ["note"]
    ensures defs[3].required == ["title", "summary", "detailed_findings", "conclusion"]
  {
    [Definition(WebSearchTool), Definition(FetchWebpageTool), Definition(TakeNotesTool), Definition(CompileReportTool)]
  }

  /**
   * What is advertised is what `execute` accepts: each schema lists the
   * method's parameters in order, all strings, and requires exactly those
   * without a default.
   */
  lemma {:induction false} SchemaMatchesSignature(t: Tool)
    ensures Definition(t).name == t.Name()
    ensures |Definition(t).properties| == |Signature(t)|
    ensures forall i :: 0 <= i < |Signature(t)| ==>
      Definition(t).properties[i].name == Signature(t)[i].name && Definition(t).properties[i].propertyType == "string"
    ensures Definition(t).required == RequiredNames(Signature(t))
  {
    match t
    case WebSearchTool =>
    case FetchWebpageTool =>
    case TakeNotesTool =>
      assert RequiredNames(Signature(t)[1..]) == [];
    case CompileReportTool =>
      var sig := Signature(t);
      assert RequiredNames(sig[3..]) == ["conclusion"];
      assert RequiredNames(sig[2..]) == ["detailed_findings", "conclusion"];
      assert RequiredNames(sig[1..]) == ["summary", "detailed_findings", "conclusion"];
  }

  // ---------------------------------------------------------------------
  // Results (the JSON objects `execute` serialises)
  // ---------------------------------------------------------------------

  /** What went wrong before a tool body ran. */
  datatype ToolError =
    | UnknownTool(message: string)
    /** Python's TypeError from `method(**args)`; its text is the interpreter's. */
    | ArgumentMismatch(tool: Tool)

  datatype SearchHit = SearchHit(title: string, url: string, snippet: string)

  datatype ToolResult =
    | ErrorResult(error: ToolError)
    | SearchSucceeded(query: string, results: seq<SearchHit>, count: int)
    | SearchFailed(searchError: string, results: seq<SearchHit>)
    | FetchSucceeded(url: string, content: string, length: int)
    | FetchFailed(url: string, fetchError: string)
    | NoteSaved(message: string, totalNotes: int)
    | ReportCompiled(report: string, notesIncluded: int)
  {
    /** The truth of the result's "success" key (absent on an error result). */
    predicate Success() {
      SearchSucceeded? || FetchSucceeded? || NoteSaved? || ReportCompiled?
    }

    /** The result's "report" key, if it has one. */
    function ReportField(): Option<string> {
      if ReportCompiled? then Some(report) else None
    }
  }

  function UnknownToolMessage(name: string): string {
    "Unknown tool: " + name
  }

  // ---------------------------------------------------------------------
  // web_search: shaping the provider's records
  // ---------------------------------------------------------------------

  /** A provider record: a dictionary whose keys may be missing. */
  datatype ProviderRecord = ProviderRecord(title: Option<string>, href: Option<string>, body: Option<string>)

  /** The search provider's answer: its records in rank order, or the exception it raised. */
  datatype SearchReply = ProviderError(message: string) | ProviderRecords(records: seq<ProviderRecord>)

  /** The page fetch's answer: the extracted page text, or the exception raised. */
  datatype FetchReply = FetchError(message: string) | PageText(text: string)

  /** The replies the outside world gives: search by (query, max_results), fetch by URL. */
  datatype World = World(search: (string, int) -> SearchReply, fetch: string -> FetchReply)

  function FormatHit(r: ProviderRecord): SearchHit {
    SearchHit(r.title.GetOr(""), r.href.GetOr(""), r.body.GetOr(""))
  }

  /** The formatted results: one hit per record, in provider order, missing fields empty. */
  function FormatHits(records: seq<ProviderRecord>): (hits: seq<SearchHit>)
    ensures |hits| == |records|
    ensures forall i :: 0 <= i < |records| ==>
      && hits[i].title == records[i].title.GetOr("")
      && hits[i].url == records[i].href.GetOr("")
      && hits[i].snippet == records[i].body.GetOr("")
  {
    if records == [] then [] else [FormatHit(records[0])] + FormatHits(records[1..])
  }

  /** The dictionary `web_search` returns for a provider reply. */
  function SearchResult(query: string, reply: SearchReply): (r: ToolResult)
    ensures reply.ProviderError? ==> r == SearchFailed(reply.message, []) && !r.Success()
    ensures reply.ProviderRecords? ==>
      r.SearchSucceeded? && r.query == query && r.results == FormatHits(reply.records) && r.count == |r.results|
  {
    match reply
    case ProviderError(message) => SearchFailed(message, [])
    case ProviderRecords(records) =>
      var hits := FormatHits(records);
      SearchSucceeded(query, hits, |hits|)
  }

  // ---------------------------------------------------------------------
  // fetch_webpage: post-processing the page text
  // ---------------------------------------------------------------------

  const MaxPageLines: nat := 100
  const MaxContentLength: nat := 4000
  const TruncationMarker: string := "... [truncated]"

  /** A line the filter keeps: non-empty and stripped. */
  predicate KeptLine(line: string) {
    line != "" && IsStripped(line)
  }

  lemma KeptLinesAppend(a: seq<string>, b: seq<string>)
    requires forall k :: 0 <= k < |a| ==> KeptLine(a[k]) && NoLineBreak(a[k])
    requires forall k :: 0 <= k < |b| ==> KeptLine(b[k]) && NoLineBreak(b[k])
    ensures forall k :: 0 <= k < |a + b| ==> KeptLine((a + b)[k]) && NoLineBreak((a + b)[k])
  {
    forall k | 0 <= k < |a + b|
      ensures KeptLine((a + b)[k]) && NoLineBreak((a + b)[k])
    {
      if k < |a| {
        assert (a + b)[k] == a[k];
      } else {
        assert (a + b)[k] == b[k - |a|];
      }
    }
  }

  /** `[line.strip() for line in pieces if line.strip()]`. */
  function KeepLines(pieces: seq<string>): (lines: seq<string>)
    requires forall k :: 0 <= k < |pieces| ==> NoLineBreak(pieces[k])
    ensures |lines| <= |pieces|
    ensures forall k :: 0 <= k < |lines| ==> KeptLine(lines[k]) && NoLineBreak(lines[k])
  {
    if pieces == [] then []
    else
      var line := Strip(pieces[0]);
      StripKeepsNoLineBreak(pieces[0]);
      var head := if line != "" then [line] else [];
      var rest := KeepLines(pieces[1..]);
      KeptLinesAppend(head, rest);
      head + rest
  }

  /** The page text's non-empty stripped lines. */
  function PageLines(text: string): (lines: seq<string>)
    ensures forall k :: 0 <= k < |lines| ==> KeptLine(lines[k]) && NoLineBreak(lines[k])
  {
    KeepLines(SplitLines(text))
  }

  /** `lines[:100]`. */
  function FirstLines(lines: seq<string>): (r: seq<string>)
    ensures |r| <= MaxPageLines && |r| <= |lines| && r == lines[..|r|]
    ensures |lines| <= MaxPageLines ==> r == lines
    ensures |lines| > MaxPageLines ==> |r| == MaxPageLines
  {
    if |lines| <= MaxPageLines then lines else lines[..MaxPageLines]
  }

  /** The 4000-character cap: a longer text keeps its first 4000 characters and gets the marker. */
  function CapContent(s: string): (r: string)
    ensures |r| <= MaxContentLength + |TruncationMarker|
    ensures |s| <= MaxContentLength ==> r == s
    ensures |s| > MaxContentLength ==>
      |r| == MaxContentLength + |TruncationMarker|
      && r[..MaxContentLength] == s[..MaxContentLength] && r[MaxContentLength..] == TruncationMarker
  {
    if |s| > MaxContentLength then s[..MaxContentLength] + TruncationMarker else s
  }

  /** The "content" of a fetched page. */
  function PageContent(text: string): string {
    CapContent(Join(FirstLines(PageLines(text)), "\n"))
  }

  /** The dictionary `fetch_webpage` returns for a fetch reply. */
  function FetchResult(url: string, reply: FetchReply): (r: ToolResult)
    ensures reply.FetchError? ==> r == FetchFailed(url, reply.message) && !r.Success()
    ensures reply.PageText? ==>
      && r.FetchSucceeded? && r.url == url && r.content == PageContent(reply.text)
      && r.length == |r.content| <= MaxContentLength + |TruncationMarker|
  {
    match reply
    case FetchError(message) => FetchFailed(url, message)
    case PageText(text) =>
      var content := PageContent(text);
      FetchSucceeded(url, content, |content|)
  }

  /** The filter works piece by piece: blank pieces are dropped, the others are kept stripped. */
  lemma KeepLinesOne(piece: string)
    requires NoLineBreak(piece)
    ensures KeepLines([piece]) == if Strip(piece) == "" then [] else [Strip(piece)]
  {
  }

  /** Pieces without line breaks stay so when concatenated. */
  lemma UnbrokenAppend(a: seq<string>, b: seq<string>)
    requires forall k :: 0 <= k < |a| ==> NoLineBreak(a[k])
    requires forall k :: 0 <= k < |b| ==> NoLineBreak(b[k])
    ensures forall k :: 0 <= k < |a + b| ==> NoLineBreak((a + b)[k])
  {
    forall k | 0 <= k < |a + b|
      ensures NoLineBreak((a + b)[k])
    {
      if k < |a| {
        assert (a + b)[k] == a[k];
      } else {
        assert (a + b)[k] == b[k - |a|];
      }
    }
  }

  /** Filtering a concatenation filters each part, in order. */
  lemma {:induction false} KeepLinesConcat(a: seq<string>, b: seq<string>)
    requires forall k :: 0 <= k < |a| ==> NoLineBreak(a[k])
    requires forall k :: 0 <= k < |b| ==> NoLineBreak(b[k])
    ensures forall k :: 0 <= k < |a + b| ==> NoLineBreak((a + b)[k])
    ensures KeepLines(a + b) == KeepLines(a) + KeepLines(b)
    decreases |a|
  {
    UnbrokenAppend(a, b);
    if a == [] {
      assert a + b == b;
    } else {
      AppendDrop(a, b, 1);
      assert (a + b)[0] == a[0];
      KeepLinesConcat(a[1..], b);
    }
  }

  /** The page lines of text written as lines joined by "\n" are those lines, filtered. */
  lemma PageLinesOfJoin(lines: seq<string>)
    requires forall k :: 0 <= k < |lines| ==> NoLineBreak(lines[k])
    ensures PageLines(Join(lines, "\n")) == KeepLines(lines)
  {
    if lines == [] {
      assert SplitLines("") == [""];
      assert Strip("") == "";
    } else {
      SplitLinesOfJoin(lines);
    }
  }

  /** Stripped non-empty lines come back unchanged from the line filter. */
  lemma {:induction false} KeepLinesOfKept(lines: seq<string>)
    requires forall k :: 0 <= k < |lines| ==> KeptLine(lines[k]) && NoLineBreak(lines[k])
    ensures KeepLines(lines) == lines
    decreases |lines|
  {
    if lines != [] {
      StripOfStripped(lines[0]);
      KeepLinesOfKept(lines[1..]);
    }
  }

  /**
   * Content that was not truncated is exactly the kept lines joined by
   * "\n": processing it again gives the same lines back.
   */
  lemma {:induction false} PageContentLines(text: string)
    requires |Join(FirstLines(PageLines(text)), "\n")| <= MaxContentLength
    ensures var kept := FirstLines(PageLines(text));
      PageLines(PageContent(text)) == kept
  {
    var kept := FirstLines(PageLines(text));
    if kept == [] {
      assert PageContent(text) == "";
      assert SplitLines("") == [""];
      assert Strip("") == "";
    } else {
      assert forall k :: 0 <= k < |kept| ==> kept[k] == PageLines(text)[k];
      SplitLinesOfJoin(kept);
      KeepLinesOfKept(kept);
    }
  }

  /** Each kept line appears in the joined content, in page order. */
  lemma {:induction false} PageContentHasLines(text: string, k: nat)
    requires k < |FirstLines(PageLines(text))|
    requires |Join(FirstLines(PageLines(text)), "\n")| <= MaxContentLength
    ensures var kept := FirstLines(PageLines(text));
      OccursAt(kept[k], PageContent(text), JoinOffset(kept, "\n", k))
      && forall j :: 0 <= j < k ==> JoinOffset(kept, "\n", j) < JoinOffset(kept, "\n", k)
  {
    JoinContainsPart(FirstLines(PageLines(text)), "\n", k);
  }

  // ---------------------------------------------------------------------
  // take_notes and compile_report
  // ---------------------------------------------------------------------

  /** The ledger entry `take_notes` appends. */
  function NoteEntry(note: string, source: string): string {
    "[Source: " + source + "] " + note
  }

  /** `'=' * 60` and `'-' * 40`. */
  const ReportRule: string := "============================================================"
  const SectionRule: string := "----------------------------------------"

  // The fixed text between the report's fields.
  const ReportOpening: string := "\n" + ReportRule + "\nRESEARCH REPORT: "
  const SummaryBanner: string := "\n" + ReportRule + "\n\nEXECUTIVE SUMMARY\n" + SectionRule + "\n"
  const FindingsBanner: string := "\n\nDETAILED FINDINGS\n" + SectionRule + "\n"
  const ConclusionBanner: string := "\n\nCONCLUSION\n" + SectionRule + "\n"
  const NotesBanner: string := "\n\nRESEARCH NOTES\n" + SectionRule + "\n"

  /** The report up to and including the "RESEARCH NOTES" banner. */
  function ReportHeader(title: string, summary: string, findings: string, conclusion: string): string {
    ReportOpening + title + SummaryBanner + summary + FindingsBanner + findings
    + ConclusionBanner + conclusion + NotesBanner
  }

  /** The line for the `i`-th note, counting from 1. */
  function NoteLine(i: nat, note: string): (line: string)
    ensures |line| > 0
  {
    NatToString(i) + ". " + note + "\n"
  }

  /** The numbered note lines for a ledger, in ledger order. */
  function NumberedNotes(notes: seq<string>): string
    decreases |notes|
  {
    if notes == [] then ""
    else NumberedNotes(notes[..|notes| - 1]) + NoteLine(|notes|, notes[|notes| - 1])
  }

  function ReportFooter(): string {
    "\n" + ReportRule + "\n"
  }

  /** The report `compile_report` renders from its four fields and the ledger. */
  function RenderReport(title: string, summary: string, findings: string, conclusion: string, notes: seq<string>): string {
    ReportHeader(title, summary, findings, conclusion) + NumberedNotes(notes) + ReportFooter()
  }

  /** One more note adds its numbered line at the end. */
  lemma NumberedNotesStep(notes: seq<string>, i: nat)
    requires i < |notes|
    ensures NumberedNotes(notes[..i + 1]) == NumberedNotes(notes[..i]) + NoteLine(i + 1, notes[i])
  {
    assert notes[..i + 1][..i] == notes[..i];
  }

  /** The ledger's first `k` note lines are a prefix of all its note lines. */
  lemma {:induction false} NumberedNotesPrefix(notes: seq<string>, k: nat)
    requires k <= |notes|
    ensures NumberedNotes(notes[..k]) <= NumberedNotes(notes)
    decreases |notes| - k
  {
    if k < |notes| {
      NumberedNotesPrefix(notes, k + 1);
      assert notes[..k + 1][..k] == notes[..k];
    } else {
      assert notes[..k] == notes;
    }
  }

  /** Where the `k`-th note line starts among the note lines. */
  function NoteOffset(notes: seq<string>, k: nat): nat
    requires k <= |notes|
  {
    |NumberedNotes(notes[..k])|
  }

  /** Later notes start later: every note line is non-empty. */
  lemma {:induction false} NoteOffsetsIncrease(notes: seq<string>, j: nat, k: nat)
    requires j < k <= |notes|
    ensures NoteOffset(notes, j) < NoteOffset(notes, k)
    decreases k
  {
    NumberedNotesStep(notes, k - 1);
    if j < k - 1 {
      NoteOffsetsIncrease(notes, j, k - 1);
    }
  }

  /**
   * The line `(k+1) + ". " + notes[k]` is in the note lines at its offset,
   * after the lines of all earlier notes.
   */
  lemma {:induction false} NoteListed(notes: seq<string>, k: nat)
    requires k < |notes|
    ensures OccursAt(NoteLine(k + 1, notes[k]), NumberedNotes(notes), NoteOffset(notes, k))
    ensures forall j :: 0 <= j < k ==> NoteOffset(notes, j) < NoteOffset(notes, k)
  {
    var line := NoteLine(k + 1, notes[k]);
    var before := NumberedNotes(notes[..k]);
    NumberedNotesPrefix(notes, k + 1);
    NumberedNotesStep(notes, k);
    assert OccursAt(line, line, 0);
    OccursAfter(line, line, 0, before);
    OccursInLonger(line, before + line, |before|, NumberedNotes(notes));
    forall j | 0 <= j < k ensures NoteOffset(notes, j) < NoteOffset(notes, k) {
      NoteOffsetsIncrease(notes, j, k);
    }
  }

  /** `needle` occurs somewhere in `hay`. */
  predicate Contains(hay: string, needle: string) {
    exists at: nat :: at <= |hay| && OccursAt(needle, hay, at)
  }

  /** Four fields separated by fixed pieces all occur in the text they make up. */
  lemma FieldsOccur(
    b0: string, f1: string, b1: string, f2: string, b2: string, f3: string, b3: string, f4: string,
    b4: string, t1: string, t2: string)
    ensures var text := b0 + f1 + b1 + f2 + b2 + f3 + b3 + f4 + b4 + t1 + t2;
      Contains(text, f1) && Contains(text, f2) && Contains(text, f3) && Contains(text, f4)
  {
    FirstFieldOccurs(b0, f1, b1, f2, b2, f3, b3, f4, b4, t1, t2);
    SecondFieldOccurs(b0, f1, b1, f2, b2, f3, b3, f4, b4, t1, t2);
    ThirdFieldOccurs(b0, f1, b1, f2, b2, f3, b3, f4, b4, t1, t2);
    FourthFieldOccurs(b0, f1, b1, f2, b2, f3, b3, f4, b4, t1, t2);
  }

  /** The first field sits right after the opening piece. */
  lemma FirstFieldOccurs(
    b0: string, f1: string, b1: string, f2: string, b2: string, f3: string, b3: string, f4: string,
    b4: string, t1: string, t2: string)
    ensures OccursAt(f1, b0 + f1 + b1 + f2 + b2 + f3 + b3 + f4 + b4 + t1 + t2, |b0|)
  {
    assert OccursAt(f1, f1, 0);
    OccursAfter(f1, f1, 0, b0);
    OccursInExtension3(f1, b0 + f1, |b0|, b1, f2, b2);
    OccursInExtension3(f1, b0 + f1 + b1 + f2 + b2, |b0|, f3, b3, f4);
    OccursInExtension3(f1, b0 + f1 + b1 + f2 + b2 + f3 + b3 + f4, |b0|, b4, t1, t2);
  }

  /** The second field sits after the first and its banner. */
  lemma SecondFieldOccurs(
    b0: string, f1: string, b1: string, f2: string, b2: string, f3: string, b3: string, f4: string,
    b4: string, t1: string, t2: string)
    ensures OccursAt(f2, b0 + f1 + b1 + f2 + b2 + f3 + b3 + f4 + b4 + t1 + t2, |b0 + f1 + b1|)
  {
    assert OccursAt(f2, f2, 0);
    OccursAfter(f2, f2, 0, b0 + f1 + b1);
    OccursInExtension3(f2, b0 + f1 + b1 + f2, |b0 + f1 + b1|, b2, f3, b3);
    OccursInExtension3(f2, b0 + f1 + b1 + f2 + b2 + f3 + b3, |b0 + f1 + b1|, f4, b4, t1);
    OccursInExtension(f2, b0 + f1 + b1 + f2 + b2 + f3 + b3 + f4 + b4 + t1, |b0 + f1 + b1|, t2);
  }

  /** The third field sits after the second and its banner. */
  lemma ThirdFieldOccurs(
    b0: string, f1: string, b1: string, f2: string, b2: string, f3: string, b3: string, f4: string,
    b4: string, t1: string, t2: string)
    ensures OccursAt(f3, b0 + f1 + b1 + f2 + b2 + f3 + b3 + f4 + b4 + t1 + t2, |b0 + f1 + b1 + f2 + b2|)
  {
    assert OccursAt(f3, f3, 0);
    OccursAfter(f3, f3, 0, b0 + f1 + b1 + f2 + b2);
    OccursInExtension3(f3, b0 + f1 + b1 + f2 + b2 + f3, |b0 + f1 + b1 + f2 + b2|, b3, f4, b4);
    OccursInExtension(f3, b0 + f1 + b1 + f2 + b2 + f3 + b3 + f4 + b4, |b0 + f1 + b1 + f2 + b2|, t1);
    OccursInExtension(f3, b0 + f1 + b1 + f2 + b2 + f3 + b3 + f4 + b4 + t1, |b0 + f1 + b1 + f2 + b2|, t2);
  }

  /** The fourth field sits after the third and its banner. */
  lemma FourthFieldOccurs(
    b0: string, f1: string, b1: string, f2: string, b2: string, f3: string, b3: string, f4: string,
    b4: string, t1: string, t2: string)
    ensures OccursAt(f4, b0 + f1 + b1 + f2 + b2 + f3 + b3 + f4 + b4 + t1 + t2, |b0 + f1 + b1 + f2 + b2 + f3 + b3|)
  {
    assert OccursAt(f4, f4, 0);
    OccursAfter(f4, f4, 0, b0 + f1 + b1 + f2 + b2 + f3 + b3);
    OccursInExtension3(f4, b0 + f1 + b1 + f2 + b2 + f3 + b3 + f4, |b0 + f1 + b1 + f2 + b2 + f3 + b3|, b4, t1, t2);
  }

  /** The compiled report holds its title, summary, findings and conclusion. */
  lemma {:induction false} ReportHasFields(title: string, summary: string, findings: string, conclusion: string, notes: seq<string>)
    ensures var report := RenderReport(title, summary, findings, conclusion, notes);
      Contains(report, title) && Contains(report, summary) && Contains(report, findings) && Contains(report, conclusion)
  {
    FieldsOccur(ReportOpening, title, SummaryBanner, summary, FindingsBanner, findings, ConclusionBanner, conclusion,
      NotesBanner, NumberedNotes(notes), ReportFooter());
  }

  /** Every ledger note is a numbered line of the compiled report, in ledger order. */
  lemma {:induction false} ReportListsNotes(title: string, summary: string, findings: string, conclusion: string, notes: seq<string>, k: nat)
    requires k < |notes|
    ensures var header := ReportHeader(title, summary, findings, conclusion);
      && OccursAt(NoteLine(k + 1, notes[k]), RenderReport(title, summary, findings, conclusion, notes), |header| + NoteOffset(notes, k))
      && forall j :: 0 <= j < k ==> NoteOffset(notes, j) < NoteOffset(notes, k)
  {
    var header := ReportHeader(title, summary, findings, conclusion);
    var lines := NumberedNotes(notes);
    NoteListed(notes, k);
    OccursInside(NoteLine(k + 1, notes[k]), lines, NoteOffset(notes, k), header, ReportFooter());
  }

  // ---------------------------------------------------------------------
  // execute: dispatch by name
  // ---------------------------------------------------------------------

  /** A tool call's result together with the ledger it leaves. */
  datatype Effect = Effect(result: ToolResult, notes: seq<string>)

  /**
   * `execute(name, args)` against a ledger: an unknown name or arguments the
   * method cannot bind give an error result; otherwise the tool runs. The
   * ledger only ever grows, by one entry, on a saved note.
   */
  function Dispatch(notes: seq<string>, maxResults: int, name: string, args: map<string, string>, world: World): (e: Effect)
    ensures e.result.ErrorResult? <==> LookupTool(name).None? || !Binds(LookupTool(name).value, args)
    ensures e.result.ErrorResult? ==> e.notes == notes
    ensures notes <= e.notes && |e.notes| <= |notes| + 1
    ensures |e.notes| == |notes| + 1 <==> e.result.NoteSaved?
    ensures name == CompileReportTool.Name() ==> e.result.ErrorResult? || e.result.ReportCompiled?
    ensures e.result.ReportCompiled? ==> name == CompileReportTool.Name() && e.notes == notes && e.result.notesIncluded == |notes|
  {
    match LookupTool(name)
    case None => Effect(ErrorResult(UnknownTool(UnknownToolMessage(name))), notes)
    case Some(t) =>
      if !Binds(t, args) then Effect(ErrorResult(ArgumentMismatch(t)), notes)
      else
        var values := Bind(t, args);
        match t
        case WebSearchTool => Effect(SearchResult(values[0], world.search(values[0], maxResults)), notes)
        case FetchWebpageTool => Effect(FetchResult(values[0], world.fetch(values[0])), notes)
        case TakeNotesTool =>
          var ledger := notes + [NoteEntry(values[0], values[1])];
          Effect(NoteSaved("Note saved successfully", |ledger|), ledger)
        case CompileReportTool =>
          Effect(ReportCompiled(RenderReport(values[0], values[1], values[2], values[3], notes), |notes|), notes)
  }

  /** An unknown name yields "Unknown tool: " + name and leaves the ledger alone. */
  lemma UnknownToolIsError(notes: seq<string>, maxResults: int, name: string, args: map<string, string>, world: World)
    requires name !in ["web_search", "fetch_webpage", "take_notes", "compile_report"]
    ensures Dispatch(notes, maxResults, name, args, world)
      == Effect(ErrorResult(UnknownTool("Unknown tool: " + name)), notes)
  {
  }

  /** Where a required name sits in the signature. */
  lemma RequiredIndex(sig: seq<Param>, k: string) returns (i: nat)
    requires k in RequiredNames(sig)
    ensures i < |sig| && sig[i].name == k && sig[i].default.None?
  {
    var p :| p in sig && p.name == k && p.default.None?;
    i :| 0 <= i < |sig| && sig[i] == p;
  }

  /** A key the method does not take, or a missing parameter without a default, defeats binding. */
  lemma {:induction false} UnboundArguments(t: Tool, args: map<string, string>)
    requires (exists k :: k in args && !Declares(t, k))
      || (exists k :: k in RequiredNames(Signature(t)) && k !in args)
    ensures !Binds(t, args)
  {
    var sig := Signature(t);
    if exists k :: k in RequiredNames(sig) && k !in args {
      var k :| k in RequiredNames(sig) && k !in args;
      var i := RequiredIndex(sig, k);
      assert !(sig[i].default.Some? || sig[i].name in args);
    }
  }

  /** A missing required argument, or a key the method does not take, is an error, never a crash. */
  lemma {:induction false} BadArgumentsAreErrors(notes: seq<string>, maxResults: int, t: Tool, args: map<string, string>, world: World)
    requires (exists k :: k in args && !Declares(t, k))
      || (exists k :: k in Definition(t).required && k !in args)
    ensures Dispatch(notes, maxResults, t.Name(), args, world) == Effect(ErrorResult(ArgumentMismatch(t)), notes)
  {
    SchemaMatchesSignature(t);
    UnboundArguments(t, args);
    assert LookupTool(t.Name()) == Some(t);
  }

  /** `web_search` through `execute` with its query: the search for that query, the ledger unchanged. */
  lemma {:induction false} WebSearchRuns(notes: seq<string>, maxResults: int, args: map<string, string>, world: World)
    requires args.Keys == {"query"}
    ensures Dispatch(notes, maxResults, "web_search", args, world)
      == Effect(SearchResult(args["query"], world.search(args["query"], maxResults)), notes)
  {
    assert Binds(WebSearchTool, args) by {
      forall k | k in args ensures Declares(WebSearchTool, k) {
        assert Signature(WebSearchTool)[0].name == k;
      }
    }
  }

  /** `fetch_webpage` through `execute` with its url: the fetch of that url, the ledger unchanged. */
  lemma {:induction false} FetchRuns(notes: seq<string>, maxResults: int, args: map<string, string>, world: World)
    requires args.Keys == {"url"}
    ensures Dispatch(notes, maxResults, "fetch_webpage", args, world)
      == Effect(FetchResult(args["url"], world.fetch(args["url"])), notes)
  {
    assert Binds(FetchWebpageTool, args) by {
      forall k | k in args ensures Declares(FetchWebpageTool, k) {
        assert Signature(FetchWebpageTool)[0].name == k;
      }
    }
  }

  /**
   * `take_notes` through `execute`: one entry "[Source: s] n" appended at the
   * end, `s` defaulting to "Unknown", and the running count returned.
   */
  lemma {:induction false} TakeNotesAppends(notes: seq<string>, maxResults: int, args: map<string, string>, world: World)
    requires "note" in args
    requires forall k :: k in args ==> k == "note" || k == "source"
    ensures var e := Dispatch(notes, maxResults, "take_notes", args, world);
      var source := if "source" in args then args["source"] else "Unknown";
      && e.notes == notes + ["[Source: " + source + "] " + args["note"]]
      && e.result == NoteSaved("Note saved successfully", |e.notes|)
  {
    assert Binds(TakeNotesTool, args) by {
      forall k | k in args ensures Declares(TakeNotesTool, k) {
        if k == "note" { assert Signature(TakeNotesTool)[0].name == k; }
        else { assert Signature(TakeNotesTool)[1].name == k; }
      }
    }
  }

  /**
   * `compile_report` through `execute` with its four fields: success, the
   * whole ledger included, the ledger unchanged.
   */
  lemma {:induction false} CompileReportSucceeds(notes: seq<string>, maxResults: int, args: map<string, string>, world: World)
    requires args.Keys == {"title", "summary", "detailed_findings", "conclusion"}
    ensures var e := Dispatch(notes, maxResults, "compile_report", args, world);
      && e.notes == notes
      && e.result == ReportCompiled(
           RenderReport(args["title"], args["summary"], args["detailed_findings"], args["conclusion"], notes), |notes|)
      && e.result.Success() && e.result.notesIncluded == |notes|
  {
    var sig := Signature(CompileReportTool);
    assert Binds(CompileReportTool, args) by {
      forall k | k in args ensures Declares(CompileReportTool, k) {
        if k == "title" { assert sig[0].name == k; }
        else if k == "summary" { assert sig[1].name == k; }
        else if k == "detailed_findings" { assert sig[2].name == k; }
        else { assert sig[3].name == k; }
      }
    }
    assert LookupTool("compile_report") == Some(CompileReportTool);
    var values := Bind(CompileReportTool, args);
    assert values[0] == args["title"] && values[1] == args["summary"];
    assert values[2] == args["detailed_findings"] && values[3] == args["conclusion"];
  }

  // ---------------------------------------------------------------------
  // The registry object
  // ---------------------------------------------------------------------

  /** `ToolRegistry`: the note ledger and the tools that use it. */
  class ToolRegistry {
    const maxSearchResults: int
    var notes: seq<string>

    constructor (maxSearchResults: int)
      ensures this.maxSearchResults == maxSearchResults && notes == []
    {
      this.maxSearchResults := maxSearchResults;
      notes := [];
    }

    /** `execute`: dispatch by name; the result and new ledger are those of `Dispatch`. */
    method Execute(name: string, args: map<string, string>, world: World) returns (r: ToolResult)
      modifies this
      ensures Effect(r, notes) == Dispatch(old(notes), maxSearchResults, name, args, world)
    {
      var tool := LookupTool(name);
      if tool.None? {
        return ErrorResult(UnknownTool(UnknownToolMessage(name)));
      }
      var t := tool.value;
      if !Binds(t, args) {
        return ErrorResult(ArgumentMismatch(t));
      }
      var values := Bind(t, args);
      match t
      case WebSearchTool =>
        r := WebSearch(values[0], world);
      case FetchWebpageTool =>
        r := FetchResult(values[0], world.fetch(values[0]));
      case TakeNotesTool =>
        r := TakeNotes(values[0], values[1]);
      case CompileReportTool =>
        r := CompileReport(values[0], values[1], values[2], values[3]);
    }

    /** `web_search`: the provider's records formatted one by one, in order. */
    method WebSearch(query: string, world: World) returns (r: ToolResult)
      ensures r == SearchResult(query, world.search(query, maxSearchResults))
      ensures r.SearchSucceeded? ==> r.count == |r.results| && r.Success()
      ensures !r.Success() ==> r.SearchFailed? && r.results == []
    {
      var reply := world.search(query, maxSearchResults);
      match reply
      case ProviderError(message) =>
        r := SearchFailed(message, []);
      case ProviderRecords(records) =>
        var formatted: seq<SearchHit> := [];
        for i := 0 to |records|
          invariant |formatted| == i
          invariant forall j :: 0 <= j < i ==> formatted[j] == FormatHit(records[j])
        {
          formatted := formatted + [FormatHit(records[i])];
        }
        r := SearchSucceeded(query, formatted, |formatted|);
    }

    /** `take_notes`: append one entry to the ledger and report the count. */
    method TakeNotes(note: string, source: string) returns (r: ToolResult)
      modifies this
      ensures notes == old(notes) + [NoteEntry(note, source)]
      ensures r == NoteSaved("Note saved successfully", |notes|)
    {
      notes := notes + [NoteEntry(note, source)];
      r := NoteSaved("Note saved successfully", |notes|);
    }

    /** `compile_report`: the header, then one numbered line per note, then the footer. */
    method CompileReport(title: string, summary: string, findings: string, conclusion: string) returns (r: ToolResult)
      ensures r == ReportCompiled(RenderReport(title, summary, findings, conclusion, notes), |notes|)
      ensures r.Success() && r.notesIncluded == |notes|
    {
      ghost var header := ReportHeader(title, summary, findings, conclusion);
      var report := ReportHeader(title, summary, findings, conclusion);
      assert report == header + NumberedNotes(notes[..0]);
      for i := 0 to |notes|
        invariant report == header + NumberedNotes(notes[..i])
      {
        NumberedNotesStep(notes, i);
        AppendAssociates(header, NumberedNotes(notes[..i]), NoteLine(i + 1, notes[i]));
        report := report + NoteLine(i + 1, notes[i]);
      }
      assert notes[..|notes|] == notes;
      report := report + ReportFooter();
      r := ReportCompiled(report, |notes|);
    }

    /** `get_notes`: a copy of the ledger. */
    method GetNotes() returns (r: seq<string>)
      ensures r == notes
    {
      r := notes;
    }

    /** `clear_notes`: empty the ledger. */
    method ClearNotes()
      modifies this
      ensures notes == []
    {
      notes := [];
    }
  }
}
