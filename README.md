# Smart research agent: a Dafny model of its tool registry and research loop

The system is a command-line research assistant. A language model drives its
workflow. The model receives a system prompt and a research topic. In each
iteration it answers with text and, optionally, tool calls: `web_search`,
`fetch_webpage`, `take_notes` and `compile_report`. The agent runs every call
through a `ToolRegistry` and appends each result to the transcript as a tool
message. It stops when a report has been compiled, when the model answers
without tool calls, when the model call fails, or when the iteration budget
runs out. Whenever the counter has reached the budget and no report exists,
it falls back to a partial report built from the saved notes. That includes
a model error or a reply without tool calls on the last iteration.

The project models:

- `Text`: the Python string built-ins the core relies on. These are
  `str.isspace`, `str.strip`, `str.splitlines`, `sep.join` and `str(n)` for
  integers.
- `Tools`: the registry of `src/tools.py`, covering:
  - the four tool schemas and the Python signatures they describe;
  - `execute` with its unknown-tool and bad-argument errors;
  - how search hits and page text are shaped;
  - the notes ledger;
  - the text of the compiled report.

  The registry is a `class ToolRegistry` whose `notes` field its methods
  update. `Execute` is proved against the function `Dispatch`, which says
  what `execute` returns and what it does to the ledger. `WebSearch`,
  `TakeNotes` and `CompileReport` are proved against `SearchResult`,
  `NoteEntry` and `RenderReport`, the functions `Dispatch` uses for those
  tools.
- `Agent`: `ResearchAgent.research` and `_process_tool_calls` from
  `src/agent.py`:
  - `ProcessCalls`, `Turn`, `Loop` and `Conclude` are specification functions
    for one turn's tool calls, one loop iteration, the bounded loop and the
    fallback.
  - `class ResearchAgent` has methods `ProcessToolCalls`, `TakeTurn` and
    `Research`. Each is proved equal to those functions. Lemmas then state
    what a session guarantees:
    - the transcript stays well formed;
    - the counter stays within the budget;
    - the returned report is a compiled report found in the transcript, or
      the partial report, or the "no report" message.

The language model and the network are parameters (`Environment`):

- the model is a function of the iteration number and the transcript;
- the network is a function of the iteration number and the call's position,
  giving that call's search and fetch replies (`World`).

A `compile_report` result is "captured" when the agent copies its "report"
field into `self._report`. In the code this happens whenever the call is named
`compile_report` and its result's "success" key is true. A capture ends the
loop only after the rest of that turn's calls have run and been answered.

## Model

| member | source | states |
|---|---|---|
| Tools.Signature | src/tools.py:124-195 | the four methods' parameters in order, with `source` defaulting to "Unknown"; `SchemaMatchesSignature` states that the schemas describe them |
| Tools.Binds | src/tools.py:119 | whether `f(**arguments)` binds; `UnboundArguments` states when it does not |
| Tools.Bind | src/tools.py:119 | the values the parameters receive, defaults filled in; `TakeNotesAppends`, `WebSearchRuns`, `FetchRuns` and `CompileReportSucceeds` state what the bound call does |
| Tools.LookupTool | src/tools.py:16-21 | the registry knows exactly the four tool names, each mapped to the tool of that name |
| Tools.ToolDefinitions | src/tools.py:24-111 | four definitions in registry order, one per tool, with required parameters `query`, `url`, `note` and the four report fields |
| Tools.Definition | src/tools.py:27-110 | one tool's schema, with the source's name, descriptions, property types and required list; `SchemaMatchesSignature` states that it describes exactly the method's parameters |
| Tools.SchemaMatchesSignature | src/tools.py:24-111 | each schema lists exactly the Python method's parameters, in order, and its `required` list is exactly those without a default |
| Tools.RequiredNames | src/tools.py:24-111 | every required name belongs to a parameter with no default |
| Tools.RequiredNamesComplete | src/tools.py:24-111 | conversely, every parameter without a default is a required name |
| Tools.Dispatch | src/tools.py:113-122 | `execute` errors exactly for an unknown name or arguments the signature cannot bind, and an error leaves the ledger alone; the ledger only grows, and by one exactly when a note is saved; `compile_report` either fails or yields a compiled report of the whole, unchanged ledger |
| Tools.UnknownToolMessage | src/tools.py:116 | the text `"Unknown tool: " + name`; `UnknownToolIsError` states that `execute` returns it for every name outside the four |
| Tools.UnknownToolIsError | src/tools.py:115-116 | a name outside the four gives `{"error": "Unknown tool: <name>"}` and leaves the ledger unchanged |
| Tools.UnboundArguments | src/tools.py:119 | an undeclared keyword or a missing required parameter makes the call `f(**arguments)` fail to bind |
| Tools.BadArgumentsAreErrors | src/tools.py:119-122 | arguments with an undeclared key, or without a schema-required key, give an error result and leave the ledger unchanged |
| Tools.WebSearchRuns | src/tools.py:119-120 | `web_search` through `execute` with its query runs the search for that query with the configured cap and returns its shaped result, the ledger unchanged |
| Tools.FetchRuns | src/tools.py:119-120 | `fetch_webpage` through `execute` with its url fetches that url and returns its shaped result, the ledger unchanged |
| Tools.TakeNotesAppends | src/tools.py:179-187 | `take_notes` through `execute` appends `[Source: s] note`, with `s` defaulting to "Unknown", and reports the new ledger size |
| Tools.CompileReportSucceeds | src/tools.py:189-226 | `compile_report` through `execute` with its four fields succeeds, renders those fields and the ledger, includes every note, and leaves the ledger unchanged |
| Tools.FormatHit | src/tools.py:133-137 | one provider record as a hit; `FormatHits` states that title, url and snippet come from `title`, `href` and `body`, each defaulting to "" |
| Tools.FormatHits | src/tools.py:131-137 | one hit per provider record, in order, with title, url and snippet taken from `title`, `href` and `body`, each defaulting to "" |
| Tools.SearchResult | src/tools.py:139-146 | a provider error gives a failure with no results; otherwise success with the query, the formatted hits and their count |
| Tools.KeepLines | src/tools.py:164 | the filter keeps at most the lines it was given, each stripped, non-empty and free of line breaks |
| Tools.KeepLinesOne | src/tools.py:164 | a single piece is dropped when it strips to "" and is otherwise kept as its stripped form |
| Tools.KeepLinesConcat | src/tools.py:164 | filtering pieces `a + b` gives the kept lines of `a` followed by those of `b`: with `KeepLinesOne`, the kept lines are exactly the non-blank pieces, stripped, in order |
| Tools.PageLinesOfJoin | src/tools.py:163-164 | for text made of lines joined by "\n", the page lines are exactly those lines filtered, including no lines and empty text |
| Tools.PageLines | src/tools.py:163-164 | every kept page line is stripped, non-empty and free of line breaks |
| Tools.FirstLines | src/tools.py:165 | `lines[:100]`: a prefix of the lines, all of them when there are no more than 100, exactly 100 otherwise |
| Tools.CapContent | src/tools.py:167-168 | content up to 4000 characters is kept as is; longer content is its first 4000 characters followed by "... [truncated]" |
| Tools.FetchResult | src/tools.py:170-177 | a fetch error gives a failure naming the url; otherwise success with the url and `PageContent` of the page text (the first 100 non-blank stripped lines joined by "\n", capped), whose reported length is its length and is bounded |
| Tools.PageContent | src/tools.py:163-168 | the "content" of a fetched page; `PageContentLines`, `PageContentHasLines` and `CapContent` state what it holds |
| Tools.KeepLinesOfKept | src/tools.py:164 | the line filter is idempotent on lines it already kept |
| Tools.PageContentLines | src/tools.py:163-165 | untruncated page content splits back into exactly the lines that were kept, including when none were |
| Tools.PageContentHasLines | src/tools.py:165 | each kept line occurs in the page content at its join offset, in page order |
| Tools.NoteLine | src/tools.py:218 | a numbered note line is never empty |
| Tools.NumberedNotes | src/tools.py:217-218 | the numbered note lines; `NumberedNotesStep` and `NoteListed` state what they hold |
| Tools.NoteEntry | src/tools.py:181 | the ledger entry `[Source: s] note`; `TakeNotesAppends` and `ToolRegistry.TakeNotes` state that it is appended |
| Tools.ReportHeader | src/tools.py:197-216 | the report up to the "RESEARCH NOTES" banner; `ReportHasFields` states that the four fields occur in it, and `ReportListsNotes` that the numbered notes follow it |
| Tools.ReportFooter | src/tools.py:220 | the closing rule; `ReportListsNotes` places every note line before it, and `ToolRegistry.CompileReport` is proved to append it after the note loop |
| Tools.RenderReport | src/tools.py:197-220 | the compiled report's text; `ReportHasFields` and `ReportListsNotes` state what it contains, and `ToolRegistry.CompileReport` is proved equal to it |
| Tools.NumberedNotesStep | src/tools.py:217-218 | the note loop appends line `i+1` for note `i` to what it has built so far |
| Tools.NumberedNotesPrefix | src/tools.py:217-218 | the lines for a prefix of the ledger are a prefix of the lines for the whole ledger |
| Tools.NoteOffsetsIncrease | src/tools.py:217-218 | later notes start at strictly later offsets in the notes section |
| Tools.NoteListed | src/tools.py:217-218 | note `k` appears as `k+1. note` at its offset, after every earlier note |
| Tools.ReportHasFields | src/tools.py:197-216 | the compiled report contains the title, summary, findings and conclusion |
| Tools.ReportListsNotes | src/tools.py:197-220 | every ledger note is a numbered line of the compiled report, in ledger order, after the header |
| Tools.ToolRegistry.constructor | src/tools.py:14-22 | a new registry keeps the configured result cap and starts with an empty ledger |
| Tools.ToolRegistry.Execute | src/tools.py:113-122 | the result and the new ledger are those of `Dispatch` on the old ledger |
| Tools.ToolRegistry.WebSearch | src/tools.py:124-146 | the result is `SearchResult` of the provider's reply for the query and the cap; success carries a count equal to the number of hits, and failure carries no results |
| Tools.ToolRegistry.TakeNotes | src/tools.py:179-187 | the ledger gains exactly the formatted entry at its end, and the result reports the new size |
| Tools.ToolRegistry.CompileReport | src/tools.py:189-226 | the loop over the ledger builds exactly `RenderReport` of the fields and the ledger, counting every note, with the ledger unchanged |
| Tools.ToolRegistry.GetNotes | src/tools.py:228-230 | returns the ledger |
| Tools.ToolRegistry.ClearNotes | src/tools.py:232-234 | empties the ledger |
| Text.IsSpace | src/tools.py:164 | the characters `str.isspace` accepts, which `str.strip` removes; `TrimStart`, `TrimEnd`, `Strip` and `StripRemovesSpace` state in its terms what strip removes and keeps |
| Text.IsLineBreak | src/tools.py:164 | the characters at which `str.splitlines` breaks; `SplitLines` states that no piece holds one, and `SplitLinesOfJoin` that "\n"-joined break-free lines split back exactly |
| Text.TrimStart | src/tools.py:164 | a suffix of the input that does not start with whitespace; everything removed is whitespace |
| Text.TrimEnd | src/tools.py:164 | a prefix of the input that does not end with whitespace; everything removed is whitespace |
| Text.Strip | src/tools.py:164 | `str.strip` gives a string with no whitespace at either end, no longer than its input |
| Text.StripSlice | src/tools.py:164 | the stripped string is a contiguous slice of the input, starting where the leading whitespace ends |
| Text.StripRemovesSpace | src/tools.py:164 | everything strip removes, before and after that slice, is whitespace |
| Text.TrimmedSlice | src/tools.py:164 | trimming a suffix at its end gives a stripped slice of the original with whitespace on both sides |
| Text.StripKeepsNoLineBreak | src/tools.py:164 | stripping a line without line breaks gives a line without line breaks |
| Text.StripOfStripped | src/tools.py:164 | strip is idempotent |
| Text.SplitLines | src/tools.py:164 | `str.splitlines` pieces never contain a line-break character |
| Text.Join | src/tools.py:165 | `sep.join(parts)`, also used for the partial report's notes (src/agent.py:190); `JoinContainsPart` states that every part occurs at its offset, in order, and `SplitLinesOfJoin` that splitting lines undoes a "\n" join |
| Text.JoinAt | src/tools.py:165 | a join splits at any part boundary into the join of the parts before, the separator and the join of the parts after |
| Text.JoinStartsWithFirst | src/tools.py:165 | a join starts with its first part |
| Text.JoinPartAt | src/tools.py:165 | every part occurs in the join at its offset |
| Text.JoinContainsPart | src/tools.py:165 | every part occurs in the join at its offset, and the parts appear in order |
| Text.SplitLinesPrefix | src/tools.py:164 | splitting a string whose first piece has no line break extends that piece |
| Text.SplitLinesOfJoin | src/tools.py:164-165 | splitting lines joined by "\n" gives back exactly those lines |
| Text.DigitChar | src/tools.py:218 | a single digit is rendered as the digit character of that value |
| Text.NatToString | src/tools.py:218 | `str(n)` for a natural number is a non-empty string of digits without a leading zero, one character long exactly when `n < 10` |
| Text.NatToStringValue | src/tools.py:218 | the digits of `str(n)` denote `n` |
| Text.IntToString | src/agent.py:187 | `str(i)` starts with '-' exactly for negative `i`; the rest is a numeral without leading zeros denoting the absolute value |
| Text.CanonicalAtLeastTen | src/agent.py:187 | a numeral of two or more digits without a leading zero denotes at least 10 |
| Text.CanonicalUnique | src/agent.py:187 | two numerals without leading zeros that denote the same number are the same string |
| Text.DecimalUnique | src/agent.py:187 | any string that writes `i` as an optional '-' and a numeral without leading zeros is `str(i)`: the contract of `IntToString` determines its result |
| Agent.InitialMessages | src/agent.py:129-132 | the system prompt and the topic request; `SessionTranscript` states that every transcript opens with them |
| Agent.InitialSession | src/agent.py:129-134 | the reset session: the opening messages, an empty ledger, no report; `SessionTranscript` and `NoBudget` state what follows from it |
| Agent.DecodeArguments | src/agent.py:79-82 | the decoded arguments, `{}` for text that is not JSON; `MalformedArgumentsFail` states the consequence |
| Agent.Present | src/agent.py:176 | the truth value of `self._report`, also tested at src/agent.py:180 and 201; `TurnShape` states that a turn with calls continues exactly when it is false, and `ResearchOutcome` that it selects the returned report |
| Agent.Bullets | src/agent.py:190 | the `- note` lines; `NotesSectionContents` and `PartialReportListsNotes` state that each note's line occurs at its offset, in ledger order |
| Agent.PartialReportLead | src/agent.py:183-189 | the partial report up to its notes; `PartialReportContents` states that it opens with the banner and gives the budget after "Research was terminated after " |
| Agent.NotesSection | src/agent.py:190 | the notes part of the partial report; `NotesSectionContents` states what it contains |
| Agent.PartialReport | src/agent.py:183-191 | the fallback report; `PartialReportContents` and `PartialReportListsNotes` state what it contains |
| Agent.NotesSectionContents | src/agent.py:190 | the section says "No notes were saved." exactly when the ledger is empty; otherwise each note's line appears, in ledger order |
| Agent.PartialReportContents | src/agent.py:183-191 | the partial report opens with its banner, gives the budget right after "Research was terminated after ", and then holds the notes section |
| Agent.PartialReportListsNotes | src/agent.py:183-191 | every note's `- ` line is in the partial report, in ledger order |
| Agent.RegistryExecutor | src/agent.py:79-94 | a call decoded by `json.loads` (or `{}`) and run by the registry's `execute`; `MalformedArgumentsFail` and `RegistryCompilesReports` state what it returns |
| Agent.RegistryCompilesReports | src/agent.py:94-99 | every successful `compile_report` answer from the registry is a compiled report |
| Agent.MalformedArgumentsFail | src/agent.py:79-82 | argument text that is not JSON is run as `{}`, which every tool rejects: an error result with the ledger unchanged |
| Agent.ProcessCalls | src/agent.py:70-109 | the returned tool messages answer the calls one for one, by id and in order |
| Agent.ProcessCallsPrefix | src/agent.py:77-105 | the answers to a prefix of the calls are a prefix of the answers |
| Agent.ProcessCallsAnswers | src/agent.py:94-105 | answer `i` carries call `i`'s id and its result, run on the ledger left by the earlier calls |
| Agent.Captures | src/agent.py:96-99 | a `compile_report` call whose result reports success; `CapturedReportsAreCompiled` states that such an answer is a compiled report |
| Agent.LastCaptured | src/agent.py:96-99 | the report a turn's calls leave; `ProcessCallsReport` states that `ProcessCalls` yields it, and `LastCapturedSource` where it comes from |
| Agent.ProcessCallsReport | src/agent.py:96-99 | after the calls, the report is the one from the last capturing call, or the earlier report when no call captures |
| Agent.CapturedReportsAreCompiled | src/agent.py:96-99 | a captured answer is a compiled report |
| Agent.LastCapturedSource | src/agent.py:96-99 | the report after the first `k` calls is either the earlier one or a compiled report among those calls' answers |
| Agent.ProcessCallsReportSource | src/agent.py:96-99 | the report after a turn's calls is either the earlier one or a compiled report among the answers |
| Agent.Turn | src/agent.py:140-178 | each pass of the loop body adds one to the counter |
| Agent.TurnShape | src/agent.py:144-178 | a model error adds nothing and stops; a reply adds one assistant message mirroring it, then one tool message per call; with no calls the loop stops, and with calls it continues exactly when no report is present |
| Agent.Loop | src/agent.py:139-178 | the bounded loop; `LoopBound`, `LoopKeepsTranscript` and `LoopKeepsReportSource` state its properties |
| Agent.Conclude | src/agent.py:180-191 | the fallback after the loop; `ResearchOutcome` states when it applies |
| Agent.ResearchResult | src/agent.py:201 | `research`'s return value; `ResearchOutcome` states its three cases and that it is never empty |
| Agent.LoopBound | src/agent.py:139-140 | the counter never decreases and never passes the budget; the loop ends stopped or at the budget |
| Agent.IterationBound | src/agent.py:136-140 | with a positive budget the model is asked at least once and at most `max_iterations` times; otherwise it is never asked |
| Agent.AnsweredTurnsAppend | src/agent.py:153-174 | well-formed turn sequences concatenate |
| Agent.AnsweredBlockKeepsTranscript | src/agent.py:153-174 | an assistant message followed by answers to its calls extends a well-formed transcript |
| Agent.TurnKeepsTranscript | src/agent.py:144-178 | every iteration keeps the transcript well formed: each tool call is answered before the next request |
| Agent.LoopKeepsTranscript | src/agent.py:139-178 | the loop keeps the transcript well formed |
| Agent.SessionTranscript | src/agent.py:129-178 | every transcript opens with the system prompt and the topic request and continues with answered turns |
| Agent.TurnKeepsReportSource | src/agent.py:144-178 | an iteration keeps the invariant "a report is the text of a compiled report in the transcript" |
| Agent.LoopKeepsReportSource | src/agent.py:139-178 | the loop keeps that invariant |
| Agent.ResearchOutcome | src/agent.py:180-201 | the result is never empty. It is the captured report, which is a compiled report in the transcript; else the partial report when the counter reached the budget; else "No report was generated." |
| Agent.RunLoop | src/agent.py:129-178 | the reset followed by the loop with the registry executor; `IterationBound` and `ResearchOutcome` state its bounds and its end state |
| Agent.FinalSession | src/agent.py:129-191 | the session after the fallback; `SessionTranscript` states its transcript is well formed, and `ResearchAgent.Research` is proved equal to it |
| Agent.SingleTurnWithoutCalls | src/agent.py:169-191 | a budget of one and a first reply without tool calls give the partial report with no notes |
| Agent.EarlyStopWithoutReport | src/agent.py:144-201 | stopping early with budget left gives "No report was generated." after one iteration |
| Agent.ErrorOnLastIteration | src/agent.py:144-191 | a model error on the only iteration adds nothing to the transcript and still gives the partial report |
| Agent.NoBudget | src/agent.py:139-191 | a budget of zero or less never asks the model and returns the partial report of an empty ledger |
| Agent.FirstTurnCompiles | src/agent.py:94-201 | a first reply calling `compile_report` with its four fields ends after one iteration and returns that compiled report of the empty ledger |
| Agent.ResearchAgent.constructor | src/agent.py:42-49 | the agent keeps its configuration and the system prompt, builds a fresh registry with the configured result cap, and starts with no transcript and no report |
| Agent.ResearchAgent.ProcessToolCalls | src/agent.py:70-109 | the answers, the new ledger and the report are exactly `ProcessCalls` on the old ledger and report, and the transcript is untouched |
| Agent.ResearchAgent.TakeTurn | src/agent.py:140-178 | the new transcript, ledger and report, and whether the loop breaks, are exactly one `Turn` from the old state |
| Agent.ResearchAgent.Research | src/agent.py:111-201 | the agent stays consistent with its registry; the final transcript, ledger and report are those of `FinalSession`, and the return value is `ResearchResult`, whose properties the lemmas above state |

## Left out

- Console output (`_log`, `_log_panel` and the final panel) has no effect on the state or the result, so it is not modelled. The `arguments.get(...)` lookups made only for logging are left out too.
- `_call_llm`, the OpenAI client and its options (model name, temperature, tool choice) are replaced by the `Environment.model` function of the iteration and the transcript. An exception from the client is `ModelError`.
- DuckDuckGo search, `requests.get` and BeautifulSoup extraction are replaced by the `World` replies. These are a provider's records or error, and the page's extracted text or an error. Which tags are dropped and how the text is extracted are not modelled.
- The `tenacity` retry decorators on `web_search` and `fetch_webpage` are left out. Both methods catch every exception raised in their bodies, so a retry changes their result only for arguments that do not bind, which the next line covers. Retry delays are time, which the model does not have.
- Tools.Dispatch: a call whose keyword arguments do not bind gives `ArgumentMismatch(tool)`. The exact `TypeError` text (wrapped by `tenacity` for the two network tools) is not modelled.
- Argument values are strings, and decoded arguments are a JSON object. Non-string values, and JSON that decodes to something other than an object, are not modelled. Both can make `research` raise before `execute` is reached. JSON that is not an object makes the logging at src/agent.py:85-92 raise for a known tool. A non-string `note` on `take_notes`, such as `{"note": 5}` or `{"note": null}`, makes the slice `[:50]` at src/agent.py:90 raise.
- A tool message holds the result as a `ToolResult` value, not as its `json.dumps` text. The agent reads back only "success" and "report", and those are exact in the model. The other JSON keys of each result are fields of its constructor.
- Text.SplitLines differs from `str.splitlines` only in empty pieces, in three cases. It treats each of "\r" and "\n" as its own break, so "\r\n" gives one extra empty piece. The empty string gives `[""]` rather than `[]`. A trailing break gives a final empty piece. The page-text filter drops empty pieces (src/tools.py:164), so the kept lines are the same.
- The specification functions take the system prompt as a parameter. `ResearchAgent` passes `SystemPrompt` (src/agent.py:17-40), and its constructor states that. `ResearchAgent.research`'s arguments are the topic and the environment.
- Tools.ToolRegistry.constructor takes the result cap as a required argument. The default `max_search_results = 5` (src/tools.py:14) is not modelled, because the agent always passes its configured value (src/agent.py:46).
- `AgentConfig.from_env`, `run_agent`, `main.py` and `src/config.py` are outside the modelled core. The configuration is a value with `maxIterations` and `maxSearchResults`.
- Concurrency is not modelled: the agent runs one call at a time.
