/**
 * The research agent's control loop: a bounded number of model turns over a
 * transcript, each turn's tool calls run through the registry and answered
 * in order, then the choice between the compiled report, a partial report
 * and "No report was generated.".
 *
 * The language model is an oracle: given the iteration number and the
 * transcript it returns an error or a reply. The network is an oracle too,
 * giving a `World` for each tool call by (iteration, position in the turn).
 * The loop itself is stated over any `Executor`, the function that runs one
 * tool call; the agent's own is `RegistryExecutor`, the registry's `execute`.
 */
module Agent {
  import opened Wrappers
  import opened Text
  import opened Tools
  import opened Seqs

  /** A tool call's argument text: JSON that decodes to an object, or text that does not decode. */
  datatype ArgumentText = JsonObject(fields: map<string, string>) | Malformed(text: string)

  /** A tool call requested by the model: its id, the function name and the argument text. */
  datatype ToolCall = ToolCall(id: string, name: string, arguments: ArgumentText)

  /** The outcome of one model request: an exception, or a message with optional text and tool calls. */
  datatype ModelResponse = ModelError(reason: string) | ModelReply(content: Option<string>, toolCalls: seq<ToolCall>)

  /** The transcript entries, by role. A tool message's content is the serialised `result`. */
  datatype Message =
    | SystemMessage(text: string)
    | UserMessage(text: string)
    | AssistantMessage(content: Option<string>, toolCalls: seq<ToolCall>)
    | ToolMessage(toolCallId: string, result: ToolResult)

  /** The configuration the loop reads; the model name, temperature and key only reach the model. */
  datatype AgentConfig = AgentConfig(maxIterations: int, maxSearchResults: int)

  /** The language model, by (iteration, transcript), and the network, by (iteration, call position). */
  datatype Environment = Environment(model: (nat, seq<Message>) -> ModelResponse, network: (nat, nat) -> World)

  const SystemPrompt: string := "You are an expert research assistant agent. Your goal is to thoroughly research the given topic and compile a comprehensive report.\n"
    + "\n"
    + "You have access to the following tools:\n"
    + "1. web_search: Search the web for information\n"
    + "2. fetch_webpage: Get detailed content from a specific URL\n"
    + "3. take_notes: Save important findings for the final report\n"
    + "4. compile_report: Create the final research report\n"
    + "\n"
    + "Your workflow should be:\n"
    + "1. Analyze the research question to identify key aspects to investigate\n"
    + "2. Use web_search to find relevant sources\n"
    + "3. Use fetch_webpage to get detailed information from promising sources\n"
    + "4. Use take_notes to record important findings with their sources\n"
    + "5. When you have gathered sufficient information, use compile_report to create the final report\n"
    + "\n"
    + "Guidelines:\n"
    + "- Be thorough but efficient - aim for quality over quantity\n"
    + "- Always cite sources when taking notes\n"
    + "- Cross-reference information from multiple sources when possible\n"
    + "- Focus on factual, verifiable information\n"
    + "- If search results are insufficient, try different search queries\n"
    + "- When you have enough information to answer the research question comprehensively, compile the report\n"
    + "\n"
    + "IMPORTANT: You must decide what actions to take based on the current state of your research. Think step by step about what information you still need."

  const UserPromptPrefix: string := "Please research the following topic and compile a comprehensive report:\n\n"

  const NoReportMessage: string := "No report was generated."

  /** The two messages a session starts from: the system prompt and the request naming the topic. */
  function InitialMessages(prompt: string, topic: string): seq<Message> {
    [SystemMessage(prompt), UserMessage(UserPromptPrefix + topic)]
  }

  /** `json.loads(arguments)`, with `{}` when the text does not decode. */
  function DecodeArguments(a: ArgumentText): map<string, string> {
    match a
    case JsonObject(fields) => fields
    case Malformed(_) => map[]
  }

  /** Python's truth value of `self._report`: set and non-empty. */
  predicate Present(report: Option<string>) {
    report.Some? && report.value != ""
  }

  // ---------------------------------------------------------------------
  // The partial report
  // ---------------------------------------------------------------------

  const PartialReportBanner: string := "\nPARTIAL RESEARCH REPORT\n=======================\n\n"
  const TerminationLead: string := "Research was terminated after "
  const NotesHeading: string := " iterations.\n\nNotes gathered:\n"
  const NoNotesLine: string := "No notes were saved."

  /** One "- " line per note, in ledger order. */
  function Bullets(notes: seq<string>): seq<string> {
    seq(|notes|, i requires 0 <= i < |notes| => "- " + notes[i])
  }

  /** The notes section: the bullet lines joined by newlines, or a placeholder when there are none. */
  function NotesSection(notes: seq<string>): string {
    if notes == [] then NoNotesLine else Join(Bullets(notes), "\n")
  }

  function PartialReportLead(maxIterations: int): string {
    PartialReportBanner + TerminationLead + IntToString(maxIterations) + NotesHeading
  }

  /** The report built when the iteration budget is used up without a compiled report. */
  function PartialReport(maxIterations: int, notes: seq<string>): string {
    PartialReportLead(maxIterations) + NotesSection(notes) + "\n"
  }

  /** An occurrence inside an occurrence. */
  lemma OccursWithin(a: string, b: string, c: string, i: nat, j: nat)
    requires OccursAt(a, b, i) && OccursAt(b, c, j)
    ensures OccursAt(a, c, j + i)
  {
    forall k | 0 <= k < |a|
      ensures c[j + i + k] == a[k]
    {
      assert c[j + i + k] == c[j..j + |b|][i + k];
    }
  }

  /**
   * The notes section says that no notes were saved exactly when there are
   * none, and otherwise holds every note's "- " line, in ledger order.
   */
  lemma {:induction false} NotesSectionContents(notes: seq<string>)
    ensures notes == [] <==> NotesSection(notes) == NoNotesLine
    ensures forall k :: 0 <= k < |notes| ==>
      OccursAt("- " + notes[k], NotesSection(notes), JoinOffset(Bullets(notes), "\n", k))
    ensures forall j, k :: 0 <= j < k < |notes| ==>
      JoinOffset(Bullets(notes), "\n", j) < JoinOffset(Bullets(notes), "\n", k)
  {
    var lines := Bullets(notes);
    if notes != [] {
      JoinContainsPart(lines, "\n", 0);
      assert OccursAt("- " + notes[0], NotesSection(notes), 0);
      assert NotesSection(notes)[1] == ' ';
      assert NoNotesLine[1] == 'o';
    }
    forall k | 0 <= k < |notes|
      ensures OccursAt("- " + notes[k], NotesSection(notes), JoinOffset(lines, "\n", k))
      ensures forall j :: 0 <= j < k ==> JoinOffset(lines, "\n", j) < JoinOffset(lines, "\n", k)
    {
      JoinContainsPart(lines, "\n", k);
    }
  }

  /**
   * The partial report opens with its banner, gives the iteration budget
   * right after "Research was terminated after ", and then holds the notes
   * section.
   */
  lemma PartialReportContents(maxIterations: int, notes: seq<string>)
    ensures var r := PartialReport(maxIterations, notes);
      && PartialReportBanner <= r
      && OccursAt(IntToString(maxIterations), r, |PartialReportBanner + TerminationLead|)
      && OccursAt(NotesSection(notes), r, |PartialReportLead(maxIterations)|)
  {
    LeadAndBody(PartialReportBanner, TerminationLead, IntToString(maxIterations), NotesHeading, NotesSection(notes), "\n");
  }

  /** Every note's "- " line is in the partial report, in ledger order. */
  lemma PartialReportListsNotes(maxIterations: int, notes: seq<string>)
    ensures var r := PartialReport(maxIterations, notes);
      forall k :: 0 <= k < |notes| ==>
        OccursAt("- " + notes[k], r, |PartialReportLead(maxIterations)| + JoinOffset(Bullets(notes), "\n", k))
  {
    PartialReportContents(maxIterations, notes);
    if notes != [] {
      assert NotesSection(notes) == Join(Bullets(notes), "\n");
      JoinedWithin(Bullets(notes), "\n", PartialReport(maxIterations, notes), |PartialReportLead(maxIterations)|);
    }
  }

  /** The parts of a joined string that occurs in `r` occur in `r` too, shifted by where it occurs. */
  lemma JoinedWithin(parts: seq<string>, sep: string, r: string, base: nat)
    requires OccursAt(Join(parts, sep), r, base)
    ensures forall k :: 0 <= k < |parts| ==> OccursAt(parts[k], r, base + JoinOffset(parts, sep, k))
  {
    forall k | 0 <= k < |parts|
      ensures OccursAt(parts[k], r, base + JoinOffset(parts, sep, k))
    {
      JoinPartAt(parts, sep, k);
      OccursWithin(parts[k], Join(parts, sep), r, JoinOffset(parts, sep, k), base);
    }
  }

  /** The pieces of a four-part lead followed by a body and a tail occur where they were put. */
  lemma LeadAndBody(p: string, q: string, n: string, h: string, body: string, tail: string)
    ensures var s := p + q + n + h + body + tail;
      p <= s && OccursAt(n, s, |p + q|) && OccursAt(body, s, |p + q + n + h|)
  {
    assert OccursAt(p, p, 0) && OccursAt(n, n, 0) && OccursAt(body, body, 0);
    OccursInExtension(p, p, 0, q);
    OccursInExtension(p, p + q, 0, n);
    OccursInExtension(p, p + q + n, 0, h);
    OccursInExtension(p, p + q + n + h, 0, body);
    OccursInExtension(p, p + q + n + h + body, 0, tail);
    OccursAfter(n, n, 0, p + q);
    OccursInExtension(n, p + q + n, |p + q|, h);
    OccursInExtension(n, p + q + n + h, |p + q|, body);
    OccursInExtension(n, p + q + n + h + body, |p + q|, tail);
    OccursAfter(body, body, 0, p + q + n + h);
    OccursInExtension(body, p + q + n + h + body, |p + q + n + h|, tail);
  }

  // ---------------------------------------------------------------------
  // Running one tool call
  // ---------------------------------------------------------------------

  /** Runs the call at a position of an iteration's turn against a ledger: the result and the new ledger. */
  type Executor = (nat, ToolCall, nat, seq<string>) -> Effect

  /** The registry's `execute` on the decoded arguments, with the network as it is for that call. */
  function RegistryExecutor(maxResults: int, network: (nat, nat) -> World): Executor {
    (turn: nat, call: ToolCall, position: nat, notes: seq<string>) =>
      Dispatch(notes, maxResults, call.name, DecodeArguments(call.arguments), network(turn, position))
  }

  /** Running a call through the registry executor is the registry's `execute`. */
  lemma RegistryExecutorRuns(maxResults: int, network: (nat, nat) -> World, turn: nat, call: ToolCall, position: nat, notes: seq<string>)
    ensures RegistryExecutor(maxResults, network)(turn, call, position, notes)
      == Dispatch(notes, maxResults, call.name, DecodeArguments(call.arguments), network(turn, position))
  {
  }

  /** Every successful `compile_report` result the executor gives is a compiled report. */
  ghost predicate CompilesReports(execute: Executor) {
    forall turn: nat, call: ToolCall, position: nat, notes: seq<string> ::
      call.name == CompileReportTool.Name() && execute(turn, call, position, notes).result.Success() ==>
        execute(turn, call, position, notes).result.ReportCompiled?
  }

  lemma RegistryCompilesReports(maxResults: int, network: (nat, nat) -> World)
    ensures CompilesReports(RegistryExecutor(maxResults, network))
  {
    forall turn: nat, call: ToolCall, position: nat, notes: seq<string> |
      call.name == CompileReportTool.Name()
      ensures RegistryExecutor(maxResults, network)(turn, call, position, notes).result.ErrorResult?
        || RegistryExecutor(maxResults, network)(turn, call, position, notes).result.ReportCompiled?
    {
      RegistryExecutorRuns(maxResults, network, turn, call, position, notes);
    }
  }

  /** Arguments that do not decode are run as `{}`, which every tool rejects: an error, the ledger unchanged. */
  lemma {:induction false} MalformedArgumentsFail(maxResults: int, network: (nat, nat) -> World, turn: nat, call: ToolCall, position: nat, notes: seq<string>)
    requires call.arguments.Malformed?
    ensures var e := RegistryExecutor(maxResults, network)(turn, call, position, notes);
      e.result.ErrorResult? && e.notes == notes
  {
    var args := DecodeArguments(call.arguments);
    RegistryExecutorRuns(maxResults, network, turn, call, position, notes);
    var tool := LookupTool(call.name);
    if tool.Some? {
      var sig := Signature(tool.value);
      assert sig[0].default.None? && sig[0].name !in args;
      assert !Binds(tool.value, args);
    }
  }

  // ---------------------------------------------------------------------
  // One turn's tool calls (`_process_tool_calls`)
  // ---------------------------------------------------------------------

  /** `replies` answers `calls` one for one: a tool message with each call's id, in order. */
  predicate Answers(calls: seq<ToolCall>, replies: seq<Message>) {
    |replies| == |calls| &&
    forall i :: 0 <= i < |calls| ==> replies[i].ToolMessage? && replies[i].toolCallId == calls[i].id
  }

  /** The tool messages of a turn, and the ledger and report they leave. */
  datatype CallsOutcome = CallsOutcome(messages: seq<Message>, notes: seq<string>, report: Option<string>)

  /**
   * The calls run in order, each against the ledger the earlier ones left;
   * each is answered by one tool message with its id, and a successful
   * `compile_report` result sets the report to its "report" field.
   */
  function ProcessCalls(calls: seq<ToolCall>, turn: nat, execute: Executor, notes: seq<string>, report: Option<string>): (out: CallsOutcome)
    ensures Answers(calls, out.messages)
    decreases |calls|
  {
    if calls == [] then CallsOutcome([], notes, report)
    else
      var last := |calls| - 1;
      var before := ProcessCalls(calls[..last], turn, execute, notes, report);
      var call := calls[last];
      var effect := execute(turn, call, last, before.notes);
      var captured :=
        if call.name == CompileReportTool.Name() && effect.result.Success() then effect.result.ReportField()
        else before.report;
      CallsOutcome(before.messages + [ToolMessage(call.id, effect.result)], effect.notes, captured)
  }

  /** The calls run one after another: the first `k` answers are those of the first `k` calls alone. */
  lemma {:induction false} ProcessCallsPrefix(calls: seq<ToolCall>, turn: nat, execute: Executor, notes: seq<string>, report: Option<string>, k: nat)
    requires k <= |calls|
    ensures ProcessCalls(calls, turn, execute, notes, report).messages[..k]
      == ProcessCalls(calls[..k], turn, execute, notes, report).messages
    decreases |calls|
  {
    if k < |calls| {
      var last := |calls| - 1;
      ProcessCallsPrefix(calls[..last], turn, execute, notes, report, k);
      PrefixOfPrefix(calls, k, last);
      var out := ProcessCalls(calls, turn, execute, notes, report);
      var mid := ProcessCalls(calls[..last], turn, execute, notes, report);
      AppendPrefix(mid.messages, [out.messages[last]]);
      PrefixOfPrefix(out.messages, k, last);
    } else {
      assert calls[..k] == calls;
    }
  }

  /**
   * The `i`-th tool message answers the `i`-th call with its id and holds
   * what the executor gives for it against the ledger the earlier calls
   * left; the ledger after it is the executor's.
   */
  lemma {:induction false} ProcessCallsAnswers(calls: seq<ToolCall>, turn: nat, execute: Executor, notes: seq<string>, report: Option<string>, i: nat)
    requires i < |calls|
    ensures var before := ProcessCalls(calls[..i], turn, execute, notes, report);
      var effect := execute(turn, calls[i], i, before.notes);
      && ProcessCalls(calls, turn, execute, notes, report).messages[i] == ToolMessage(calls[i].id, effect.result)
      && ProcessCalls(calls[..i + 1], turn, execute, notes, report).notes == effect.notes
  {
    ProcessCallsPrefix(calls, turn, execute, notes, report, i + 1);
    var upto := calls[..i + 1];
    PrefixOfPrefix(calls, i, i + 1);
    var out := ProcessCalls(calls, turn, execute, notes, report);
    assert out.messages[i] == out.messages[..i + 1][i];
  }

  /** The call sets the report: a `compile_report` call whose answer reports success. */
  predicate Captures(call: ToolCall, m: Message) {
    call.name == CompileReportTool.Name() && m.ToolMessage? && m.result.Success()
  }

  /**
   * The report a turn leaves, read off its calls and their answers: the
   * "report" field of the last capturing call, or `report` when none captures.
   */
  function LastCaptured(calls: seq<ToolCall>, answers: seq<Message>, report: Option<string>): Option<string>
    requires |answers| == |calls|
    decreases |calls|
  {
    if calls == [] then report
    else
      var last := |calls| - 1;
      if Captures(calls[last], answers[last]) then answers[last].result.ReportField()
      else LastCaptured(calls[..last], answers[..last], report)
  }

  /** The report after a turn's calls is the one its last capturing call produced, else the one from before. */
  lemma {:induction false} ProcessCallsReport(calls: seq<ToolCall>, turn: nat, execute: Executor, notes: seq<string>, report: Option<string>)
    ensures var out := ProcessCalls(calls, turn, execute, notes, report);
      out.report == LastCaptured(calls, out.messages, report)
    decreases |calls|
  {
    if calls != [] {
      var last := |calls| - 1;
      var out := ProcessCalls(calls, turn, execute, notes, report);
      var before := ProcessCalls(calls[..last], turn, execute, notes, report);
      ProcessCallsReport(calls[..last], turn, execute, notes, report);
      assert out.messages[..last] == before.messages;
    }
  }

  /** A capturing call's answer is a compiled report. */
  lemma {:induction false} CapturedReportsAreCompiled(calls: seq<ToolCall>, turn: nat, execute: Executor, notes: seq<string>, report: Option<string>, i: nat)
    requires CompilesReports(execute)
    requires i < |calls|
    requires Captures(calls[i], ProcessCalls(calls, turn, execute, notes, report).messages[i])
    ensures ProcessCalls(calls, turn, execute, notes, report).messages[i].result.ReportCompiled?
  {
    ProcessCallsAnswers(calls, turn, execute, notes, report, i);
  }

  lemma {:induction false} LastCapturedSource(calls: seq<ToolCall>, turn: nat, execute: Executor, notes: seq<string>, report: Option<string>, k: nat)
    requires CompilesReports(execute)
    requires k <= |calls|
    ensures var out := ProcessCalls(calls, turn, execute, notes, report);
      var r := LastCaptured(calls[..k], out.messages[..k], report);
      r == report || (r.Some? && CompiledIn(out.messages[..k], r.value))
    decreases k
  {
    if k > 0 {
      LastCapturedSource(calls, turn, execute, notes, report, k - 1);
      LastCapturedSourceStep(calls, turn, execute, notes, report, k);
    }
  }

  /** One more call keeps the report sourced: it captures a compiled report or leaves the earlier one. */
  lemma LastCapturedSourceStep(calls: seq<ToolCall>, turn: nat, execute: Executor, notes: seq<string>, report: Option<string>, k: nat)
    requires CompilesReports(execute)
    requires 0 < k <= |calls|
    requires var out := ProcessCalls(calls, turn, execute, notes, report);
      var r := LastCaptured(calls[..k - 1], out.messages[..k - 1], report);
      r == report || (r.Some? && CompiledIn(out.messages[..k - 1], r.value))
    ensures var out := ProcessCalls(calls, turn, execute, notes, report);
      var r := LastCaptured(calls[..k], out.messages[..k], report);
      r == report || (r.Some? && CompiledIn(out.messages[..k], r.value))
  {
    var out := ProcessCalls(calls, turn, execute, notes, report);
    var last := k - 1;
    PrefixOfPrefix(calls, last, k);
    PrefixOfPrefix(out.messages, last, k);
    PrefixSnoc(out.messages, last);
    if Captures(calls[last], out.messages[last]) {
      CapturedReportsAreCompiled(calls, turn, execute, notes, report, last);
    } else if LastCaptured(calls[..last], out.messages[..last], report) != report {
      CompiledInLeft(out.messages[..last], [out.messages[last]], LastCaptured(calls[..last], out.messages[..last], report).value);
    }
  }

  /** `r` is the text of a compiled report answered in `ms`. */
  predicate CompiledIn(ms: seq<Message>, r: string) {
    exists i :: 0 <= i < |ms| && ms[i].ToolMessage? && ms[i].result.ReportCompiled? && ms[i].result.report == r
  }

  lemma CompiledInLeft(a: seq<Message>, b: seq<Message>, r: string)
    requires CompiledIn(a, r)
    ensures CompiledIn(a + b, r)
  {
    var i :| 0 <= i < |a| && a[i].ToolMessage? && a[i].result.ReportCompiled? && a[i].result.report == r;
    assert (a + b)[i] == a[i];
  }

  lemma CompiledInRight(a: seq<Message>, b: seq<Message>, r: string)
    requires CompiledIn(b, r)
    ensures CompiledIn(a + b, r)
  {
    var i :| 0 <= i < |b| && b[i].ToolMessage? && b[i].result.ReportCompiled? && b[i].result.report == r;
    assert (a + b)[|a| + i] == b[i];
  }

  /** The report after a turn is the one from before or the text of one of the turn's compiled reports. */
  lemma {:induction false} ProcessCallsReportSource(calls: seq<ToolCall>, turn: nat, execute: Executor, notes: seq<string>, report: Option<string>)
    requires CompilesReports(execute)
    ensures var out := ProcessCalls(calls, turn, execute, notes, report);
      out.report == report || (out.report.Some? && CompiledIn(out.messages, out.report.value))
  {
    var out := ProcessCalls(calls, turn, execute, notes, report);
    ProcessCallsReport(calls, turn, execute, notes, report);
    LastCapturedSource(calls, turn, execute, notes, report, |calls|);
    assert calls[..|calls|] == calls && out.messages[..|calls|] == out.messages;
  }

  // ---------------------------------------------------------------------
  // The session and its loop (`research`)
  // ---------------------------------------------------------------------

  /** The state `research` works on: transcript, ledger, report, counter, and whether the loop goes on. */
  datatype Session = Session(messages: seq<Message>, notes: seq<string>, report: Option<string>, iteration: nat, running: bool)

  /** The session after the reset: the two opening messages, an empty ledger, no report. */
  function InitialSession(prompt: string, topic: string): Session {
    Session(InitialMessages(prompt, topic), [], None, 0, true)
  }

  /** One pass of the loop body, from the counter's increment to the checks that end the loop. */
  function Turn(s: Session, model: (nat, seq<Message>) -> ModelResponse, execute: Executor): (t: Session)
    ensures t.iteration == s.iteration + 1
  {
    var iteration := s.iteration + 1;
    match model(iteration, s.messages)
    case ModelError(_) => s.(iteration := iteration, running := false)
    case ModelReply(content, calls) =>
      var transcript := s.messages + [AssistantMessage(content, calls)];
      if calls == [] then s.(messages := transcript, iteration := iteration, running := false)
      else
        var out := ProcessCalls(calls, iteration, execute, s.notes, s.report);
        Session(transcript + out.messages, out.notes, out.report, iteration, !Present(out.report))
  }

  // The three ways a turn can go, one lemma each, for the agent's loop to follow.

  lemma TurnAfterError(s: Session, model: (nat, seq<Message>) -> ModelResponse, execute: Executor)
    requires model(s.iteration + 1, s.messages).ModelError?
    ensures Turn(s, model, execute) == s.(iteration := s.iteration + 1, running := false)
  {
  }

  lemma TurnWithoutCalls(s: Session, model: (nat, seq<Message>) -> ModelResponse, execute: Executor)
    requires var response := model(s.iteration + 1, s.messages);
      response.ModelReply? && response.toolCalls == []
    ensures var response := model(s.iteration + 1, s.messages);
      Turn(s, model, execute)
        == s.(messages := s.messages + [AssistantMessage(response.content, [])], iteration := s.iteration + 1, running := false)
  {
  }

  lemma TurnWithCalls(s: Session, model: (nat, seq<Message>) -> ModelResponse, execute: Executor)
    requires var response := model(s.iteration + 1, s.messages);
      response.ModelReply? && response.toolCalls != []
    ensures var response := model(s.iteration + 1, s.messages);
      var out := ProcessCalls(response.toolCalls, s.iteration + 1, execute, s.notes, s.report);
      Turn(s, model, execute)
        == Session(s.messages + [AssistantMessage(response.content, response.toolCalls)] + out.messages,
                   out.notes, out.report, s.iteration + 1, !Present(out.report))
  {
  }

  /** `while iteration < max_iterations`, with the loop's breaks as `running == false`. */
  function Loop(s: Session, maxIterations: int, model: (nat, seq<Message>) -> ModelResponse, execute: Executor): Session
    decreases if s.iteration < maxIterations then maxIterations - s.iteration else 0
  {
    if !s.running || s.iteration >= maxIterations then s
    else Loop(Turn(s, model, execute), maxIterations, model, execute)
  }

  /** After the loop: a partial report exactly when the counter reached the budget and no report exists. */
  function Conclude(s: Session, maxIterations: int): Session {
    if s.iteration >= maxIterations && !Present(s.report) then s.(report := Some(PartialReport(maxIterations, s.notes)))
    else s
  }

  /** The loop the agent runs: its configured budget, the model, and the registry with the network. */
  function RunLoop(prompt: string, topic: string, cfg: AgentConfig, env: Environment): Session {
    Loop(InitialSession(prompt, topic), cfg.maxIterations, env.model, RegistryExecutor(cfg.maxSearchResults, env.network))
  }

  function FinalSession(prompt: string, topic: string, cfg: AgentConfig, env: Environment): Session {
    Conclude(RunLoop(prompt, topic, cfg, env), cfg.maxIterations)
  }

  /** `self._report or "No report was generated."`. */
  function ResearchResult(prompt: string, topic: string, cfg: AgentConfig, env: Environment): string {
    var f := FinalSession(prompt, topic, cfg, env);
    if Present(f.report) then f.report.value else NoReportMessage
  }

  // ---------------------------------------------------------------------
  // Properties of a turn and of the loop
  // ---------------------------------------------------------------------

  /**
   * A model error adds nothing and stops; a reply adds one assistant
   * message mirroring it, then one tool message per call with the call's
   * id, in order; without calls the loop stops, with calls it goes on
   * exactly when no report exists.
   */
  lemma {:induction false} TurnShape(s: Session, model: (nat, seq<Message>) -> ModelResponse, execute: Executor)
    ensures var t := Turn(s, model, execute);
      var response := model(s.iteration + 1, s.messages);
      && (response.ModelError? ==>
            t.messages == s.messages && t.notes == s.notes && t.report == s.report && !t.running)
      && (response.ModelReply? ==>
            var calls := response.toolCalls;
            var n := |s.messages|;
            && |t.messages| == n + 1 + |calls|
            && t.messages[..n + 1] == s.messages + [AssistantMessage(response.content, calls)]
            && Answers(calls, t.messages[n + 1..])
            && (calls == [] ==> t.notes == s.notes && t.report == s.report && !t.running)
            && (calls != [] ==> (t.running <==> !Present(t.report))))
  {
    var response := model(s.iteration + 1, s.messages);
    if response.ModelReply? && response.toolCalls != [] {
      var calls := response.toolCalls;
      var out := ProcessCalls(calls, s.iteration + 1, execute, s.notes, s.report);
      var t := Turn(s, model, execute);
      var n := |s.messages|;
      assert t.messages == s.messages + [AssistantMessage(response.content, calls)] + out.messages;
      assert t.messages[n + 1..] == out.messages;
    }
  }

  /** The counter never passes the budget (nor goes below where it started), and the loop ends stopped or at the budget. */
  lemma {:induction false} LoopBound(s: Session, maxIterations: int, model: (nat, seq<Message>) -> ModelResponse, execute: Executor)
    ensures var f := Loop(s, maxIterations, model, execute);
      && s.iteration <= f.iteration
      && f.iteration <= (if s.iteration < maxIterations then maxIterations else s.iteration)
      && (!f.running || f.iteration >= maxIterations)
    decreases if s.iteration < maxIterations then maxIterations - s.iteration else 0
  {
    if s.running && s.iteration < maxIterations {
      LoopBound(Turn(s, model, execute), maxIterations, model, execute);
    }
  }

  /**
   * The model is asked at least once and at most `max_iterations` times
   * when the budget is positive, and never otherwise: the counter, one per
   * request, ends within the budget.
   */
  lemma {:induction false} IterationBound(prompt: string, topic: string, cfg: AgentConfig, env: Environment)
    ensures var f := RunLoop(prompt, topic, cfg, env);
      && f.iteration <= (if cfg.maxIterations > 0 then cfg.maxIterations else 0)
      && (cfg.maxIterations > 0 ==> f.iteration >= 1)
  {
    var execute := RegistryExecutor(cfg.maxSearchResults, env.network);
    var init := InitialSession(prompt, topic);
    LoopBound(init, cfg.maxIterations, env.model, execute);
    if cfg.maxIterations > 0 {
      LoopBound(Turn(init, env.model, execute), cfg.maxIterations, env.model, execute);
    }
  }

  /**
   * Turns: an assistant message with k tool calls followed by exactly k
   * tool messages answering them by id, in order.
   */
  predicate AnsweredTurns(ms: seq<Message>)
    decreases |ms|
  {
    ms == [] ||
    (&& ms[0].AssistantMessage?
     && |ms| > |ms[0].toolCalls|
     && Answers(ms[0].toolCalls, ms[1..1 + |ms[0].toolCalls|])
     && AnsweredTurns(ms[1 + |ms[0].toolCalls|..]))
  }

  /** The opening messages, then answered turns. */
  predicate WellFormedTranscript(ms: seq<Message>, prompt: string, topic: string) {
    |ms| >= 2 && ms[..2] == InitialMessages(prompt, topic) && AnsweredTurns(ms[2..])
  }

  lemma {:induction false} AnsweredTurnsAppend(a: seq<Message>, b: seq<Message>)
    requires AnsweredTurns(a) && AnsweredTurns(b)
    ensures AnsweredTurns(a + b)
    decreases |a|
  {
    if a == [] {
      assert a + b == b;
    } else {
      var k := |a[0].toolCalls|;
      AnsweredTurnsAppend(a[1 + k..], b);
      AnsweredTurnsCons(a, b);
    }
  }

  /** The first turn of `a` followed by the rest of `a` and then `b`. */
  lemma AnsweredTurnsCons(a: seq<Message>, b: seq<Message>)
    requires a != [] && AnsweredTurns(a)
    requires AnsweredTurns(a[1 + |a[0].toolCalls|..] + b)
    ensures AnsweredTurns(a + b)
  {
    var k := |a[0].toolCalls|;
    AppendDrop(a, b, 1 + k);
    AppendSliceLeft(a, b, 1, 1 + k);
    assert (a + b)[0] == a[0];
  }

  /** An assistant message followed by the answers to its calls extends a well-formed transcript. */
  lemma {:induction false} AnsweredBlockKeepsTranscript(ms: seq<Message>, block: seq<Message>, prompt: string, topic: string)
    requires WellFormedTranscript(ms, prompt, topic)
    requires |block| >= 1 && block[0].AssistantMessage? && Answers(block[0].toolCalls, block[1..])
    ensures WellFormedTranscript(ms + block, prompt, topic)
  {
    var k := |block[0].toolCalls|;
    assert block[1 + k..] == [];
    assert block[1..1 + k] == block[1..];
    assert AnsweredTurns(block);
    AnsweredTurnsAppend(ms[2..], block);
    assert (ms + block)[2..] == ms[2..] + block;
    assert (ms + block)[..2] == ms[..2];
  }

  /** A turn keeps the transcript well formed: every call is answered before the next request. */
  lemma {:induction false} TurnKeepsTranscript(s: Session, model: (nat, seq<Message>) -> ModelResponse, execute: Executor, prompt: string, topic: string)
    requires WellFormedTranscript(s.messages, prompt, topic)
    ensures WellFormedTranscript(Turn(s, model, execute).messages, prompt, topic)
  {
    var t := Turn(s, model, execute);
    TurnShape(s, model, execute);
    var response := model(s.iteration + 1, s.messages);
    if response.ModelReply? {
      var n := |s.messages|;
      var block := t.messages[n..];
      assert t.messages == t.messages[..n + 1] + t.messages[n + 1..];
      assert t.messages == s.messages + block;
      assert block[1..] == t.messages[n + 1..];
      AnsweredBlockKeepsTranscript(s.messages, block, prompt, topic);
    }
  }

  lemma {:induction false} LoopKeepsTranscript(s: Session, maxIterations: int, model: (nat, seq<Message>) -> ModelResponse, execute: Executor, prompt: string, topic: string)
    requires WellFormedTranscript(s.messages, prompt, topic)
    ensures WellFormedTranscript(Loop(s, maxIterations, model, execute).messages, prompt, topic)
    decreases if s.iteration < maxIterations then maxIterations - s.iteration else 0
  {
    if s.running && s.iteration < maxIterations {
      TurnKeepsTranscript(s, model, execute, prompt, topic);
      LoopKeepsTranscript(Turn(s, model, execute), maxIterations, model, execute, prompt, topic);
    }
  }

  /** Every session's transcript opens with the system prompt and the topic, then answered turns. */
  lemma {:induction false} SessionTranscript(prompt: string, topic: string, cfg: AgentConfig, env: Environment)
    ensures WellFormedTranscript(FinalSession(prompt, topic, cfg, env).messages, prompt, topic)
  {
    var init := InitialSession(prompt, topic);
    assert init.messages[2..] == [];
    LoopKeepsTranscript(init, cfg.maxIterations, env.model, RegistryExecutor(cfg.maxSearchResults, env.network), prompt, topic);
  }

  /** A report in the session is the text of a compiled report answered in its transcript. */
  predicate ReportFromTranscript(s: Session) {
    s.report.Some? ==> CompiledIn(s.messages, s.report.value)
  }

  lemma {:induction false} TurnKeepsReportSource(s: Session, model: (nat, seq<Message>) -> ModelResponse, execute: Executor)
    requires CompilesReports(execute)
    requires ReportFromTranscript(s)
    ensures ReportFromTranscript(Turn(s, model, execute))
  {
    var t := Turn(s, model, execute);
    var response := model(s.iteration + 1, s.messages);
    if response.ModelReply? && t.report.Some? {
      var calls := response.toolCalls;
      var transcript := s.messages + [AssistantMessage(response.content, calls)];
      var v := t.report.value;
      if calls == [] {
        CompiledInLeft(s.messages, [AssistantMessage(response.content, calls)], v);
      } else {
        var out := ProcessCalls(calls, s.iteration + 1, execute, s.notes, s.report);
        ProcessCallsReportSource(calls, s.iteration + 1, execute, s.notes, s.report);
        assert t.messages == transcript + out.messages && t.report == out.report;
        if out.report == s.report {
          CompiledInLeft(s.messages, [AssistantMessage(response.content, calls)], v);
          CompiledInLeft(transcript, out.messages, v);
        } else {
          CompiledInRight(transcript, out.messages, v);
        }
      }
    }
  }

  lemma {:induction false} LoopKeepsReportSource(s: Session, maxIterations: int, model: (nat, seq<Message>) -> ModelResponse, execute: Executor)
    requires CompilesReports(execute)
    requires ReportFromTranscript(s)
    ensures ReportFromTranscript(Loop(s, maxIterations, model, execute))
    decreases if s.iteration < maxIterations then maxIterations - s.iteration else 0
  {
    if s.running && s.iteration < maxIterations {
      TurnKeepsReportSource(s, model, execute);
      LoopKeepsReportSource(Turn(s, model, execute), maxIterations, model, execute);
    }
  }

  /**
   * The return value: the compiled report if one was captured, and then it
   * is the text of a compiled report answered in the transcript; otherwise
   * the partial report if the counter reached `max_iterations`; otherwise
   * "No report was generated.". It is never empty.
   */
  lemma {:induction false} ResearchOutcome(prompt: string, topic: string, cfg: AgentConfig, env: Environment)
    ensures var l := RunLoop(prompt, topic, cfg, env);
      var r := ResearchResult(prompt, topic, cfg, env);
      && r != ""
      && (Present(l.report) ==>
            && r == l.report.value && CompiledIn(l.messages, r))
      && (!Present(l.report) && l.iteration >= cfg.maxIterations ==> r == PartialReport(cfg.maxIterations, l.notes))
      && (!Present(l.report) && l.iteration < cfg.maxIterations ==> r == NoReportMessage)
  {
    var execute := RegistryExecutor(cfg.maxSearchResults, env.network);
    RegistryCompilesReports(cfg.maxSearchResults, env.network);
    LoopKeepsReportSource(InitialSession(prompt, topic), cfg.maxIterations, env.model, execute);
    var l := RunLoop(prompt, topic, cfg, env);
    PartialReportContents(cfg.maxIterations, l.notes);
  }

  // ---------------------------------------------------------------------
  // Whole sessions
  // ---------------------------------------------------------------------

  /**
   * A budget of one iteration and a first reply without tool calls end the
   * session with the partial report saying that no notes were saved.
   */
  lemma {:induction false} SingleTurnWithoutCalls(prompt: string, topic: string, cfg: AgentConfig, env: Environment)
    requires cfg.maxIterations == 1
    requires env.model(1, InitialMessages(prompt, topic)).ModelReply?
    requires env.model(1, InitialMessages(prompt, topic)).toolCalls == []
    ensures ResearchResult(prompt, topic, cfg, env) == PartialReport(1, [])
  {
    var execute := RegistryExecutor(cfg.maxSearchResults, env.network);
    var init := InitialSession(prompt, topic);
    var t := Turn(init, env.model, execute);
    assert !t.running && t.iteration == 1 && t.notes == [] && t.report == None;
    assert Loop(t, cfg.maxIterations, env.model, execute) == t;
    assert RunLoop(prompt, topic, cfg, env) == t;
    PartialReportContents(1, []);
  }

  /**
   * A model that stops early (an error, or a reply without tool calls, on
   * the first of several iterations) leaves no report: the partial report
   * is only for a counter that reached the budget.
   */
  lemma {:induction false} EarlyStopWithoutReport(prompt: string, topic: string, cfg: AgentConfig, env: Environment)
    requires cfg.maxIterations > 1
    requires env.model(1, InitialMessages(prompt, topic)).ModelError?
      || env.model(1, InitialMessages(prompt, topic)).toolCalls == []
    ensures RunLoop(prompt, topic, cfg, env).iteration == 1
    ensures ResearchResult(prompt, topic, cfg, env) == NoReportMessage
  {
    var execute := RegistryExecutor(cfg.maxSearchResults, env.network);
    var t := Turn(InitialSession(prompt, topic), env.model, execute);
    assert !t.running && t.iteration == 1 && t.report == None;
    assert Loop(t, cfg.maxIterations, env.model, execute) == t;
    assert RunLoop(prompt, topic, cfg, env) == t;
  }

  /** A model error on the only iteration still gives the partial report: the counter reached the budget. */
  lemma {:induction false} ErrorOnLastIteration(prompt: string, topic: string, cfg: AgentConfig, env: Environment)
    requires cfg.maxIterations == 1
    requires env.model(1, InitialMessages(prompt, topic)).ModelError?
    ensures RunLoop(prompt, topic, cfg, env).messages == InitialMessages(prompt, topic)
    ensures ResearchResult(prompt, topic, cfg, env) == PartialReport(1, [])
  {
    var execute := RegistryExecutor(cfg.maxSearchResults, env.network);
    var t := Turn(InitialSession(prompt, topic), env.model, execute);
    assert !t.running && t.iteration == 1 && t.notes == [] && t.report == None;
    assert Loop(t, cfg.maxIterations, env.model, execute) == t;
    assert RunLoop(prompt, topic, cfg, env) == t;
    PartialReportContents(1, []);
  }

  /** A budget of zero or less never asks the model and returns the partial report of an empty ledger. */
  lemma {:induction false} NoBudget(prompt: string, topic: string, cfg: AgentConfig, env: Environment)
    requires cfg.maxIterations <= 0
    ensures RunLoop(prompt, topic, cfg, env) == InitialSession(prompt, topic)
    ensures ResearchResult(prompt, topic, cfg, env) == PartialReport(cfg.maxIterations, [])
  {
    PartialReportContents(cfg.maxIterations, []);
  }

  /**
   * A first reply that calls `compile_report` with its four fields ends the
   * session after that one iteration, returning the compiled report of the
   * (empty) ledger.
   */
  lemma {:induction false} FirstTurnCompiles(prompt: string, topic: string, cfg: AgentConfig, env: Environment, id: string, content: Option<string>, fields: map<string, string>)
    requires cfg.maxIterations >= 1
    requires fields.Keys == {"title", "summary", "detailed_findings", "conclusion"}
    requires env.model(1, InitialMessages(prompt, topic)) == ModelReply(content, [ToolCall(id, "compile_report", JsonObject(fields))])
    ensures RunLoop(prompt, topic, cfg, env).iteration == 1
    ensures ResearchResult(prompt, topic, cfg, env)
      == RenderReport(fields["title"], fields["summary"], fields["detailed_findings"], fields["conclusion"], [])
  {
    var call := ToolCall(id, "compile_report", JsonObject(fields));
    var calls := [call];
    var execute := RegistryExecutor(cfg.maxSearchResults, env.network);
    var e := Dispatch([], cfg.maxSearchResults, "compile_report", fields, env.network(1, 0));
    CompileReportSucceeds([], cfg.maxSearchResults, fields, env.network(1, 0));
    RegistryExecutorRuns(cfg.maxSearchResults, env.network, 1, call, 0, []);
    assert calls[..0] == [];
    var report := RenderReport(fields["title"], fields["summary"], fields["detailed_findings"], fields["conclusion"], []);
    assert e.result.ReportField() == Some(report);
    var out := ProcessCalls(calls, 1, execute, [], None);
    assert ProcessCalls(calls[..0], 1, execute, [], None) == CallsOutcome([], [], None);
    assert call.name == CompileReportTool.Name() && e.result.Success();
    assert out.report == Some(report);
    assert report != "" by {
      assert report == ReportHeader(fields["title"], fields["summary"], fields["detailed_findings"], fields["conclusion"])
        + NumberedNotes([]) + ReportFooter();
      assert |ReportHeader(fields["title"], fields["summary"], fields["detailed_findings"], fields["conclusion"])| > 0;
    }
    var t := Turn(InitialSession(prompt, topic), env.model, execute);
    assert t.report == Some(report) && !t.running;
    assert Loop(t, cfg.maxIterations, env.model, execute) == t;
    assert RunLoop(prompt, topic, cfg, env) == t;
  }

  // ---------------------------------------------------------------------
  // The agent object
  // ---------------------------------------------------------------------

  /** `ResearchAgent`: the transcript and report of the current session, and the registry it drives. */
  class ResearchAgent {
    const config: AgentConfig
    /** `SYSTEM_PROMPT`, as the instance reads it. */
    const systemPrompt: string
    const tools: ToolRegistry
    var messages: seq<Message>
    var report: Option<string>

    /** The registry was built with the configured result cap. */
    predicate Valid()
      reads tools
    {
      tools.maxSearchResults == config.maxSearchResults
    }

    constructor (config: AgentConfig)
      ensures this.config == config && systemPrompt == SystemPrompt && fresh(tools) && Valid()
      ensures tools.notes == [] && messages == [] && report == None
    {
      this.config := config;
      systemPrompt := SystemPrompt;
      tools := new ToolRegistry(config.maxSearchResults);
      messages := [];
      report := None;
    }

    /** `_process_tool_calls`: run the calls in order through `execute`, one tool message each. */
    method ProcessToolCalls(calls: seq<ToolCall>, turn: nat, network: (nat, nat) -> World) returns (results: seq<Message>)
      requires Valid()
      modifies this, tools
      ensures CallsOutcome(results, tools.notes, report)
        == ProcessCalls(calls, turn, RegistryExecutor(config.maxSearchResults, network), old(tools.notes), old(report))
      ensures messages == old(messages)
    {
      ghost var execute := RegistryExecutor(config.maxSearchResults, network);
      results := [];
      for i := 0 to |calls|
        invariant CallsOutcome(results, tools.notes, report) == ProcessCalls(calls[..i], turn, execute, old(tools.notes), old(report))
        invariant messages == old(messages)
      {
        assert calls[..i + 1][..i] == calls[..i];
        var call := calls[i];
        var arguments := DecodeArguments(call.arguments);
        ghost var ledger := tools.notes;
        var result := tools.Execute(call.name, arguments, network(turn, i));
        assert Effect(result, tools.notes) == execute(turn, call, i, ledger);
        if call.name == CompileReportTool.Name() && result.Success() {
          report := result.ReportField();
        }
        results := results + [ToolMessage(call.id, result)];
      }
      assert calls[..|calls|] == calls;
    }

    /**
     * One pass of the loop body of `research`, after the counter's
     * increment: ask the model, record its reply, run its tool calls; `stop`
     * is whether the loop breaks.
     */
    method TakeTurn(iteration: nat, env: Environment) returns (stop: bool)
      requires Valid() && iteration >= 1
      modifies this, tools
      ensures Valid()
      ensures Session(messages, tools.notes, report, iteration, !stop)
        == Turn(Session(old(messages), old(tools.notes), old(report), iteration - 1, true),
                env.model, RegistryExecutor(config.maxSearchResults, env.network))
    {
      ghost var before := Session(messages, tools.notes, report, iteration - 1, true);
      ghost var execute := RegistryExecutor(config.maxSearchResults, env.network);
      var response := env.model(iteration, messages);
      if response.ModelError? {
        TurnAfterError(before, env.model, execute);
        return true;
      }
      messages := messages + [AssistantMessage(response.content, response.toolCalls)];
      if response.toolCalls == [] {
        TurnWithoutCalls(before, env.model, execute);
        return true;
      }
      var toolResults := ProcessToolCalls(response.toolCalls, iteration, env.network);
      messages := messages + toolResults;
      TurnWithCalls(before, env.model, execute);
      stop := Present(report);
    }

    /** `research`: reset the session, run the bounded loop, then decide the return value. */
    method Research(topic: string, env: Environment) returns (result: string)
      requires Valid()
      modifies this, tools
      ensures Valid()
      ensures var f := FinalSession(systemPrompt, topic, config, env);
        messages == f.messages && tools.notes == f.notes && report == f.report
      ensures result == ResearchResult(systemPrompt, topic, config, env)
    {
      messages := InitialMessages(systemPrompt, topic);
      tools.ClearNotes();
      report := None;
      var iteration: nat := 0;
      var maxIterations := config.maxIterations;
      ghost var execute := RegistryExecutor(config.maxSearchResults, env.network);
      ghost var final := RunLoop(systemPrompt, topic, config, env);
      while iteration < maxIterations
        invariant Valid()
        invariant Loop(Session(messages, tools.notes, report, iteration, true), maxIterations, env.model, execute) == final
        decreases maxIterations - iteration
      {
        iteration := iteration + 1;
        var stop := TakeTurn(iteration, env);
        if stop {
          break;
        }
      }
      assert messages == final.messages && tools.notes == final.notes && report == final.report
        && iteration == final.iteration;
      ghost var concluded := Conclude(final, maxIterations);
      assert concluded == FinalSession(systemPrompt, topic, config, env);
      if iteration >= maxIterations && !Present(report) {
        var notes := tools.GetNotes();
        report := Some(PartialReport(maxIterations, notes));
      }
      assert report == concluded.report;
      result := if Present(report) then report.value else NoReportMessage;
    }
  }
}
