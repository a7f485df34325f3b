/** services/geminiService.js: the retrying model invoker, the persona
    instructions, and the quick and deep research pipelines.

    The model client is an oracle: each logical model call is given the
    sequence of outcomes its successive attempts would meet. The 2000 ms
    pause between attempts is counted, not timed, and the arXiv and GitHub
    HTTP responses are inputs (see module Tools). */
module Gemini {
  import opened Common
  import opened Strings
  import opened Tools

  /** Default number of attempts of `callModelWithRetry`. */
  const Retries: nat := 3
  /** Pause before a repeated attempt, in milliseconds. */
  const RetryDelayMs: nat := 2000
  /** Characters of memory context passed on to the final prompt. */
  const MemoryBudget: nat := 3000
  /** Memory shorter than this is weak and the external tools are run. */
  const StrongMemoryLength: nat := 500

  datatype UsageMetadata = UsageMetadata(totalTokenCount: Option<nat>)

  /** A model response: its text and, when the service sent it, its usage. */
  datatype Reply = Reply(text: string, usageMetadata: Option<UsageMetadata>)

  /** What `callModelWithRetry` yields: a response, a thrown error, or
      `undefined` when its loop runs zero times. */
  datatype CallResult = Returned(reply: Reply) | Threw(error: Error) | Undefined

  /** A finished call: its result, how many attempts it made, how many
      times it paused. */
  datatype RetryRun = RetryRun(result: CallResult, attempts: nat, waits: nat)

  /** Rate limited (429) or temporarily unavailable (503). */
  predicate Retryable(e: Error) {
    e.status == Some(503) || e.status == Some(429)
  }

  // ===========================================================
  // Retry wrapper
  // ===========================================================

  /** The retry loop from attempt `i` on. */
  function RetryFrom(oracle: seq<Result<Reply>>, retries: nat, i: nat): RetryRun
    requires retries <= |oracle| && i <= retries
    decreases retries - i
  {
    if i == retries then RetryRun(Undefined, 0, 0)
    else match oracle[i]
      case Ok(reply) => RetryRun(Returned(reply), 1, 0)
      case Err(e) =>
        if Retryable(e) && i < retries - 1 then
          var rest := RetryFrom(oracle, retries, i + 1);
          RetryRun(rest.result, rest.attempts + 1, rest.waits + 1)
        else RetryRun(Threw(e), 1, 0)
  }

  /** `callModelWithRetry(config, retries)` against the outcomes `oracle`
      lists for its attempts. */
  function Retry(oracle: seq<Result<Reply>>, retries: nat): RetryRun
    requires retries <= |oracle|
  {
    RetryFrom(oracle, retries, 0)
  }

  lemma {:induction false} RetryFromFacts(oracle: seq<Result<Reply>>, retries: nat, i: nat)
    requires retries <= |oracle| && i <= retries
    decreases retries - i
    ensures var run := RetryFrom(oracle, retries, i);
      && i + run.attempts <= retries
      && (run.attempts == 0 <==> i == retries)
      && (run.result.Undefined? <==> i == retries)
      && run.waits == (if run.attempts == 0 then 0 else run.attempts - 1)
      && (forall j :: i <= j < i + run.attempts - 1 ==> oracle[j].Err? && Retryable(oracle[j].error))
      && (run.result.Returned? ==> run.attempts > 0 && oracle[i + run.attempts - 1] == Ok(run.result.reply))
      && (run.result.Threw? ==>
            && run.attempts > 0
            && oracle[i + run.attempts - 1] == Err(run.result.error)
            && (!Retryable(run.result.error) || i + run.attempts == retries))
  {
    if i < retries && oracle[i].Err? && Retryable(oracle[i].error) && i < retries - 1 {
      RetryFromFacts(oracle, retries, i + 1);
    }
  }

  /** Everything the retry loop promises. It makes at most `retries`
      attempts (none only when `retries` is 0, which yields `undefined`);
      it pauses once before every attempt but the first; every attempt
      before the last failed with a retryable status; a response is the
      last attempt's; a thrown error is the last attempt's, and is either
      not retryable or came from the final permitted attempt. */
  lemma RetryFacts(oracle: seq<Result<Reply>>, retries: nat)
    requires retries <= |oracle|
    ensures var run := Retry(oracle, retries);
      && run.attempts <= retries
      && (run.attempts == 0 <==> retries == 0)
      && (run.result.Undefined? <==> retries == 0)
      && run.waits == (if run.attempts == 0 then 0 else run.attempts - 1)
      && (forall j :: 0 <= j < run.attempts - 1 ==> oracle[j].Err? && Retryable(oracle[j].error))
      && (run.result.Returned? ==> run.attempts > 0 && oracle[run.attempts - 1] == Ok(run.result.reply))
      && (run.result.Threw? ==>
            && run.attempts > 0
            && oracle[run.attempts - 1] == Err(run.result.error)
            && (!Retryable(run.result.error) || run.attempts == retries))
  {
    RetryFromFacts(oracle, retries, 0);
  }

  /** What a deciding attempt makes of the call. */
  function Decided(outcome: Result<Reply>): CallResult {
    match outcome
    case Ok(reply) => Returned(reply)
    case Err(e) => Threw(e)
  }

  /** Attempt `k` decides the call when it succeeds, fails with a status
      that is not retried, or is the last one permitted; if every earlier
      attempt failed with a retryable status, the call ends with it after
      k + 1 attempts and k pauses. */
  lemma {:induction false} RetryFromDecidedBy(oracle: seq<Result<Reply>>, retries: nat, i: nat, k: nat)
    requires retries <= |oracle| && i <= k < retries
    requires forall j :: i <= j < k ==> oracle[j].Err? && Retryable(oracle[j].error)
    requires oracle[k].Ok? || !Retryable(oracle[k].error) || k == retries - 1
    ensures RetryFrom(oracle, retries, i) == RetryRun(Decided(oracle[k]), k + 1 - i, k - i)
    decreases k - i
  {
    if i < k {
      RetryFromDecidedBy(oracle, retries, i + 1, k);
    }
  }

  lemma RetryDecidedBy(oracle: seq<Result<Reply>>, retries: nat, k: nat)
    requires retries <= |oracle| && k < retries
    requires forall j :: 0 <= j < k ==> oracle[j].Err? && Retryable(oracle[j].error)
    requires oracle[k].Ok? || !Retryable(oracle[k].error) || k == retries - 1
    ensures Retry(oracle, retries) == RetryRun(Decided(oracle[k]), k + 1, k)
  {
    RetryFromDecidedBy(oracle, retries, 0, k);
  }

  /** Three 503 responses in a row: three attempts, two pauses, and the
      third error is thrown. */
  lemma ThreeUnavailable(e1: Error, e2: Error, e3: Error, later: seq<Result<Reply>>)
    requires e1.status == Some(503) && e2.status == Some(503) && e3.status == Some(503)
    ensures Retry([Err(e1), Err(e2), Err(e3)] + later, Retries) == RetryRun(Threw(e3), 3, 2)
  {
    RetryDecidedBy([Err(e1), Err(e2), Err(e3)] + later, Retries, 2);
  }

  /** `callModelWithRetry`: try, and on a 503 or 429 with attempts left,
      pause and try again; return the first response, rethrow anything
      else. */
  method CallModelWithRetry(oracle: seq<Result<Reply>>, retries: nat) returns (result: CallResult, attempts: nat, waits: nat)
    requires retries <= |oracle|
    ensures RetryRun(result, attempts, waits) == Retry(oracle, retries)
  {
    result, attempts, waits := Undefined, 0, 0;
    var i := 0;
    while i < retries
      invariant i <= retries && attempts == i && waits == i
      invariant var rest := RetryFrom(oracle, retries, i);
        Retry(oracle, retries) == RetryRun(rest.result, rest.attempts + i, rest.waits + i)
    {
      attempts := attempts + 1;
      match oracle[i] {
        case Ok(reply) =>
          result := Returned(reply);
          return;
        case Err(e) =>
          if Retryable(e) && i < retries - 1 {
            waits := waits + 1;
          } else {
            result := Threw(e);
            return;
          }
      }
      i := i + 1;
    }
  }

  /** What an `await` of the call gives the caller: reading `.text` of
      `undefined` throws a TypeError. */
  function Awaited(r: CallResult): (out: Result<Reply>)
    ensures r.Returned? <==> out.Ok?
    ensures r.Returned? ==> out.value == r.reply
    ensures r.Threw? ==> out == Err(r.error)
    ensures r.Undefined? ==> out == Err(Error(None, "Cannot read properties of undefined (reading 'text')"))
  {
    match r
    case Returned(reply) => Ok(reply)
    case Threw(e) => Err(e)
    case Undefined => Err(Error(None, "Cannot read properties of undefined (reading 'text')"))
  }

  // ===========================================================
  // Personas
  // ===========================================================

  const ArchitectInstruction: string :=
    "\nYou are a senior distributed systems architect.\n\nFocus on:\n- Architecture layers\n"
    + "- Control-plane/data-plane separation\n- Infrastructure constraints\n- Scaling bottlenecks\n"
    + "- Performance trade-offs\n- Observability strategy\n- Operational risks\n\nAvoid:\n"
    + "- Academic survey framing\n- Startup ROI language\n"

  const AnalystInstruction: string :=
    "\nYou are a research analyst writing a structured technical survey.\n\nFocus on:\n"
    + "- Theoretical framing\n- Comparative models\n- Formal trade-offs\n- System limitations\n"
    + "- Research gaps\n- Future directions\n\nAvoid:\n- DevOps tuning advice\n"
    + "- Business or ROI language\n"

  const StrategistInstruction: string :=
    "\nYou are a technology strategy lead preparing an executive briefing.\n\nFocus on:\n"
    + "- Competitive advantage\n- ROI implications\n- Cost structure\n- Talent ecosystem\n"
    + "- Vendor lock-in risk\n- Adoption complexity\n\nAvoid:\n- Low-level system internals\n"
    + "- Distributed systems theory\n"

  /** `getPersonaInstruction`: one of the three instruction texts, the
      architect's for any tag it does not know, reached by one recursive
      call. */
  function PersonaInstruction(persona: string): (r: string)
    decreases if persona == "architect" then 0 else 1
    ensures r == ArchitectInstruction || r == AnalystInstruction || r == StrategistInstruction
    ensures persona != "analyst" && persona != "strategist" ==> r == ArchitectInstruction
  {
    if persona == "architect" then ArchitectInstruction
    else if persona == "analyst" then AnalystInstruction
    else if persona == "strategist" then StrategistInstruction
    else PersonaInstruction("architect")
  }

  /** The three texts are distinct, so the instruction tells which persona
      was asked for: the analyst's and the strategist's text exactly for
      their own tags, the architect's for every other tag. */
  lemma PersonaResolution(persona: string)
    ensures PersonaInstruction(persona) == AnalystInstruction <==> persona == "analyst"
    ensures PersonaInstruction(persona) == StrategistInstruction <==> persona == "strategist"
    ensures PersonaInstruction(persona) == ArchitectInstruction <==> persona != "analyst" && persona != "strategist"
  {
    assert |ArchitectInstruction| == 298 && |AnalystInstruction| == 256 && |StrategistInstruction| == 269;
  }

  /** The persona the research functions use: their default "architect"
      when the request gave none. */
  function ResolvePersona(persona: Option<string>): (r: string)
    ensures r == AnalystInstruction <==> persona == Some("analyst")
    ensures r == StrategistInstruction <==> persona == Some("strategist")
    ensures r == ArchitectInstruction <==> persona != Some("analyst") && persona != Some("strategist")
  {
    var tag := persona.GetOr("architect");
    assert tag == "analyst" <==> persona == Some("analyst");
    assert tag == "strategist" <==> persona == Some("strategist");
    PersonaResolution(tag);
    PersonaInstruction(tag)
  }

  // ===========================================================
  // Results and prompts
  // ===========================================================

  datatype ToolSummary = ToolSummary(arxivCount: nat, githubCount: nat)

  datatype Reasoning = Reasoning(analysis: string, toolSummary: ToolSummary)

  /** `{answer, usage, reasoning}`; quick mode has no reasoning, and its
      usage is the response's usage metadata or none. */
  datatype Report = Report(answer: string, usage: Option<UsageMetadata>, reasoning: Option<Reasoning>)

  /** A prompt, by the values its template is filled with; `PromptText`
      gives the text sent to the model. */
  datatype Prompt =
    | QuickPrompt(instruction: string, query: string)
    | AnalysisPrompt(instruction: string, query: string)
    | FinalPrompt(instruction: string, analysis: string, memory: string, papers: seq<Paper>, repos: seq<Repo>, query: string)

  /** The steps a research run takes, in order. */
  datatype Step = ModelCall(prompt: Prompt, attempts: nat) | ArxivSearch(query: string) | GitHubSearch(query: string)

  /** A research run: its report or the error it threw, and its steps. */
  datatype Run = Run(result: Result<Report>, trace: seq<Step>)

  function PaperLines(papers: seq<Paper>): seq<string> {
    if papers == [] then [] else ["- " + papers[0].title] + PaperLines(papers[1..])
  }

  function RepoLines(repos: seq<Repo>): seq<string> {
    if repos == [] then []
    else ["- " + repos[0].name + " (" + NatToString(repos[0].stars) + "\U{2B50})"] + RepoLines(repos[1..])
  }

  /** The external-research section of the final prompt. */
  function ToolContext(papers: seq<Paper>, repos: seq<Repo>): string {
    "\narXiv Papers:\n" + Join(PaperLines(papers), "\n")
    + "\n\nGitHub Repositories:\n" + Join(RepoLines(repos), "\n") + "\n"
  }

  const FinalHead := "\nYou are a senior research assistant.\n\n"
  const FinalBeforeAnalysis := "\n\nUse:\n\nAnalytical Breakdown:\n"
  const FinalBeforeMemory := "\n\nMemory Context:\n"
  const FinalBeforeTools := "\n\nExternal Research:\n"
  const FinalBeforeQuery :=
    "\n\nGenerate a structured report.\n\nEnd with:\nConfidence Score (0\U{2013}100%)\n\nResearch Question:\n"

  function FinalText(instruction: string, analysis: string, memory: string, tools: string, query: string): string {
    FinalHead + instruction + FinalBeforeAnalysis + analysis + FinalBeforeMemory + memory
    + FinalBeforeTools + tools + FinalBeforeQuery + query + "\n"
  }

  /** The text of a prompt, as its template literal renders it. */
  function PromptText(p: Prompt): string {
    match p
    case QuickPrompt(instruction, query) =>
      "\nYou are a high-performance research assistant.\n\n" + instruction
      + "\n\nProvide a concise structured answer (max 600 words).\n\nQuery:\n" + query + "\n"
    case AnalysisPrompt(instruction, query) =>
      "\nYou are a research planner.\n\n" + instruction
      + "\n\nBreak the research question into:\n- Core themes\n- Comparative axes\n- Risk dimensions\n"
      + "- Failure scenarios\n\nResearch Question:\n" + query + "\n"
    case FinalPrompt(instruction, analysis, memory, papers, repos, query) =>
      FinalText(instruction, analysis, memory, ToolContext(papers, repos), query)
  }

  /** The final prompt carries the persona, the analysis, the memory
      context, the external research and the question. */
  lemma FinalTextContains(instruction: string, analysis: string, memory: string, tools: string, query: string)
    ensures var p := FinalText(instruction, analysis, memory, tools, query);
      IsInfix(instruction, p) && IsInfix(analysis, p) && IsInfix(memory, p) && IsInfix(tools, p) && IsInfix(query, p)
  {
    var s1 := FinalHead + instruction;
    var s2 := s1 + FinalBeforeAnalysis;
    var s3 := s2 + analysis;
    var s4 := s3 + FinalBeforeMemory;
    var s5 := s4 + memory;
    var s6 := s5 + FinalBeforeTools;
    var s7 := s6 + tools;
    var s8 := s7 + FinalBeforeQuery;
    var s9 := s8 + query;
    var s10 := s9 + "\n";
    InfixSelf(instruction);
    InfixRight(instruction, FinalHead, instruction);
    InfixLeft(instruction, s1, FinalBeforeAnalysis);
    InfixLeft(instruction, s2, analysis);
    InfixSelf(analysis);
    InfixRight(analysis, s2, analysis);
    InfixLeft(instruction, s3, FinalBeforeMemory);
    InfixLeft(analysis, s3, FinalBeforeMemory);
    InfixLeft(instruction, s4, memory);
    InfixLeft(analysis, s4, memory);
    InfixSelf(memory);
    InfixRight(memory, s4, memory);
    InfixLeft(instruction, s5, FinalBeforeTools);
    InfixLeft(analysis, s5, FinalBeforeTools);
    InfixLeft(memory, s5, FinalBeforeTools);
    InfixLeft(instruction, s6, tools);
    InfixLeft(analysis, s6, tools);
    InfixLeft(memory, s6, tools);
    InfixSelf(tools);
    InfixRight(tools, s6, tools);
    InfixLeft(instruction, s7, FinalBeforeQuery);
    InfixLeft(analysis, s7, FinalBeforeQuery);
    InfixLeft(memory, s7, FinalBeforeQuery);
    InfixLeft(tools, s7, FinalBeforeQuery);
    InfixLeft(instruction, s8, query);
    InfixLeft(analysis, s8, query);
    InfixLeft(memory, s8, query);
    InfixLeft(tools, s8, query);
    InfixSelf(query);
    InfixRight(query, s8, query);
    InfixLeft(instruction, s9, "\n");
    InfixLeft(analysis, s9, "\n");
    InfixLeft(memory, s9, "\n");
    InfixLeft(tools, s9, "\n");
    InfixLeft(query, s9, "\n");
  }

  /** `usageMetadata?.totalTokenCount || 0`. */
  function TokenCount(usage: Option<UsageMetadata>): (n: nat)
    ensures usage.None? || usage.value.totalTokenCount.None? ==> n == 0
    ensures usage.Some? && usage.value.totalTokenCount.Some? ==> n == usage.value.totalTokenCount.value
  {
    match usage
    case None => 0
    case Some(m) => m.totalTokenCount.GetOr(0)
  }

  /** `memoryContext ? memoryContext.substring(0, 3000) : ""`: the first
      3000 characters of the memory context, all of it when shorter. */
  function SafeMemory(memoryContext: string): (r: string)
    ensures |r| == Min(|memoryContext|, MemoryBudget)
    ensures r == memoryContext[..|r|]
  {
    if memoryContext == "" then "" else Prefix(memoryContext, MemoryBudget)
  }

  /** `!safeMemory || safeMemory.length < 500`: memory is weak. The empty
      string is already under 500 characters. */
  predicate ToolsNeeded(safeMemory: string)
    ensures ToolsNeeded(safeMemory) <==> |safeMemory| < StrongMemoryLength
  {
    safeMemory == "" || |safeMemory| < StrongMemoryLength
  }

  /** Truncating to 3000 characters never changes the decision: the tools
      run exactly when the memory context itself is under 500 characters. */
  lemma ToolDecision(memoryContext: string)
    ensures ToolsNeeded(SafeMemory(memoryContext)) <==> |memoryContext| < StrongMemoryLength
  {
  }

  // ===========================================================
  // Quick mode
  // ===========================================================

  /** `runQuickResearch(query, persona)`: one model call; its text is the
      answer and its usage metadata, if any, the usage. */
  function QuickResearch(query: string, persona: Option<string>, oracle: seq<Result<Reply>>): (run: Run)
    requires Retries <= |oracle|
    ensures run.trace == [ModelCall(QuickPrompt(ResolvePersona(persona), query), Retry(oracle, Retries).attempts)]
    ensures 1 <= Retry(oracle, Retries).attempts <= Retries
    ensures run.result.Ok? <==> Retry(oracle, Retries).result.Returned?
    ensures run.result.Ok? ==>
      var reply := Retry(oracle, Retries).result.reply;
      run.result.value == Report(reply.text, reply.usageMetadata, None)
    ensures run.result.Err? ==> Retry(oracle, Retries).result == Threw(run.result.error)
  {
    RetryFacts(oracle, Retries);
    var call := Retry(oracle, Retries);
    var trace := [ModelCall(QuickPrompt(ResolvePersona(persona), query), call.attempts)];
    match Awaited(call.result)
    case Err(e) => Run(Err(e), trace)
    case Ok(response) => Run(Ok(Report(response.text, response.usageMetadata, None)), trace)
  }

  method RunQuickResearch(query: string, persona: Option<string>, oracle: seq<Result<Reply>>) returns (result: Result<Report>, trace: seq<Step>)
    requires Retries <= |oracle|
    ensures Run(result, trace) == QuickResearch(query, persona, oracle)
  {
    var personaInstruction := ResolvePersona(persona);
    var response, attempts, _ := CallModelWithRetry(oracle, Retries);
    trace := [ModelCall(QuickPrompt(personaInstruction, query), attempts)];
    match Awaited(response) {
      case Err(e) =>
        result := Err(e);
      case Ok(reply) =>
        result := Ok(Report(reply.text, reply.usageMetadata, None));
    }
  }

  // ===========================================================
  // Deep mode
  // ===========================================================

  /** The outside world of one deep run: the attempts of the analysis and
      of the final model call, and the two tool responses. */
  datatype DeepOracle = DeepOracle(
    analysis: seq<Result<Reply>>,
    final: seq<Result<Reply>>,
    arxiv: Result<string>,
    github: Result<seq<RepoItem>>)

  predicate DeepOracleValid(o: DeepOracle) {
    Retries <= |o.analysis| && Retries <= |o.final|
  }

  /** A deep run once the analysis call has answered: the tools (when
      memory is weak), then the final call. */
  function DeepAfterAnalysis(query: string, instruction: string, safeMemory: string, analysis: Reply, o: DeepOracle): Run
    requires DeepOracleValid(o)
  {
    var tools := ToolsNeeded(safeMemory);
    var papers := if tools then SearchArxiv(o.arxiv) else [];
    var repos := if tools then SearchGitHub(o.github) else [];
    var finalCall := Retry(o.final, Retries);
    var trace := (if tools then [ArxivSearch(query), GitHubSearch(query)] else [])
      + [ModelCall(FinalPrompt(instruction, analysis.text, safeMemory, papers, repos, query), finalCall.attempts)];
    match Awaited(finalCall.result)
    case Err(e) => Run(Err(e), trace)
    case Ok(final) =>
      var total := TokenCount(analysis.usageMetadata) + TokenCount(final.usageMetadata);
      var reasoning := Reasoning(analysis.text, ToolSummary(|papers|, |repos|));
      Run(Ok(Report(final.text, Some(UsageMetadata(Some(total))), Some(reasoning))), trace)
  }

  /** `runDeepResearch(query, memoryContext, persona)`. */
  function DeepResearch(query: string, memoryContext: string, persona: Option<string>, o: DeepOracle): Run
    requires DeepOracleValid(o)
  {
    var instruction := ResolvePersona(persona);
    var analysisCall := Retry(o.analysis, Retries);
    var first := ModelCall(AnalysisPrompt(instruction, query), analysisCall.attempts);
    match Awaited(analysisCall.result)
    case Err(e) => Run(Err(e), [first])
    case Ok(analysis) =>
      var rest := DeepAfterAnalysis(query, instruction, SafeMemory(memoryContext), analysis, o);
      Run(rest.result, [first] + rest.trace)
  }

  /** The steps after the analysis: the two searches exactly when memory
      is weak, then the final call. */
  lemma AfterAnalysisSteps(query: string, instruction: string, safeMemory: string, analysis: Reply, o: DeepOracle)
    requires DeepOracleValid(o)
    ensures var rest := DeepAfterAnalysis(query, instruction, safeMemory, analysis, o);
      var f := Retry(o.final, Retries);
      var last := rest.trace[|rest.trace| - 1];
      && |rest.trace| >= 1
      && rest.trace == (if ToolsNeeded(safeMemory) then [ArxivSearch(query), GitHubSearch(query)] else []) + [last]
      && last.ModelCall? && last.attempts == f.attempts
      && last.prompt.FinalPrompt?
      && last.prompt.instruction == instruction
      && last.prompt.analysis == analysis.text
      && last.prompt.memory == safeMemory
      && last.prompt.papers == (if ToolsNeeded(safeMemory) then SearchArxiv(o.arxiv) else [])
      && last.prompt.repos == (if ToolsNeeded(safeMemory) then SearchGitHub(o.github) else [])
      && last.prompt.query == query
      && (rest.result.Ok? <==> f.result.Returned?)
      && (rest.result.Ok? ==> rest.result.value.answer == f.result.reply.text)
      && (rest.result.Err? ==> f.result == Threw(rest.result.error))
  {
    RetryFacts(o.final, Retries);
  }

  /** The order of a deep run. The analysis call comes first, and a failure
      there ends the run. Otherwise the arXiv and GitHub searches follow
      exactly when the memory context is under 500 characters, and the
      final call, whose prompt holds the analysis and the first 3000
      characters of memory, comes last: two model calls, each of at most
      three attempts. */
  lemma DeepCallOrder(query: string, memoryContext: string, persona: Option<string>, o: DeepOracle)
    requires DeepOracleValid(o)
    ensures var run := DeepResearch(query, memoryContext, persona, o);
      var instruction := ResolvePersona(persona);
      var a := Retry(o.analysis, Retries);
      var f := Retry(o.final, Retries);
      && 1 <= a.attempts <= Retries
      && 1 <= f.attempts <= Retries
      && run.trace[0] == ModelCall(AnalysisPrompt(instruction, query), a.attempts)
      && (!a.result.Returned? ==> |run.trace| == 1 && run.result.Err? && a.result == Threw(run.result.error))
      && (a.result.Returned? ==>
            var last := run.trace[|run.trace| - 1];
            && run.trace == [run.trace[0]]
                 + (if |memoryContext| < StrongMemoryLength then [ArxivSearch(query), GitHubSearch(query)] else [])
                 + [last]
            && last.ModelCall? && last.attempts == f.attempts
            && last.prompt.FinalPrompt?
            && last.prompt.instruction == instruction
            && last.prompt.analysis == a.result.reply.text
            && last.prompt.memory == SafeMemory(memoryContext)
            && last.prompt.query == query
            && (run.result.Ok? <==> f.result.Returned?)
            && (run.result.Ok? ==> run.result.value.answer == f.result.reply.text)
            && (run.result.Err? ==> f.result == Threw(run.result.error)))
  {
    RetryFacts(o.analysis, Retries);
    RetryFacts(o.final, Retries);
    ToolDecision(memoryContext);
    var a := Retry(o.analysis, Retries);
    if a.result.Returned? {
      AfterAnalysisSteps(query, ResolvePersona(persona), SafeMemory(memoryContext), a.result.reply, o);
    }
  }

  /** Once the analysis has answered, the final prompt carries the arXiv
      and GitHub results when the memory context is under 500 characters,
      and no results otherwise. */
  lemma DeepFinalPromptTools(query: string, memoryContext: string, persona: Option<string>, o: DeepOracle)
    requires DeepOracleValid(o)
    requires Retry(o.analysis, Retries).result.Returned?
    ensures var run := DeepResearch(query, memoryContext, persona, o);
      var last := run.trace[|run.trace| - 1];
      && last.ModelCall? && last.prompt.FinalPrompt?
      && last.prompt.papers == (if |memoryContext| < StrongMemoryLength then SearchArxiv(o.arxiv) else [])
      && last.prompt.repos == (if |memoryContext| < StrongMemoryLength then SearchGitHub(o.github) else [])
  {
    var a := Retry(o.analysis, Retries);
    ToolDecision(memoryContext);
    AfterAnalysisSteps(query, ResolvePersona(persona), SafeMemory(memoryContext), a.result.reply, o);
  }

  /** The tool searches run exactly when the memory context is under 500
      characters and the analysis succeeded (they come after it). When they
      are skipped both counts are 0; otherwise each count is the number of
      results its search returned. */
  lemma DeepToolSummary(query: string, memoryContext: string, persona: Option<string>, o: DeepOracle)
    requires DeepOracleValid(o)
    ensures var run := DeepResearch(query, memoryContext, persona, o);
      && (ArxivSearch(query) in run.trace <==> Retry(o.analysis, Retries).result.Returned? && |memoryContext| < StrongMemoryLength)
      && (GitHubSearch(query) in run.trace <==> ArxivSearch(query) in run.trace)
      && (run.result.Ok? ==>
            && run.result.value.reasoning.Some?
            && run.result.value.reasoning.value.toolSummary ==
                 if |memoryContext| < StrongMemoryLength
                 then ToolSummary(|SearchArxiv(o.arxiv)|, |SearchGitHub(o.github)|)
                 else ToolSummary(0, 0))
  {
    RetryFacts(o.analysis, Retries);
    ToolDecision(memoryContext);
  }

  /** The usage of a deep run is the sum of both model calls' token counts,
      a missing count counting as 0; the reasoning carries the analysis
      text. */
  lemma DeepUsage(query: string, memoryContext: string, persona: Option<string>, o: DeepOracle)
    requires DeepOracleValid(o)
    ensures var run := DeepResearch(query, memoryContext, persona, o);
      var a := Retry(o.analysis, Retries);
      var f := Retry(o.final, Retries);
      run.result.Ok? ==>
        && a.result.Returned? && f.result.Returned?
        && run.result.value.usage ==
             Some(UsageMetadata(Some(TokenCount(a.result.reply.usageMetadata) + TokenCount(f.result.reply.usageMetadata))))
        && run.result.value.reasoning.Some?
        && run.result.value.reasoning.value.analysis == a.result.reply.text
  {
  }

  method RunDeepResearch(query: string, memoryContext: string, persona: Option<string>, o: DeepOracle) returns (result: Result<Report>, trace: seq<Step>)
    requires DeepOracleValid(o)
    ensures Run(result, trace) == DeepResearch(query, memoryContext, persona, o)
  {
    var personaInstruction := ResolvePersona(persona);
    var safeMemory := SafeMemory(memoryContext);

    // Step 1: analytical breakdown.
    var analysisResult, analysisAttempts, _ := CallModelWithRetry(o.analysis, Retries);
    trace := [ModelCall(AnalysisPrompt(personaInstruction, query), analysisAttempts)];
    var analysisResponse;
    match Awaited(analysisResult) {
      case Err(e) =>
        result := Err(e);
        return;
      case Ok(reply) =>
        analysisResponse := reply;
    }
    var finalResult, laterSteps := FinishDeepResearch(query, personaInstruction, safeMemory, analysisResponse, o);
    result, trace := finalResult, trace + laterSteps;
  }

  /** The rest of `runDeepResearch` once the analysis has answered. */
  method FinishDeepResearch(query: string, personaInstruction: string, safeMemory: string, analysisResponse: Reply, o: DeepOracle)
    returns (result: Result<Report>, trace: seq<Step>)
    requires DeepOracleValid(o)
    ensures Run(result, trace) == DeepAfterAnalysis(query, personaInstruction, safeMemory, analysisResponse, o)
  {
    var analysis := analysisResponse.text;
    var arxivResults, githubResults;
    arxivResults, githubResults, trace := RunTools(query, safeMemory, o);

    // Step 2: final report.
    var prompt := FinalPrompt(personaInstruction, analysis, safeMemory, arxivResults, githubResults, query);
    var finalResult, finalAttempts, _ := CallModelWithRetry(o.final, Retries);
    trace := trace + [ModelCall(prompt, finalAttempts)];
    match Awaited(finalResult) {
      case Err(e) =>
        result := Err(e);
      case Ok(finalResponse) =>
        var total := TokenCount(analysisResponse.usageMetadata) + TokenCount(finalResponse.usageMetadata);
        var reasoning := Reasoning(analysis, ToolSummary(|arxivResults|, |githubResults|));
        result := Ok(Report(finalResponse.text, Some(UsageMetadata(Some(total))), Some(reasoning)));
    }
  }

  /** Tool execution, skipped when memory is strong. */
  method RunTools(query: string, safeMemory: string, o: DeepOracle) returns (papers: seq<Paper>, repos: seq<Repo>, trace: seq<Step>)
    ensures ToolsNeeded(safeMemory) ==>
      papers == SearchArxiv(o.arxiv) && repos == SearchGitHub(o.github) && trace == [ArxivSearch(query), GitHubSearch(query)]
    ensures !ToolsNeeded(safeMemory) ==> papers == [] && repos == [] && trace == []
  {
    papers, repos, trace := [], [], [];
    if safeMemory == "" || |safeMemory| < StrongMemoryLength {
      papers := SearchArxiv(o.arxiv);
      repos := SearchGitHub(o.github);
      trace := [ArxivSearch(query), GitHubSearch(query)];
    }
  }
}
