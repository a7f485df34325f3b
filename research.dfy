/** routes/research.js: the handler of `POST /`. It validates the query,
    runs quick research, or, in deep mode, looks up similar past reports,
    runs deep research on them, summarises the report and stores the
    summary; it answers with the report or a structured error.

    The vector memory is an oracle: the search and the store are given
    their outcomes. `Date.now()` is the input `now`. */
module Research {
  import opened Common
  import opened Strings
  import opened Gemini

  /** Least score of a past report that is passed on as memory. */
  const SimilarityThreshold: real := 0.75
  const MemorySeparator := "\n\n"

  /** The JSON body of the request; an absent or null field is `None`. */
  datatype Request = Request(query: Option<string>, mode: Option<string>, persona: Option<string>)

  datatype Payload = Payload(query: string, fullReport: string)

  /** One point returned by the memory search; a point returned without
      its payload has `None`. */
  datatype Hit = Hit(score: real, payload: Option<Payload>)

  /** The services the handler calls, in the order it calls them. */
  datatype Call =
    | MemorySearch(query: string)
    | DeepRun(query: string, memory: string, persona: Option<string>)
    | QuickRun(query: string, persona: Option<string>)
    | MemoryStore(id: nat, text: string, payload: Payload)

  /** The JSON body of the response. */
  datatype Body =
    | Answer(answer: string, usage: Option<UsageMetadata>, mode: string, reasoning: Option<Reasoning>)
    | Failure(error: string, details: Option<string>)

  /** What the outside world answers: the memory search, the deep run's
      model calls and tools, the quick call (the answer in quick mode, the
      summary in deep mode), the store, and the clock. */
  datatype Services = Services(
    search: Result<seq<Hit>>,
    deep: DeepOracle,
    quick: seq<Result<Reply>>,
    store: Result<()>,
    now: nat)

  predicate ServicesValid(s: Services) {
    DeepOracleValid(s.deep) && Retries <= |s.quick|
  }

  /** The handler's reply: HTTP status, body, and the services it called. */
  datatype Outcome = Outcome(status: nat, body: Body, calls: seq<Call>)

  /** A JavaScript string value is truthy when it is present and not "". */
  predicate Truthy(v: Option<string>) {
    v.Some? && v.value != ""
  }

  /** `mode || "quick"`: the request's mode when it is a non-empty string,
      so the echoed mode is never empty. */
  function EchoMode(mode: Option<string>): (r: string)
    ensures r != ""
    ensures r == "quick" || mode == Some(r)
  {
    if Truthy(mode) then mode.value else "quick"
  }

  /** The hits at or above the similarity threshold, in retrieved order. */
  function Relevant(hits: seq<Hit>): (r: seq<Hit>)
    ensures |r| <= |hits|
    ensures forall k :: 0 <= k < |r| ==> r[k].score >= SimilarityThreshold
  {
    if hits == [] then []
    else (if hits[0].score >= SimilarityThreshold then [hits[0]] else []) + Relevant(hits[1..])
  }

  /** The relevant hits are exactly the retrieved ones that score at least
      the threshold. */
  lemma {:induction false} RelevantMembers(hits: seq<Hit>)
    ensures forall h :: h in Relevant(hits) <==> h in hits && h.score >= SimilarityThreshold
  {
    if hits != [] {
      RelevantMembers(hits[1..]);
      assert hits == [hits[0]] + hits[1..];
    }
  }

  /** The TypeError of reading `fullReport` of a missing payload. */
  const MissingPayload := Error(None, "Cannot read properties of undefined (reading 'fullReport')")

  /** `hits.map(m => m.payload.fullReport)`: every hit's full report, in
      order, or the TypeError of the first hit without a payload. */
  function FullReports(hits: seq<Hit>): (r: Result<seq<string>>)
    ensures r.Ok? <==> forall k :: 0 <= k < |hits| ==> hits[k].payload.Some?
    ensures r.Ok? ==> |r.value| == |hits|
    ensures r.Ok? ==> forall k :: 0 <= k < |hits| ==> r.value[k] == hits[k].payload.value.fullReport
    ensures r.Err? ==> r.error == MissingPayload
  {
    if hits == [] then Ok([])
    else
      match hits[0].payload
      case None => Err(MissingPayload)
      case Some(p) =>
        var rest := FullReports(hits[1..]);
        assert forall k :: 1 <= k < |hits| ==> hits[k] == hits[1..][k - 1];
        if rest.Err? then Err(rest.error) else Ok([p.fullReport] + rest.value)
  }

  /** The memory context handed to deep research: the full reports of the
      relevant hits joined by a blank line, or "" when none is relevant;
      reading the report of a relevant hit without a payload throws. */
  function MemoryText(hits: seq<Hit>): (r: Result<string>)
    ensures Relevant(hits) == [] ==> r == Ok("")
    ensures r.Err? ==> r.error == MissingPayload
  {
    var relevant := Relevant(hits);
    if |relevant| > 0 then
      match FullReports(relevant)
      case Err(e) => Err(e)
      case Ok(reports) => Ok(Join(reports, MemorySeparator))
    else Ok("")
  }

  lemma {:induction false} RelevantAppend(a: seq<Hit>, b: seq<Hit>)
    ensures Relevant(a + b) == Relevant(a) + Relevant(b)
  {
    if a == [] {
      assert a + b == b;
    } else {
      var head := if a[0].score >= SimilarityThreshold then [a[0]] else [];
      assert (a + b)[0] == a[0];
      assert (a + b)[1..] == a[1..] + b;
      RelevantAppend(a[1..], b);
      calc {
        Relevant(a + b);
        head + Relevant(a[1..] + b);
        head + (Relevant(a[1..]) + Relevant(b));
        { assert head + (Relevant(a[1..]) + Relevant(b)) == (head + Relevant(a[1..])) + Relevant(b); }
        Relevant(a) + Relevant(b);
      }
    }
  }

  /** A hit below the threshold never contributes: taking it out of the
      search results, wherever it stands, leaves the memory text as it was. */
  lemma LowScoreIgnored(before: seq<Hit>, h: Hit, after: seq<Hit>)
    requires h.score < SimilarityThreshold
    ensures MemoryText(before + [h] + after) == MemoryText(before + after)
  {
    assert Relevant([h]) == [] by {
      assert [h][1..] == [];
    }
    calc {
      Relevant(before + [h] + after);
      { RelevantAppend(before + [h], after); }
      Relevant(before + [h]) + Relevant(after);
      { RelevantAppend(before, [h]); }
      Relevant(before) + Relevant([h]) + Relevant(after);
      Relevant(before) + Relevant(after);
      { RelevantAppend(before, after); }
      Relevant(before + after);
    }
  }

  /** The memory text is empty exactly when no hit is relevant, or the only
      relevant one has a payload with an empty report. */
  lemma MemoryTextEmpty(hits: seq<Hit>)
    ensures var relevant := Relevant(hits);
      MemoryText(hits) == Ok("") <==>
        |relevant| == 0 || (|relevant| == 1 && relevant[0].payload.Some? && relevant[0].payload.value.fullReport == "")
  {
    var relevant := Relevant(hits);
    if |relevant| >= 2 && FullReports(relevant).Ok? {
      var reports := FullReports(relevant).value;
      assert |reports[0] + MemorySeparator + Join(reports[1..], MemorySeparator)| >= |MemorySeparator|;
    }
  }

  /** Building the memory text throws exactly when some retrieved hit that
      scores at least the threshold has no payload; hits below it are never
      read. */
  lemma MemoryTextFails(hits: seq<Hit>)
    ensures MemoryText(hits).Err? <==> exists h :: h in hits && h.score >= SimilarityThreshold && h.payload.None?
  {
    RelevantMembers(hits);
    var relevant := Relevant(hits);
    if exists h :: h in hits && h.score >= SimilarityThreshold && h.payload.None? {
      var h :| h in hits && h.score >= SimilarityThreshold && h.payload.None?;
      assert h in relevant;
      var k :| 0 <= k < |relevant| && relevant[k] == h;
      assert FullReports(relevant).Err?;
    } else if |relevant| > 0 {
      forall k | 0 <= k < |relevant| ensures relevant[k].payload.Some? {
        assert relevant[k] in relevant;
      }
    }
  }

  /** One relevant hit: its full report is the memory text, or, without a
      payload, building it throws. */
  lemma SingleRelevantHit(hits: seq<Hit>, h: Hit)
    requires Relevant(hits) == [h]
    ensures h.payload.Some? ==> MemoryText(hits) == Ok(h.payload.value.fullReport)
    ensures h.payload.None? ==> MemoryText(hits) == Err(MissingPayload)
  {
  }

  /** The text deep mode asks the model to summarise for storage. */
  function SummaryPrompt(report: string): (r: string)
    ensures |report| <= |r| && r[|r| - |report|..] == report
  {
    "Summarize the following research in 5-6 concise bullet points:\n\n" + report
  }

  /** A value reached, or the error thrown on the way, with the service
      calls made. */
  datatype Traced<T> = Traced(result: Result<T>, calls: seq<Call>)

  /** The write-back of deep mode: summarise the report with the default
      persona, then store the summary, keyed by the clock, with the query
      and the full report as payload. */
  function WriteBack(query: string, report: Report, s: Services): Traced<()>
    requires ServicesValid(s)
  {
    var prompt := SummaryPrompt(report.answer);
    match QuickResearch(prompt, None, s.quick).result
    case Err(e) => Traced(Err(e), [QuickRun(prompt, None)])
    case Ok(summary) =>
      Traced(s.store, [QuickRun(prompt, None), MemoryStore(s.now, summary.answer, Payload(query, report.answer))])
  }

  /** Deep mode once the deep run on `memoryText` has given `deep`: the
      deep report, once it is written back. */
  function AfterDeepRun(query: string, persona: Option<string>, memoryText: string, deep: Result<Report>, s: Services): Traced<Report>
    requires ServicesValid(s)
  {
    var done := [MemorySearch(query), DeepRun(query, memoryText, persona)];
    match deep
    case Err(e) => Traced(Err(e), done)
    case Ok(report) =>
      var written := WriteBack(query, report, s);
      Traced(if written.result.Err? then Err(written.result.error) else Ok(report), done + written.calls)
  }

  /** Deep mode: search the memory, run deep research on the relevant past
      reports, write the report back. A relevant hit without a payload
      throws before the deep run. */
  function DeepBranch(query: string, persona: Option<string>, s: Services): Traced<Report>
    requires ServicesValid(s)
  {
    match s.search
    case Err(e) => Traced(Err(e), [MemorySearch(query)])
    case Ok(hits) =>
      match MemoryText(hits)
      case Err(e) => Traced(Err(e), [MemorySearch(query)])
      case Ok(memoryText) =>
        AfterDeepRun(query, persona, memoryText, DeepResearch(query, memoryText, persona, s.deep).result, s)
  }

  /** Any other mode: one quick research call. */
  function QuickBranch(query: string, persona: Option<string>, s: Services): Traced<Report>
    requires ServicesValid(s)
  {
    Traced(QuickResearch(query, persona, s.quick).result, [QuickRun(query, persona)])
  }

  /** The error response for anything thrown inside the handler. */
  function ServerError(e: Error): Body {
    Failure("Something went wrong", Some(e.message))
  }

  /** The success response: the main research call's answer and usage, the
      mode echoed, and the reasoning or null. */
  function Respond(report: Report, mode: Option<string>): Body {
    Answer(report.answer, report.usage, EchoMode(mode), report.reasoning)
  }

  const QueryRequired := Failure("Query is required", None)

  /** The handler of `POST /`: validation, then the branch, whose error,
      wherever it was thrown, becomes the 500 response. */
  function Handle(req: Request, s: Services): Outcome
    requires ServicesValid(s)
  {
    if !Truthy(req.query) then Outcome(400, QueryRequired, [])
    else
      var query := req.query.value;
      var branch := if req.mode == Some("deep") then DeepBranch(query, req.persona, s) else QuickBranch(query, req.persona, s);
      match branch.result
      case Err(e) => Outcome(500, ServerError(e), branch.calls)
      case Ok(aiResponse) => Outcome(200, Respond(aiResponse, req.mode), branch.calls)
  }

  /** Validation comes first: the status is 400 exactly when the query is
      missing or empty, and then the body is the fixed error and no
      service is called. Otherwise the reply is a 200 with an answer, or a
      500 with the generic error and the thrown error's message. */
  lemma Validation(req: Request, s: Services)
    requires ServicesValid(s)
    ensures var out := Handle(req, s);
      && (out.status == 400 <==> !Truthy(req.query))
      && (out.status == 400 ==> out.body == Failure("Query is required", None) && out.calls == [])
      && (out.status == 200 || out.status == 400 || out.status == 500)
      && (out.status == 200 <==> out.body.Answer?)
      && (out.status == 500 ==>
            out.body.Failure? && out.body.error == "Something went wrong" && out.body.details.Some?)
  {
  }

  /** Any mode but "deep" answers with one quick research call with the
      request's persona, and touches no memory. Its answer and usage are
      the call's, the mode is echoed, or "quick" when absent or empty, and
      the reasoning is null. */
  lemma QuickPath(req: Request, s: Services)
    requires ServicesValid(s)
    requires Truthy(req.query) && req.mode != Some("deep")
    ensures var out := Handle(req, s);
      var run := QuickResearch(req.query.value, req.persona, s.quick);
      && out.calls == [QuickRun(req.query.value, req.persona)]
      && (run.result.Ok? ==>
            && out.status == 200
            && out.body == Answer(run.result.value.answer, run.result.value.usage, EchoMode(req.mode), None)
            && (req.mode.None? || req.mode == Some("") ==> out.body.mode == "quick")
            && (Truthy(req.mode) ==> out.body.mode == req.mode.value))
      && (run.result.Err? ==> out.status == 500 && out.body == ServerError(run.result.error))
  {
  }

  /** The write-back calls the summary first and stores only once the
      summary is there: the summary's text, with the query and the full
      report as payload. It succeeds exactly when both do, and otherwise
      rethrows the first error. */
  lemma WriteBackSteps(query: string, report: Report, s: Services)
    requires ServicesValid(s)
    ensures var w := WriteBack(query, report, s);
      var summary := QuickResearch(SummaryPrompt(report.answer), None, s.quick).result;
      && 1 <= |w.calls| <= 2
      && w.calls[0] == QuickRun(SummaryPrompt(report.answer), None)
      && (|w.calls| == 2 <==> summary.Ok?)
      && (summary.Ok? ==> w.calls[1] == MemoryStore(s.now, summary.value.answer, Payload(query, report.answer)))
      && (w.result.Ok? <==> summary.Ok? && s.store.Ok?)
      && (summary.Err? ==> w.result == Err(summary.error))
      && (summary.Ok? && s.store.Err? ==> w.result == Err(s.store.error))
  {
  }

  /** After the deep run: the search and the deep run were the first two
      calls; a failed run ends there, and otherwise the write-back follows
      and the result is the deep report once it succeeded. */
  lemma AfterDeepRunSteps(query: string, persona: Option<string>, memoryText: string, deep: Result<Report>, s: Services)
    requires ServicesValid(s)
    ensures var t := AfterDeepRun(query, persona, memoryText, deep, s);
      && |t.calls| >= 2
      && t.calls[..2] == [MemorySearch(query), DeepRun(query, memoryText, persona)]
      && (deep.Err? ==> t == Traced(Err(deep.error), t.calls[..2]))
      && (deep.Ok? ==>
            var w := WriteBack(query, deep.value, s);
            && t.calls[2..] == w.calls
            && (t.result.Ok? <==> w.result.Ok?)
            && (t.result.Ok? ==> t.result.value == deep.value)
            && (t.result.Err? ==> t.result.error == w.result.error))
  {
    var done := [MemorySearch(query), DeepRun(query, memoryText, persona)];
    if deep.Ok? {
      var w := WriteBack(query, deep.value, s);
      assert (done + w.calls)[..2] == done;
      assert (done + w.calls)[2..] == w.calls;
    }
  }

  /** Deep mode calls, each awaited before the next: the memory search,
      deep research on the relevant memories with the request's persona,
      then the write-back. A failed search, a relevant hit without a
      payload, or a failed deep run stops there with a 500. */
  lemma DeepPath(req: Request, s: Services)
    requires ServicesValid(s)
    requires Truthy(req.query) && req.mode == Some("deep")
    ensures var out := Handle(req, s);
      var query := req.query.value;
      && |out.calls| >= 1
      && out.calls[0] == MemorySearch(query)
      && (s.search.Err? ==> out == Outcome(500, ServerError(s.search.error), [MemorySearch(query)]))
      && (s.search.Ok? && MemoryText(s.search.value).Err? ==>
            out == Outcome(500, ServerError(MissingPayload), [MemorySearch(query)]))
      && (s.search.Ok? && MemoryText(s.search.value).Ok? ==>
            var memoryText := MemoryText(s.search.value).value;
            var deep := DeepResearch(query, memoryText, req.persona, s.deep).result;
            && |out.calls| >= 2
            && out.calls[1] == DeepRun(query, memoryText, req.persona)
            && (deep.Err? ==> out == Outcome(500, ServerError(deep.error), out.calls[..2]))
            && (deep.Ok? ==> out.calls[2..] == WriteBack(query, deep.value, s).calls))
  {
    if s.search.Ok? && MemoryText(s.search.value).Err? {
      MemoryTextFails(s.search.value);
    } else if s.search.Ok? {
      var query := req.query.value;
      var memoryText := MemoryText(s.search.value).value;
      var deep := DeepResearch(query, memoryText, req.persona, s.deep).result;
      AfterDeepRunSteps(query, req.persona, memoryText, deep, s);
      var t := AfterDeepRun(query, req.persona, memoryText, deep, s);
      assert t.calls[1] == t.calls[..2][1];
    }
  }

  /** A successful deep request made all four calls, the last one storing
      the summary of the deep answer with the query and that full answer as
      payload. Its reply carries the deep run's answer, usage and reasoning,
      not the summary's, and echoes the mode "deep". Any failure of the
      summary or the store is a 500 with that error. */
  lemma DeepWriteBack(req: Request, s: Services)
    requires ServicesValid(s)
    requires Truthy(req.query) && req.mode == Some("deep") && s.search.Ok? && MemoryText(s.search.value).Ok?
    requires DeepResearch(req.query.value, MemoryText(s.search.value).value, req.persona, s.deep).result.Ok?
    ensures var out := Handle(req, s);
      var query := req.query.value;
      var deep := DeepResearch(query, MemoryText(s.search.value).value, req.persona, s.deep).result.value;
      var summary := QuickResearch(SummaryPrompt(deep.answer), None, s.quick).result;
      && (out.status == 200 <==> summary.Ok? && s.store.Ok?)
      && (out.status == 200 ==>
            && |out.calls| == 4
            && out.calls[2] == QuickRun(SummaryPrompt(deep.answer), None)
            && out.calls[3] == MemoryStore(s.now, summary.value.answer, Payload(query, deep.answer))
            && out.body == Answer(deep.answer, deep.usage, "deep", deep.reasoning)
            && out.body.reasoning.Some?)
      && (summary.Err? ==> out.status == 500 && out.body == ServerError(summary.error))
      && (summary.Ok? && s.store.Err? ==> out.status == 500 && out.body == ServerError(s.store.error))
  {
    var query := req.query.value;
    var memoryText := MemoryText(s.search.value).value;
    var deep := DeepResearch(query, memoryText, req.persona, s.deep).result;
    AfterDeepRunSteps(query, req.persona, memoryText, deep, s);
    WriteBackSteps(query, deep.value, s);
    DeepUsage(query, memoryText, req.persona, s.deep);
    var t := AfterDeepRun(query, req.persona, memoryText, deep, s);
    var w := WriteBack(query, deep.value, s);
    if |w.calls| == 2 {
      assert t.calls[2] == t.calls[2..][0] && t.calls[3] == t.calls[2..][1];
    }
  }

  /** In deep mode after the run, a store can only be the last call, and
      success always ends with it. */
  lemma AfterDeepRunStoresLast(query: string, persona: Option<string>, memoryText: string, deep: Result<Report>, s: Services)
    requires ServicesValid(s)
    ensures var t := AfterDeepRun(query, persona, memoryText, deep, s);
      && (forall k :: 0 <= k < |t.calls| - 1 ==> !t.calls[k].MemoryStore?)
      && (t.result.Ok? ==> t.calls[|t.calls| - 1].MemoryStore?)
  {
    AfterDeepRunSteps(query, persona, memoryText, deep, s);
    var t := AfterDeepRun(query, persona, memoryText, deep, s);
    if deep.Ok? {
      WriteBackSteps(query, deep.value, s);
      assert t.calls == t.calls[..2] + t.calls[2..];
    }
  }

  /** In deep mode, a store can only be the last call, and success always
      ends with it. */
  lemma DeepBranchStoresLast(query: string, persona: Option<string>, s: Services)
    requires ServicesValid(s)
    ensures var b := DeepBranch(query, persona, s);
      && (forall k :: 0 <= k < |b.calls| - 1 ==> !b.calls[k].MemoryStore?)
      && (b.result.Ok? ==> b.calls[|b.calls| - 1].MemoryStore?)
  {
    if s.search.Ok? && MemoryText(s.search.value).Ok? {
      var memoryText := MemoryText(s.search.value).value;
      AfterDeepRunStoresLast(query, persona, memoryText, DeepResearch(query, memoryText, persona, s.deep).result, s);
    }
  }

  /** A store can only be the last call a request makes, so a request
      stores at most once; a successful deep request always ends with it,
      so the reply is sent after the store completed; a quick request never
      stores. */
  lemma StoreIsLast(req: Request, s: Services)
    requires ServicesValid(s)
    ensures var out := Handle(req, s);
      && (forall k :: 0 <= k < |out.calls| - 1 ==> !out.calls[k].MemoryStore?)
      && (out.status == 200 && req.mode == Some("deep") ==> out.calls[|out.calls| - 1].MemoryStore?)
      && (req.mode != Some("deep") ==> forall k :: 0 <= k < |out.calls| ==> !out.calls[k].MemoryStore?)
  {
    if Truthy(req.query) && req.mode == Some("deep") {
      DeepBranchStoresLast(req.query.value, req.persona, s);
    }
  }

  /** A past report that scores 0.9 and is 1200 characters long is all the
      memory there is, and it is strong: the deep run skips both tools. */
  lemma StrongMemorySkipsTools(query: string, persona: Option<string>, past: Payload, o: DeepOracle)
    requires DeepOracleValid(o)
    requires |past.fullReport| == 1200
    ensures MemoryText([Hit(0.9, Some(past))]) == Ok(past.fullReport)
    ensures var run := DeepResearch(query, past.fullReport, persona, o);
      ArxivSearch(query) !in run.trace && GitHubSearch(query) !in run.trace
  {
    assert Relevant([Hit(0.9, Some(past))]) == [Hit(0.9, Some(past))] by {
      assert [Hit(0.9, Some(past))][1..] == [];
    }
    DeepToolSummary(query, past.fullReport, persona, o);
  }

  /** An empty memory store leaves the memory text empty, and a deep run
      whose analysis succeeds then calls both tools. */
  lemma EmptyMemoryRunsTools(query: string, persona: Option<string>, o: DeepOracle)
    requires DeepOracleValid(o)
    requires Retry(o.analysis, Retries).result.Returned?
    ensures MemoryText([]) == Ok("")
    ensures var run := DeepResearch(query, "", persona, o);
      ArxivSearch(query) in run.trace && GitHubSearch(query) in run.trace
  {
    DeepToolSummary(query, "", persona, o);
  }

  /** Deep mode's write-back, as the route runs it. */
  method RunWriteBack(query: string, report: Report, s: Services) returns (result: Result<()>, calls: seq<Call>)
    requires ServicesValid(s)
    ensures Traced(result, calls) == WriteBack(query, report, s)
  {
    // Generate the summary for storage.
    var prompt := SummaryPrompt(report.answer);
    calls := [QuickRun(prompt, None)];
    var summaryResponse, _ := RunQuickResearch(prompt, None, s.quick);
    if summaryResponse.Err? {
      return Err(summaryResponse.error), calls;
    }
    // Store the summary with the full report as payload.
    calls := calls + [MemoryStore(s.now, summaryResponse.value.answer, Payload(query, report.answer))];
    result := s.store;
  }

  /** Deep mode once the deep run has answered. */
  method FinishDeepRun(query: string, persona: Option<string>, memoryText: string, deep: Result<Report>, s: Services) returns (result: Result<Report>, calls: seq<Call>)
    requires ServicesValid(s)
    ensures Traced(result, calls) == AfterDeepRun(query, persona, memoryText, deep, s)
  {
    calls := [MemorySearch(query), DeepRun(query, memoryText, persona)];
    if deep.Err? {
      return deep, calls;
    }
    var written, laterCalls := RunWriteBack(query, deep.value, s);
    calls := calls + laterCalls;
    if written.Err? {
      return Err(written.error), calls;
    }
    result := deep;
  }

  /** Deep mode, as the route runs it. */
  method RunDeepBranch(query: string, persona: Option<string>, s: Services) returns (result: Result<Report>, calls: seq<Call>)
    requires ServicesValid(s)
    ensures Traced(result, calls) == DeepBranch(query, persona, s)
  {
    // Search similar past research.
    if s.search.Err? {
      return Err(s.search.error), [MemorySearch(query)];
    }
    var pastMemories := s.search.value;
    var memoryText := "";
    var filteredMemories := Relevant(pastMemories);
    if |filteredMemories| > 0 {
      var reports := FullReports(filteredMemories);
      if reports.Err? {
        return Err(reports.error), [MemorySearch(query)];
      }
      memoryText := Join(reports.value, MemorySeparator);
    }
    // Run deep research with memory.
    var deep, _ := RunDeepResearch(query, memoryText, persona, s.deep);
    result, calls := FinishDeepRun(query, persona, memoryText, deep, s);
  }

  /** The handler, step by step as the route runs it. */
  method HandleResearch(req: Request, s: Services) returns (status: nat, body: Body, calls: seq<Call>)
    requires ServicesValid(s)
    ensures Outcome(status, body, calls) == Handle(req, s)
  {
    if !Truthy(req.query) {
      return 400, QueryRequired, [];
    }
    var query := req.query.value;
    var aiResponse: Result<Report>;
    if req.mode == Some("deep") {
      aiResponse, calls := RunDeepBranch(query, req.persona, s);
    } else {
      calls := [QuickRun(query, req.persona)];
      var quickSteps;
      aiResponse, quickSteps := RunQuickResearch(query, req.persona, s.quick);
    }
    match aiResponse {
      case Err(e) =>
        status, body := 500, ServerError(e);
      case Ok(report) =>
        status, body := 200, Respond(report, req.mode);
    }
  }
}
