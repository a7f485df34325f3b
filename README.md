# Research agent: retry, orchestration, request handling and tool parsing

A Dafny model of the logic of a retrieval-augmented research-report service.
Everything outside the service's own code is an input to the model: the
Gemini model client, the Qdrant vector memory with its embedding calls, and
the arXiv and GitHub HTTP APIs.

- **Retry and orchestration** (`Gemini`, after `services/geminiService.js`)
  - `callModelWithRetry` is a bounded retry loop over the outcomes of its
    attempts. It retries only errors with status 503 or 429, counts one
    pause before each repeated attempt, and rethrows everything else.
  - The persona lookup falls back to the architect text.
  - Quick mode makes one model call.
  - Deep mode runs in order:
    - an analysis call;
    - the arXiv and GitHub searches, only when the memory context is weak
      (under 500 characters);
    - a final call whose prompt holds the analysis, the first 3000
      characters of memory and the tool results.
  - Deep mode sums the two calls' token counts and reports how many results
    each tool returned.
- **Request handling** (`Research`, after `routes/research.js`)
  - The handler first validates the query.
  - In deep mode it searches the memory and keeps past reports that score at
    least 0.75, joined by a blank line.
  - It then runs deep research on them, summarises the answer, and stores the
    summary with the full report as payload.
  - The write-back is awaited inside the `try` block, so a failed summary or
    store fails the request with a 500 (`Research.DeepWriteBack`).
  - A relevant past point without a payload throws when its report is read,
    so such a request fails with a 500 before the deep run
    (`Research.MemoryTextFails`).
  - Otherwise it runs quick research.
  - It answers 200 with `{answer, usage, mode, reasoning}`, 400 for a missing
    query, or 500 with the thrown error's message.
  - The handler returns this status and body, plus the services it called,
    in order.
- **Tool parsing** (`Tools`, after `services/toolsService.js`)
  - An arXiv Atom feed is split on `<entry>`.
  - The first `<title>`, `<summary>` and `<id>` of each entry is extracted,
    trimmed and cleaned of line feeds. The summary is capped at 400
    characters.
  - GitHub search items are projected field by field.
  - A failed request gives no results.
- **JavaScript semantics** (`Strings` and `Common`)
  - `Strings` holds the string operations the code relies on: the
    first-occurrence search behind the tag `match` and behind `split`, then
    `split`/`join`, `substring`, `trim` and `replace`.
  - `Common` holds optional values, errors and awaited results.

Each model call is given the sequence of outcomes its successive attempts
meet (an oracle). The model requires at least three of them, the default
number of attempts. The imperative parts are methods, and each is proved
equal to a specification function:
- the retry loop;
- the quick pipeline, and the deep pipeline, which reassigns its tool
  results;
- the handler, which assigns its response per branch and reassigns the
  memory text.

The properties are proved about those functions.

## Model

| member | source | states |
|---|---|---|
| `Gemini.Retry` | services/geminiService.js:13-25 | The specification of the retry loop, which has no contract of its own: attempt i returns a response, or rethrows unless it failed with 503/429 and is not the last one, and otherwise pauses and gives way to attempt i+1. Every property of it is stated by `Gemini.RetryFacts` and `Gemini.RetryDecidedBy`. |
| `Gemini.CallModelWithRetry` | services/geminiService.js:13-25 | The loop's result, attempt count and pause count are those of the retry specification `Retry`. Its invariant is that what is left of the loop completes `Retry`. |
| `Gemini.RetryFacts` | services/geminiService.js:13-24 | At most `retries` attempts are made, and none only when `retries` is 0, which yields `undefined`. There is one pause per attempt but the first. Every attempt before the last failed with 503/429. A returned response is the last attempt's. A thrown error is the last attempt's, and is either not retryable or came from the final permitted attempt. |
| `Gemini.RetryDecidedBy` | services/geminiService.js:14-22 | If every attempt before attempt k failed with a retryable status, and attempt k succeeds, fails with another status, or is the last one permitted, then the call ends with attempt k's outcome after k+1 attempts and k pauses. |
| `Gemini.ThreeUnavailable` | services/geminiService.js:18-22 | Three 503s in a row give exactly 3 attempts and 2 pauses, and the third error is thrown. |
| `Gemini.Awaited` | services/geminiService.js:144 | A returned response is passed on and a thrown error is rethrown. `undefined` (zero attempts) becomes the TypeError of reading `.text` of `undefined`. |
| `Gemini.PersonaInstruction` | services/geminiService.js:30-87 | The result is one of the three instruction texts, and any tag other than "analyst" or "strategist" gets the architect text, after at most one recursive call. |
| `Gemini.PersonaResolution` | services/geminiService.js:30-87 | The analyst and strategist texts come exactly for their own tags, and the architect text exactly for every other tag. |
| `Gemini.ResolvePersona` | services/geminiService.js:92-93 | With the default tag "architect" for a missing persona, the analyst text comes exactly for "analyst" and the strategist text exactly for "strategist". The architect text comes for a missing persona and for every other tag. |
| `Gemini.ToolContext` | services/geminiService.js:162-168 | The external-research section, which has no contract of its own: one `- title` line per paper and one `- name (stars⭐)` line per repository, each list joined by a line feed. |
| `Gemini.FinalText` | services/geminiService.js:173-196 | The template of the final prompt, which has no contract of its own. What it must contain is stated by `Gemini.FinalTextContains`. |
| `Gemini.PromptText` | services/geminiService.js:97-196 | The text sent for each of the three prompts, which has no contract of its own: the quick, analysis and final templates with their values filled in. |
| `Gemini.FinalTextContains` | services/geminiService.js:173-196 | The final prompt contains the persona instruction, the analysis, the memory context, the tool context and the query. |
| `Gemini.TokenCount` | services/geminiService.js:203-204 | A missing usage or a missing count counts as 0; otherwise the count is the reported one. |
| `Gemini.SafeMemory` | services/geminiService.js:121-123 | The safe memory is the prefix of the memory context of length min(length, 3000), so it is "" for an empty context. |
| `Gemini.ToolsNeeded` | services/geminiService.js:152 | Memory is weak exactly when the safe memory is shorter than 500 characters; the test for the empty string adds nothing. |
| `Gemini.ToolDecision` | services/geminiService.js:121-152 | The tools are needed exactly when the memory context itself is shorter than 500 characters; truncation to 3000 never changes the decision. |
| `Gemini.QuickResearch` | services/geminiService.js:92-113 | Quick mode makes one model call, with the quick prompt and the resolved persona. It succeeds exactly when that call returned. The answer is the response text, the usage is its usage metadata or null, and there is no reasoning. A failure rethrows the call's error. |
| `Gemini.RunQuickResearch` | services/geminiService.js:92-113 | The steps of `runQuickResearch` give `QuickResearch`'s result and trace. |
| `Gemini.DeepAfterAnalysis` | services/geminiService.js:144-213 | The specification of a deep run after the analysis, which has no contract of its own: the searches when memory is weak, the final call, and the report with the summed usage and the tool counts. Its properties are stated by `Gemini.AfterAnalysisSteps`. |
| `Gemini.DeepResearch` | services/geminiService.js:118-214 | The specification of `runDeepResearch`, which has no contract of its own: the analysis call, whose failure ends the run, then `DeepAfterAnalysis` on the first 3000 characters of memory. Its properties are stated by `Gemini.DeepCallOrder`, `Gemini.DeepToolSummary` and `Gemini.DeepUsage`. |
| `Gemini.AfterAnalysisSteps` | services/geminiService.js:149-200 | After the analysis, the two searches run exactly when memory is weak, and then comes the final call. Its prompt holds the instruction, the analysis text, the safe memory, the query, and the arXiv and GitHub results when memory is weak or no results otherwise. The run succeeds exactly when the final call returned, and the answer is its text. |
| `Gemini.DeepCallOrder` | services/geminiService.js:118-200 | The analysis call comes first, and its failure ends the run with its error. Otherwise the trace is the analysis call, then both searches exactly when the context is under 500 characters, then the final call. Each model call makes 1 to 3 attempts. |
| `Gemini.DeepFinalPromptTools` | services/geminiService.js:149-187 | Once the analysis has answered, the final prompt carries the arXiv and GitHub results when the memory context is under 500 characters, and no results otherwise. |
| `Gemini.DeepToolSummary` | services/geminiService.js:149-212 | The searches are invoked exactly when the analysis returned and the memory context is under 500 characters. When they are skipped, both counts are 0. Otherwise each count is its search's result length. |
| `Gemini.DeepUsage` | services/geminiService.js:199-212 | On success, the total token count is the sum of both calls' counts, a missing count counting as 0, and the reasoning carries the analysis text. |
| `Gemini.RunDeepResearch` | services/geminiService.js:118-214 | The steps of `runDeepResearch` give the result and trace of the specification `DeepResearch`. |
| `Gemini.FinishDeepResearch` | services/geminiService.js:144-214 | The steps after the analysis call give `DeepAfterAnalysis`'s result and trace. |
| `Gemini.RunTools` | services/geminiService.js:149-160 | Both searches run, in this order, when memory is weak. Otherwise both result lists stay empty and no search is recorded. |
| `Tools.Capture` | services/toolsService.js:29-33 | A capture comes from a match: the opening tag, the captured text and the closing tag occur together in the entry. |
| `Tools.CaptureIsLeftmostShortest` | services/toolsService.js:28-33 | The first-occurrence capture is `None` exactly when the lazy pattern `<t>([\s\S]*?)</t>` has no match. Otherwise it is the group of the leftmost match, and among those of the shortest. |
| `Tools.Field` | services/toolsService.js:28-33 | A field is "" when the tag pair is absent, and otherwise the trimmed capture. |
| `Tools.ParseEntry` | services/toolsService.js:27-40 | The url is the `<id>` field. The title is the title field, character by character, with each line feed turned into a space and every other character kept. The summary is the first min(length, 400) characters of the trimmed summary, with line feeds turned into spaces. |
| `Tools.TitleIsTrimmed` | services/toolsService.js:28-36 | A non-empty title neither starts nor ends with white space. |
| `Tools.Entries` | services/toolsService.js:25 | `split("<entry>").slice(1)` has one chunk per occurrence of `<entry>`. |
| `Tools.EntriesInOrder` | services/toolsService.js:25 | The header followed by each chunk, each after an `<entry>`, is the feed again, so the header is dropped and order is kept. |
| `Tools.ParseEntries` | services/toolsService.js:27-40 | There is one paper per chunk, and the k-th paper comes from the k-th chunk. |
| `Tools.ParseArxiv` | services/toolsService.js:25-40 | There are as many papers as occurrences of `<entry>`, in feed order. |
| `Tools.SearchArxiv` | services/toolsService.js:8-45 | A failed request gives []. A response gives exactly the papers `ParseArxiv` parses from it: one per `<entry>`, every summary at most 400 characters. |
| `Tools.ProjectRepos` | services/toolsService.js:71-76 | The output has the same length and order as the items, and each element is `{name: full_name, description, stars: stargazers_count, url: html_url}`. |
| `Tools.ProjectReposAppend` | services/toolsService.js:71-76 | Projecting a concatenation concatenates the projections. |
| `Tools.SearchGitHub` | services/toolsService.js:50-81 | A failed request gives []. A response gives exactly the projection of its items, one repository per item. |
| `Strings.Find` | services/toolsService.js:25-33 | The first-occurrence search behind the tag `match` and behind `split` gives the first occurrence at or after the start position, or `None` when there is none. |
| `Strings.Split` | services/toolsService.js:25 | `split` gives at least one piece, and the whole text when the separator does not occur. |
| `Strings.Join` | routes/research.js:33-35 | `join`, which has no contract of its own: nothing for no pieces, the piece itself for one, and otherwise the pieces with the separator between each two. `Strings.SplitJoin` states it undoes `split`. |
| `Strings.SplitJoin` | services/toolsService.js:25 | Joining the pieces of `split` with the separator gives back the text. |
| `Strings.SplitLength` | services/toolsService.js:25 | For a separator whose first character does not recur in it, `split` gives one piece more than the separator has occurrences. |
| `Strings.Prefix` | services/toolsService.js:37 | `substring(0, n)` has length min(length, n) and is a prefix. |
| `Strings.Trim` | services/toolsService.js:29 | The result starts at the first non-space character, and only white space follows it in the input. |
| `Strings.TrimEnds` | services/toolsService.js:29 | A non-empty trimmed string neither starts nor ends with white space. |
| `Strings.TrimEmpty` | services/toolsService.js:29 | Trimming gives "" exactly when the input is all white space. |
| `Strings.ReplaceNewlines` | services/toolsService.js:36-37 | Every line feed becomes a space and every other character is kept, so the length is unchanged and no line feed remains. |
| `Research.Relevant` | routes/research.js:28-30 | The filter keeps no more hits than it was given, and every kept hit scores at least 0.75. |
| `Research.RelevantMembers` | routes/research.js:28-30 | The filtered memories are exactly the retrieved ones with score at least 0.75. |
| `Research.RelevantAppend` | routes/research.js:28-30 | The filter works hit by hit, so it keeps retrieved order. |
| `Research.FullReports` | routes/research.js:33-35 | Reading the reports succeeds exactly when every hit has a payload, and then the k-th report is the k-th hit's `payload.fullReport`. Otherwise it is the TypeError of reading `fullReport` of `undefined`. |
| `Research.MemoryText` | routes/research.js:25-36 | No relevant hit gives "", and a failure is always the TypeError of a missing payload. |
| `Research.MemoryTextFails` | routes/research.js:28-36 | Building the memory text throws exactly when some retrieved hit that scores at least 0.75 has no payload. Hits below the threshold are never read. |
| `Research.LowScoreIgnored` | routes/research.js:25-36 | A hit scoring below 0.75, wherever it stands, does not change the memory text. |
| `Research.MemoryTextEmpty` | routes/research.js:25-36 | The memory text is "" exactly when no hit passes, or the only passing hit has a payload with an empty report. |
| `Research.SingleRelevantHit` | routes/research.js:32-36 | With one passing hit, the memory text is its full report, or the TypeError when it has no payload. |
| `Research.SummaryPrompt` | routes/research.js:46-48 | The summary prompt ends with the whole deep answer. |
| `Research.WriteBack` | routes/research.js:45-58 | The specification of the write-back, which has no contract of its own: the summary call with the default persona, then, once it answered, the store. Its properties are stated by `Research.WriteBackSteps`. |
| `Research.AfterDeepRun` | routes/research.js:42-58 | The specification of deep mode after the deep run, which has no contract of its own. Its properties are stated by `Research.AfterDeepRunSteps` and `Research.AfterDeepRunStoresLast`. |
| `Research.DeepBranch` | routes/research.js:16-58 | The specification of deep mode, which has no contract of its own: the search, the memory text, the deep run and the write-back, each failure ending the branch. Its properties are stated by `Research.DeepPath`, `Research.DeepWriteBack` and `Research.DeepBranchStoresLast`. |
| `Research.QuickBranch` | routes/research.js:59-61 | The specification of quick mode, which has no contract of its own: one quick research call with the request's persona. Its properties are stated by `Research.QuickPath`. |
| `Research.EchoMode` | routes/research.js:66 | The echoed mode is never empty: it is the request's mode, or "quick". |
| `Research.Respond` | routes/research.js:63-68 | The 200 body, which has no contract of its own: the answer and usage of the main call, the echoed mode, and the reasoning or null. `Research.QuickPath` and `Research.DeepWriteBack` state it per mode. |
| `Research.ServerError` | routes/research.js:70-75 | The 500 body, which has no contract of its own: the fixed error text and the thrown error's message. `Research.Validation` states its shape. |
| `Research.Handle` | routes/research.js:6-77 | The specification of the handler, which has no contract of its own: validation, then the branch the mode selects, whose error becomes the 500 body. Its properties are stated by `Research.Validation`, `Research.QuickPath`, `Research.DeepPath`, `Research.DeepWriteBack` and `Research.StoreIsLast`. |
| `Research.Validation` | routes/research.js:10-12 | The status is 400 exactly for a missing or empty query, and then the body is `{error: "Query is required"}` and no service is called. Any other reply is 200 with an answer or 500 with the generic error. |
| `Research.QuickPath` | routes/research.js:59-68 | Any mode but "deep" makes a single quick call with the request's persona and no memory call. The answer and usage are that call's, the mode is echoed or "quick" when falsy, and the reasoning is null. A failure is a 500. |
| `Research.WriteBackSteps` | routes/research.js:45-58 | The summary is asked for first. The store follows only after the summary, with the summary's text and the payload `{query, fullReport}` of the deep answer. The write-back succeeds exactly when both do, or rethrows the first error. |
| `Research.AfterDeepRunSteps` | routes/research.js:42-58 | The search and the deep run are the first two calls. A failed run stops there. Otherwise the write-back's calls follow, and the result is the deep report once the write-back succeeded. |
| `Research.DeepPath` | routes/research.js:16-58 | A deep request first searches the memory, and a failed search is a 500 with that error. A relevant hit without a payload is a 500 with the TypeError, before any other call. Next comes deep research on the filtered memory text with the request's persona, and its failure is a 500. Then come the write-back's calls. |
| `Research.DeepWriteBack` | routes/research.js:43-68 | A deep request whose run succeeded answers 200 exactly when the summary and the store succeed. It then has made four calls, the last storing the summary with the query and the deep answer. The reply is the deep answer, usage and reasoning with mode "deep", and a failed summary or store is a 500 with its error. |
| `Research.AfterDeepRunStoresLast` | routes/research.js:50-58 | After the deep run, a store can only be the last call, and success ends with it. |
| `Research.DeepBranchStoresLast` | routes/research.js:16-58 | In deep mode a store can only be the last call, and success ends with it. |
| `Research.StoreIsLast` | routes/research.js:16-61 | Every request stores at most once, and only as its last call. A successful deep request always ends with the store, so the reply waits for it, and a quick request never stores. |
| `Research.StrongMemorySkipsTools` | routes/research.js:25-43 | A single past report that scores 0.9 and is 1200 characters long becomes the memory text, and the deep run then calls neither search. |
| `Research.EmptyMemoryRunsTools` | routes/research.js:25-43 | With no past reports, a deep run whose analysis succeeds calls both searches. |
| `Research.RunWriteBack` | routes/research.js:45-58 | The summary and store steps give `WriteBack`'s result and calls. |
| `Research.FinishDeepRun` | routes/research.js:42-58 | The steps after the deep run give `AfterDeepRun`'s result and calls. |
| `Research.RunDeepBranch` | routes/research.js:16-58 | The deep branch's steps, including the reassigned memory text, give `DeepBranch`'s result and calls. |
| `Research.HandleResearch` | routes/research.js:6-77 | The handler's steps give the status, body and calls of the specification `Handle`. |

## Left out

- The model client, memory, tools and clock are inputs to the model; their behaviour is not modelled:
  - Gemini (`generateContent` and `embedContent`);
  - Qdrant, whose upsert and search are services/memoryService.js, which is not part of this model;
  - the arXiv and GitHub HTTP requests, with their query parameters and headers;
  - `Date.now()`, which is the input `now`.
- Which oracle an answer comes from:
  - The summary call and quick mode share one quick-call oracle. Only one of them runs per request.
  - A search that failed, or returned a body of the wrong shape, is an `Err` input, which the model turns into [].
- server.js, frontend/src/App.jsx and `initializeCollection` are not part of this model.
- Real time and concurrency:
  - The 2000 ms pause is counted, not timed.
  - The two searches, which `Promise.all` runs concurrently, are modelled as two independent inputs in a fixed order. This is exact, because neither can fail the other.
- `console.log` and `console.error` output.
- Cases outside the default and the JSON strings:
  - Each model-call oracle lists at least `retries` outcomes (3 for every call the code makes). This excludes no behaviour, because the client answers every attempt. `retries == 0` is modelled: it yields `undefined`, and the caller's read of `.text` throws the TypeError.
  - Non-string JSON values for `query`, `mode` and `persona`. A field is absent or null (`None`), or a string.
  - A response whose `text` is not a string.
  - A memory point whose payload is null and one whose payload is absent are both `None`. Both fail with the TypeError; the model gives the message for `undefined`, where JavaScript names `null` in the first case.
- Characters:
  - Lengths are counted in Unicode scalar values, where JavaScript counts UTF-16 code units. The two differ only for characters outside the Basic Multilingual Plane.
  - `trim` is modelled with the exact white-space and line-terminator set of ECMA-262, not an ASCII approximation.
- Prompt wording is rendered by `PromptText`, but the only property proved about it is that the final prompt contains the persona, analysis, memory, tools and query.
