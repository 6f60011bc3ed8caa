# Search summary pipeline — Dafny model

This project models the summarisation pipeline of a web search front-end. The pipeline lives in
`app/services/openai.ts`. Given a query and the search results, it does three things:

1. It asks a language model to rephrase the query and rank the result ids (`prepareSearchParams`).
2. It maps those ids back to results.
3. It walks the ranking (`generateSearchAnswer`). Each round extracts a page, cuts text over
   5000 characters to its first 5000 and appends `...`, and asks the language model for an answer and a `requiresMoreInformation` flag. A
   round stops at the first sufficient answer. Otherwise it recurses on the rest of the ranking, with
   the new answer added to the accumulator.

The language model, the page extractor and the tool-calling runner are oracles passed in as
functions:

- **Refiner:** maps the refiner prompt to the arguments of every invocation of the
  `prepare_search_params` callback, in order. `[]` means the callback never ran.
- **Answer model:** maps the answer prompt to the invocations of its callback. The last invocation
  wins, and the defaults `''` and `false` stand if there is none.
- **Extractor:** `extractTextFromWebPage` is a total map from link to text.

Modules:

- `Types` (`types.dfy`): the `SearchResult` fields the pipeline reads, `Result`, and `Join`.
- `PageContent` (`page_content.dfy`): the 5000-character cap and its `"..."` marker.
- `SearchParams` (`search_params.dfy`): the prompt candidates, the id→result mapping and
  `prepareSearchParams`. It has a functional definition and an imperative one (the callback's
  `forEach`/`push` loop). The two are proved equal.
- `AnswerLoop` (`answer_loop.dfy`): `generateSearchAnswer` as written. A `Session` records every
  round (result, capped content, accumulated answers, reply) and how the chain ends:
  - `Sufficient`: a sufficient answer was returned.
  - `Exhausted`: the "no results left" guard fired.
  - `Crashed`: the chain read `link` of `undefined`.
- `AnswerLoopFixed` (`answer_loop_fixed.dfy`): the loop with the behaviour its own comment
  describes, proved to perform the same rounds.
- `Summarize` (`summarize.dfy`): `summarizeSearchResults` as written (`SummarizeSearchResults`),
  and the same pipeline with the corrected loop (`SummarizeCorrected`).

Behaviours of the code worth noting:

- The id lookup goes against the full result list, not only the five results shown in the prompt.
- If the refiner never calls back, the result is `''` and an empty ranking, not an error.
- A duplicated id makes the loop process the same result twice.
- An empty ranking, or a ranking where every round asks for more information, ends in a
  `TypeError`. It does not return a fallback or the last answer (see Findings).

## Model

| member | source | states |
|---|---|---|
| Types.JoinAppend | app/services/openai.ts:106 | the "Previous Answers" text grows by a newline and the new answer each time an answer is accumulated; the first answer alone is the whole text |
| PageContent.Truncate | app/services/openai.ts:88-90 | content of at most 5000 characters is passed unchanged; longer content becomes its first 5000 characters followed by "...", exactly 5003 characters; the prompt never gets more than 5003 |
| PageContent.TruncateFixedPoints | app/services/openai.ts:88-90 | content reaches the prompt unchanged exactly when it is within the cap, or is 5003 characters ending in "..." (the cut is then invisible) |
| SearchParams.Candidates | app/services/openai.ts:34 | the prompt lists at most five candidates, the first five results, each with its index in the full list, title and snippet |
| SearchParams.ValidIds | app/services/openai.ts:51-58 | the accepted ids are exactly the ranked ids that index an element of the full list, no more than were given, each accepted id kept as often as the model repeated it |
| SearchParams.RankedFor | app/services/openai.ts:51-58 | the ranking pushes, in the model's order, the full-list element of each accepted id, so its length is the number of accepted ids and at most the number of ids |
| SearchParams.RankedForAppend | app/services/openai.ts:51-58 | the ranking of a concatenation of id lists is the concatenation of their rankings (ids are handled one at a time, in order) |
| SearchParams.RankedForSingle | app/services/openai.ts:52-57 | one id pushes its element when it indexes the full list, and nothing when it does not |
| SearchParams.DuplicatesKept | app/services/openai.ts:51-54 | a repeated id is not removed: each occurrence pushes the same result again |
| SearchParams.IdBeyondPromptAccepted | app/services/openai.ts:34-54 | an id of five or more is never shown in the prompt, yet it is accepted whenever the full list has an element there |
| SearchParams.RankAll | app/services/openai.ts:49-58 | across repeated callback invocations every pushed result is an element of the full list; a single invocation gives exactly its own ranking |
| SearchParams.PrepareSearchParams | app/services/openai.ts:26-77 | a callback that never runs gives `''` and an empty ranking; otherwise the query is the last rephrasing; a single invocation gives its own ranking; every ranked result comes from the input list |
| SearchParams.RankingCallback | app/services/openai.ts:49-59 | the callback records the rephrased query and appends to the shared list exactly the ranking of its ids |
| SearchParams.RunRefiner | app/services/openai.ts:29-75 | running the callbacks in turn on shared variables initialised to `''` and `[]` gives the same parameters as the functional definition |
| AnswerLoop.GenerateSearchAnswer | app/services/openai.ts:79-146 | at most one round per ranked result; every round before the last asked for more information; it returns an answer exactly when the last round was sufficient, and then returns that round's answer; a failure happens only after every ranked result was used |
| AnswerLoop.EveryRoundGenuine | app/services/openai.ts:85-131 | every round extracts its own result's link, caps the text, asks the model with the title, capped content and newline-joined earlier answers, and keeps the callback's last reply or the defaults `''` and `false` |
| AnswerLoop.AccumulatedIsAppend | app/services/openai.ts:144 | the accumulator before round k is the starting answers followed by the answers of the k earlier rounds, in order, with nothing dropped or reordered |
| AnswerLoop.AccumulatedCons | app/services/openai.ts:144 | recursing with `[...answers, queryAnswer]` puts the first round's answer ahead of every later one |
| AnswerLoop.ConsumesInOrderCons | app/services/openai.ts:144 | one round on the first result, followed by an in-order chain on the tail with that round's answer appended to the accumulator, is an in-order chain |
| AnswerLoop.InOrderConsumption | app/services/openai.ts:85-144 | round k uses ranked result k, and its accumulator holds the starting answers and then the answers of the k earlier rounds |
| AnswerLoop.EarlyStop | app/services/openai.ts:92-135 | a sufficient first reply ends the chain after one round with that answer, extracting nothing else; a model that never calls back makes the chain return `''` at once |
| AnswerLoop.GuardNeverFires | app/services/openai.ts:138-142 | no chain ever ends through the "no results left" guard |
| AnswerLoop.ExhaustionCrashes | app/services/openai.ts:85-144 | when every reply asks for more information, all ranked results are extracted and the chain fails reading `link` of `undefined` instead of returning the last answer |
| AnswerLoop.EmptyRankingCrashes | app/services/openai.ts:85-86 | an empty ranking fails at once, before any extraction |
| AnswerLoop.ExhaustionCounterexample | app/services/openai.ts:138-144 | one result and a model that always wants more: one round answering "partial", then the failure |
| AnswerLoopFixed.GenerateSearchAnswer | app/services/openai.ts:138-144 | the corrected loop never fails; if no result is left after a round that asks for more, it returns that round's answer; an empty ranking returns the last accumulated answer or `''` |
| AnswerLoopFixed.AgreesWithAsWritten | app/services/openai.ts:79-146 | the corrected loop performs exactly the rounds of the code as written; where the code returns an answer both return the same one; where the code fails the correction returns the last answer produced |
| AnswerLoopFixed.ExhaustionReturnsLastAnswer | app/services/openai.ts:138-144 | when all N rounds ask for more information, all N results are used, the last round sees the N - 1 earlier answers, and its answer is returned |
| AnswerLoopFixed.EmptyRankingReturnsFallback | app/services/openai.ts:85-86 | an empty ranking returns `''` without extracting anything |
| Summarize.SummarizeSearchResults | app/services/openai.ts:19-24 | the pipeline as written runs its rounds on the prepared ranking in order; it returns an answer exactly when its last round was sufficient, and that answer is the last round's; when it fails, it has used every result of the ranking |
| Summarize.SummarizeCorrected | app/services/openai.ts:19-24 | the pipeline with the corrected loop always returns an answer: the last round's, or `''` when there was no round |
| Summarize.PipelineFollowsRanking | app/services/openai.ts:19-24 | both pipelines perform the same rounds, extracting pages only of results from the input list, in ranking order, at most one round per ranked entry |
| Summarize.SilentRefiner | app/services/openai.ts:29-30 | a refiner that never calls back leads the code as written to fail with no extraction; the corrected pipeline returns `''` |
| Summarize.RankedTwoThenZero | app/services/openai.ts:21-23 | for ranking [2, 0] with a sufficient reply on result 2, the answer is that reply, after exactly one extraction |

## Left out

- `extractTextFromWebPage` (app/utils.ts) is an HTTP fetch, a DOM parse and a readability heuristic. It is modelled as an arbitrary total map from link to text. Any text, including `''`, is allowed, which covers its catch-all `''` on failure.
- The tool-calling runner, the zod schemas, the prompt wording, the model name and `MAX_ANSWER_WORDS` are foreign library calls or prompt text. The replies are oracle parameters. Exceptions thrown by the runner itself, such as network or API errors, are not modelled.
- Prompts are records rather than text. The refiner prompt keeps the query and the numbered candidates. The answer prompt keeps the query, title, capped content and the newline-joined earlier answers.
- Ranking ids are integers. A JSON number that is not an integer (a fraction, for instance) indexes nothing in JavaScript and is skipped, so leaving it out removes no accepted case.
- The `if (result)` truthiness test treats every list element as a present object. `null` elements in the search list are not modelled.
- Lengths are counted in characters, not UTF-16 code units, so a cut through a surrogate pair is not modelled.
- `app/services/serpapi.ts`, the routes, the components and the build configuration are wrappers, HTTP wiring or presentation.
- The oracles are deterministic in their input. Two identical answer prompts get the same reply, and two fetches of the same link give the same text. A model that answers an identical prompt differently, or a page that changes between two fetches of a duplicated link, is not modelled. For example, a ranking `[r, r]` whose first reply is `''` with "more information" asks the second round an identical prompt, so the model forces the same reply.
- `async`/`await` scheduling and `console` logging have no effect on the sequential logic.
- AnswerLoopFixed.GenerateSearchAnswer: the code has no fallback text for an empty ranking. The model uses `''`, the answer callback's own default.

## Findings

| source | as written | input that shows it | evidently intended | confidence | as-written member | corrected member |
|---|---|---|---|---|---|---|
| app/services/openai.ts:138-144 | the "no results left" guard tests `searchResults`, which still holds the result just used, so it is never true; the next call reads `link` of `undefined` | a ranking of one result and a model that always sets `requiresMoreInformation` | return the most recent answer when no result is left, as the comment at lines 139-141 says | not executed | AnswerLoop.ExhaustionCounterexample | AnswerLoopFixed.ExhaustionReturnsLastAnswer |
| app/services/openai.ts:85-86 | `searchResults[0].link` is read with no emptiness check | the refiner returns an empty ranking or never calls back | return a fallback answer without extracting anything | not executed | AnswerLoop.EmptyRankingCrashes | AnswerLoopFixed.EmptyRankingReturnsFallback |
