/** `summarizeSearchResults` of app/services/openai.ts: refine and rank,
    then run the answer loop on the ranking with no prior answers. */
module Summarize {
  import opened Types
  import opened SearchParams
  import opened AnswerLoop
  import AnswerLoopFixed

  /** The pipeline as written: its rounds follow the prepared ranking; it
      returns an answer exactly when the last round it performs is
      sufficient, and that answer is the last round's; otherwise it fails,
      and only after using every ranked result. */
  function SummarizeSearchResults(query: string, results: seq<SearchResult>,
                                  refine: RefinerPrompt -> seq<RefinerCall>,
                                  extract: string -> string,
                                  ask: AnswerPrompt -> seq<AnswerCall>): (s: Session)
    ensures s.Outcome().Ok? <==> |s.attempts| > 0 && !Last(s.attempts).requiresMore
    ensures s.Outcome().Ok? ==> s.Outcome().value == Last(s.attempts).answer
    ensures s.Outcome().Err? ==>
              |s.attempts| == |PrepareSearchParams(query, results, refine).rankedSearchResults|
    ensures |s.attempts| <= |PrepareSearchParams(query, results, refine).rankedSearchResults|
    ensures forall k :: 0 <= k < |s.attempts| ==>
              s.attempts[k].result == PrepareSearchParams(query, results, refine).rankedSearchResults[k]
  {
    var p := PrepareSearchParams(query, results, refine);
    GuardNeverFires(p.updatedQuery, p.rankedSearchResults, [], extract, ask);
    InOrderConsumption(p.updatedQuery, p.rankedSearchResults, [], extract, ask);
    AnswerLoop.GenerateSearchAnswer(p.updatedQuery, p.rankedSearchResults, [], extract, ask)
  }

  /** The pipeline with the corrected answer loop: it always returns the
      last round's answer, or `''` when there was no round. */
  function SummarizeCorrected(query: string, results: seq<SearchResult>,
                              refine: RefinerPrompt -> seq<RefinerCall>,
                              extract: string -> string,
                              ask: AnswerPrompt -> seq<AnswerCall>): (s: Session)
    ensures s.Outcome() == Ok(if |s.attempts| == 0 then "" else Last(s.attempts).answer)
  {
    var p := PrepareSearchParams(query, results, refine);
    AnswerLoopFixed.GenerateSearchAnswer(p.updatedQuery, p.rankedSearchResults, [], extract, ask)
  }

  /** In both pipelines every page extracted belongs to a result of the full
      search list, and the rounds follow the ranking, first to last; the two
      perform the same rounds. */
  lemma PipelineFollowsRanking(query: string, results: seq<SearchResult>,
                               refine: RefinerPrompt -> seq<RefinerCall>,
                               extract: string -> string, ask: AnswerPrompt -> seq<AnswerCall>)
    ensures var p := PrepareSearchParams(query, results, refine);
            var written := SummarizeSearchResults(query, results, refine, extract, ask);
            var fixed := SummarizeCorrected(query, results, refine, extract, ask);
            && fixed.attempts == written.attempts
            && |written.attempts| <= |p.rankedSearchResults|
            && forall k :: 0 <= k < |written.attempts| ==>
                 written.attempts[k].result == p.rankedSearchResults[k]
                 && written.attempts[k].result in results
  {
    var p := PrepareSearchParams(query, results, refine);
    AnswerLoopFixed.AgreesWithAsWritten(p.updatedQuery, p.rankedSearchResults, [], extract, ask);
    InOrderConsumption(p.updatedQuery, p.rankedSearchResults, [], extract, ask);
  }

  /** When the refiner's callback never runs, the code as written fails
      before extracting anything; the corrected loop returns `''`. */
  lemma SilentRefiner(query: string, results: seq<SearchResult>,
                      refine: RefinerPrompt -> seq<RefinerCall>,
                      extract: string -> string, ask: AnswerPrompt -> seq<AnswerCall>)
    requires refine(RefinerPrompt(query, Candidates(results))) == []
    ensures SummarizeSearchResults(query, results, refine, extract, ask) == Session([], Crashed)
    ensures SummarizeCorrected(query, results, refine, extract, ask)
            == Session([], Exhausted(""))
  {
  }

  /** The refiner ranks results 2 then 0, and the page of result 2 yields a
      sufficient answer: that answer is returned after one extraction, and
      result 0 is never fetched. */
  lemma RankedTwoThenZero(query: string, results: seq<SearchResult>, question: string,
                          refine: RefinerPrompt -> seq<RefinerCall>,
                          extract: string -> string, ask: AnswerPrompt -> seq<AnswerCall>)
    requires |results| > 2
    requires refine(RefinerPrompt(query, Candidates(results))) == [RefinerCall(question, [2, 0])]
    requires !Try(question, results[2], [], extract, ask).requiresMore
    ensures var a := Try(question, results[2], [], extract, ask);
            && SummarizeSearchResults(query, results, refine, extract, ask)
               == Session([a], Sufficient(a.answer))
            && SummarizeCorrected(query, results, refine, extract, ask)
               == Session([a], Sufficient(a.answer))
  {
  }
}
