/** Query refinement and ranking (`prepareSearchParams` in
    app/services/openai.ts). The language model is an oracle: given the
    prompt, it yields the arguments of every invocation of the
    `prepare_search_params` callback, in order. */
module SearchParams {
  import opened Types

  /** Only this many results are shown to the model (MAX_SEARCH_RESULTS_TO_FETCH). */
  const MaxSearchResultsToFetch: nat := 5

  /** One line `ID #id: title - snippet` of the refiner prompt. */
  datatype Candidate = Candidate(id: nat, title: string, snippet: string)

  /** What the refiner prompt carries: the user's query and the candidates. */
  datatype RefinerPrompt = RefinerPrompt(query: string, candidates: seq<Candidate>)

  /** The arguments of one invocation of the `prepare_search_params` callback. */
  datatype RefinerCall = RefinerCall(rephrasedQuery: string, searchResultRankings: seq<int>)

  /** The result of `prepareSearchParams`. */
  datatype Params = Params(updatedQuery: string, rankedSearchResults: seq<SearchResult>)

  /** The candidates listed in the prompt: the first five results, numbered
      by their index in the full list. */
  function Candidates(results: seq<SearchResult>): (cs: seq<Candidate>)
    ensures |cs| <= MaxSearchResultsToFetch && |cs| <= |results|
    ensures |cs| == MaxSearchResultsToFetch || |cs| == |results|
    ensures forall i :: 0 <= i < |cs| ==>
              cs[i] == Candidate(i, results[i].title, results[i].snippet)
  {
    var shown := if |results| <= MaxSearchResultsToFetch then results
                 else results[..MaxSearchResultsToFetch];
    seq(|shown|, i requires 0 <= i < |shown| => Candidate(i, shown[i].title, shown[i].snippet))
  }

  /** The ids of a ranking that index an element of the full result list,
      in the model's order, duplicates included. */
  function ValidIds(results: seq<SearchResult>, ids: seq<int>): (v: seq<int>)
    ensures |v| <= |ids|
    ensures forall k :: 0 <= k < |v| ==> 0 <= v[k] < |results|
    ensures forall id :: id in v <==> id in ids && 0 <= id < |results|
    ensures forall id :: 0 <= id < |results| ==> multiset(v)[id] == multiset(ids)[id]
  {
    if |ids| == 0 then []
    else
      assert ids == [ids[0]] + ids[1..];
      (if 0 <= ids[0] < |results| then [ids[0]] else []) + ValidIds(results, ids[1..])
  }

  /** What the callback pushes for one ranking: `searchResults[id]` for each
      id that names an element, every other id skipped. */
  function RankedFor(results: seq<SearchResult>, ids: seq<int>): (r: seq<SearchResult>)
    ensures |r| == |ValidIds(results, ids)| <= |ids|
    ensures forall k :: 0 <= k < |r| ==> r[k] == results[ValidIds(results, ids)[k]]
  {
    if |ids| == 0 then []
    else (if 0 <= ids[0] < |results| then [results[ids[0]]] else []) + RankedFor(results, ids[1..])
  }

  /** Ranking is compositional: the callback handles a ranking id by id. */
  lemma {:induction false} RankedForAppend(results: seq<SearchResult>, a: seq<int>, b: seq<int>)
    ensures RankedFor(results, a + b) == RankedFor(results, a) + RankedFor(results, b)
  {
    if |a| == 0 {
      assert a + b == b;
    } else {
      assert (a + b)[0] == a[0];
      assert (a + b)[1..] == a[1..] + b;
      RankedForAppend(results, a[1..], b);
    }
  }

  /** A single id pushes its result when it names one, and nothing otherwise. */
  lemma RankedForSingle(results: seq<SearchResult>, id: int)
    ensures RankedFor(results, [id]) == if 0 <= id < |results| then [results[id]] else []
  {
  }

  /** A repeated id is not removed: each occurrence pushes the same result. */
  lemma DuplicatesKept(results: seq<SearchResult>, ids: seq<int>, id: int)
    requires 0 <= id < |results|
    ensures RankedFor(results, ids + [id, id]) == RankedFor(results, ids) + [results[id], results[id]]
  {
    RankedForAppend(results, ids, [id, id]);
  }

  /** An id the prompt never showed (five or more) is still accepted when the
      full list has an element there; the lookup is not limited to the
      candidates. */
  lemma IdBeyondPromptAccepted(results: seq<SearchResult>, id: int)
    requires MaxSearchResultsToFetch <= id < |results|
    ensures forall c :: c in Candidates(results) ==> c.id != id
    ensures RankedFor(results, [id]) == [results[id]]
  {
  }

  /** The rankings of all callback invocations, concatenated in order. */
  function RankAll(results: seq<SearchResult>, calls: seq<RefinerCall>): (r: seq<SearchResult>)
    ensures forall x :: x in r ==> x in results
    ensures |calls| == 1 ==> r == RankedFor(results, calls[0].searchResultRankings)
  {
    if |calls| == 0 then []
    else
      var front := RankAll(results, calls[..|calls| - 1]);
      var last := RankedFor(results, Last(calls).searchResultRankings);
      assert forall x :: x in last ==> x in results;
      assert |calls| == 1 ==> calls[..|calls| - 1] == [];
      front + last
  }

  /** `prepareSearchParams`: the query as last rephrased and the ranked
      results; `''` and an empty ranking when the callback never runs. */
  function PrepareSearchParams(query: string, results: seq<SearchResult>,
                               refine: RefinerPrompt -> seq<RefinerCall>): (p: Params)
    ensures var calls := refine(RefinerPrompt(query, Candidates(results)));
            && (|calls| == 0 ==> p == Params("", []))
            && (|calls| > 0 ==> p.updatedQuery == Last(calls).rephrasedQuery)
            && (|calls| == 1 ==>
                  p.rankedSearchResults == RankedFor(results, calls[0].searchResultRankings))
    ensures forall x :: x in p.rankedSearchResults ==> x in results
  {
    var calls := refine(RefinerPrompt(query, Candidates(results)));
    Params(if |calls| == 0 then "" else Last(calls).rephrasedQuery, RankAll(results, calls))
  }

  /** The `prepare_search_params` callback: records the rephrased query and
      pushes each ranked result that exists onto the shared list. */
  method RankingCallback(results: seq<SearchResult>, ranked: seq<SearchResult>, call: RefinerCall)
    returns (updatedQuery: string, ranked': seq<SearchResult>)
    ensures updatedQuery == call.rephrasedQuery
    ensures ranked' == ranked + RankedFor(results, call.searchResultRankings)
  {
    updatedQuery := call.rephrasedQuery;
    var ids := call.searchResultRankings;
    ranked' := ranked;
    var i := 0;
    while i < |ids|
      invariant 0 <= i <= |ids|
      invariant ranked' == ranked + RankedFor(results, ids[..i])
    {
      var id := ids[i];
      if 0 <= id < |results| {
        ranked' := ranked' + [results[id]];
      }
      assert ids[..i + 1] == ids[..i] + [id];
      RankedForAppend(results, ids[..i], [id]);
      RankedForSingle(results, id);
      i := i + 1;
    }
    assert ids[..i] == ids;
  }

  /** `prepareSearchParams` as the code runs it: two variables initialised
      to `''` and `[]`, updated by every callback invocation in turn. It
      agrees with the functional definition above. */
  method RunRefiner(query: string, results: seq<SearchResult>,
                    refine: RefinerPrompt -> seq<RefinerCall>)
    returns (p: Params)
    ensures p == PrepareSearchParams(query, results, refine)
  {
    var calls := refine(RefinerPrompt(query, Candidates(results)));
    var updatedQuery := "";
    var ranked: seq<SearchResult> := [];
    var i := 0;
    while i < |calls|
      invariant 0 <= i <= |calls|
      invariant ranked == RankAll(results, calls[..i])
      invariant updatedQuery == if i == 0 then "" else calls[i - 1].rephrasedQuery
    {
      assert calls[..i + 1][..i] == calls[..i];
      updatedQuery, ranked := RankingCallback(results, ranked, calls[i]);
      i := i + 1;
    }
    assert calls[..i] == calls;
    p := Params(updatedQuery, ranked);
  }
}
