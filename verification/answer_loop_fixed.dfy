/** The answer loop with the behaviour its own comment describes: when no
    result is left after the one just used, the answer just produced is
    returned; an empty ranking returns the last accumulated answer, or the
    default answer `''` when there is none. Everything else is as in
    `AnswerLoop`. */
module AnswerLoopFixed {
  import opened Types
  import opened AnswerLoop

  /** The answer when nothing was ever produced: the callback's default. */
  const Fallback: string := ""

  /** The answer returned when the ranking runs out. */
  function LastAnswer(answers: seq<string>): string
  {
    if |answers| == 0 then Fallback else Last(answers)
  }

  /** `generateSearchAnswer` with the emptiness test made on the list that
      is about to be passed on, and an empty ranking handled up front. */
  function GenerateSearchAnswer(query: string, ranked: seq<SearchResult>, answers: seq<string>,
                                extract: string -> string,
                                ask: AnswerPrompt -> seq<AnswerCall>): (s: Session)
    ensures !s.exit.Crashed?
    ensures |s.attempts| <= |ranked|
    ensures |ranked| > 0 ==> |s.attempts| > 0
    ensures forall k :: 0 <= k < |s.attempts| - 1 ==> s.attempts[k].requiresMore
    ensures s.exit.Sufficient? <==> |s.attempts| > 0 && !Last(s.attempts).requiresMore
    ensures s.exit.Sufficient? ==> s.exit.answer == Last(s.attempts).answer
    ensures s.exit.Exhausted? ==> |s.attempts| == |ranked|
    ensures s.exit.Exhausted? && |ranked| > 0 ==> s.exit.answer == Last(s.attempts).answer
    ensures |ranked| == 0 ==> s == Session([], Exhausted(LastAnswer(answers)))
    decreases |ranked|
  {
    if |ranked| == 0 then Session([], Exhausted(LastAnswer(answers)))
    else
      var a := Try(query, ranked[0], answers, extract, ask);
      if !a.requiresMore then Session([a], Sufficient(a.answer))
      else if |ranked[1..]| == 0 then Session([a], Exhausted(a.answer))
      else
        var rest := GenerateSearchAnswer(query, ranked[1..], answers + [a.answer], extract, ask);
        Session([a] + rest.attempts, rest.exit)
  }

  /** The correction changes only how a chain ends: the rounds are the same
      as in the code as written, and whenever that code returns an answer
      the corrected loop returns the same one; where it fails, the corrected
      loop returns the answer of the last round (or the last accumulated
      answer when there was no round). */
  lemma {:induction false} AgreesWithAsWritten(query: string, ranked: seq<SearchResult>,
                                               answers: seq<string>, extract: string -> string,
                                               ask: AnswerPrompt -> seq<AnswerCall>)
    ensures var written := AnswerLoop.GenerateSearchAnswer(query, ranked, answers, extract, ask);
            var fixed := GenerateSearchAnswer(query, ranked, answers, extract, ask);
            && fixed.attempts == written.attempts
            && (!written.exit.Crashed? ==> fixed.exit == written.exit)
            && (written.exit.Crashed? ==>
                  fixed.exit == Exhausted(if |written.attempts| == 0 then LastAnswer(answers)
                                          else Last(written.attempts).answer))
    decreases |ranked|
  {
    if |ranked| > 0 {
      var a := Try(query, ranked[0], answers, extract, ask);
      if a.requiresMore {
        AgreesWithAsWritten(query, ranked[1..], answers + [a.answer], extract, ask);
      }
    }
  }

  /** If every reply asks for more information, each of the N ranked
      results is extracted once, the last round is asked with the N - 1
      earlier answers accumulated, and its answer is returned. */
  lemma ExhaustionReturnsLastAnswer(query: string, ranked: seq<SearchResult>,
                                    extract: string -> string, ask: AnswerPrompt -> seq<AnswerCall>)
    requires |ranked| > 0
    requires forall p :: Settle(ask(p)).requiresMoreInformation
    ensures var s := GenerateSearchAnswer(query, ranked, [], extract, ask);
            && |s.attempts| == |ranked|
            && s.Outcome() == Ok(Last(s.attempts).answer)
            && Last(s.attempts).previous == Answers(s.attempts[..|ranked| - 1])
            && |Last(s.attempts).previous| == |ranked| - 1
  {
    var s := GenerateSearchAnswer(query, ranked, [], extract, ask);
    AgreesWithAsWritten(query, ranked, [], extract, ask);
    AnswerLoop.ExhaustionCrashes(query, ranked, [], extract, ask);
    AnswerLoop.InOrderConsumption(query, ranked, [], extract, ask);
    var k := |ranked| - 1;
    AccumulatedIsAppend([], s.attempts, k);
    assert [] + Answers(s.attempts[..k]) == Answers(s.attempts[..k]);
  }

  /** An empty ranking returns the fallback without extracting anything. */
  lemma EmptyRankingReturnsFallback(query: string, extract: string -> string,
                                    ask: AnswerPrompt -> seq<AnswerCall>)
    ensures GenerateSearchAnswer(query, [], [], extract, ask) == Session([], Exhausted(Fallback))
    ensures GenerateSearchAnswer(query, [], [], extract, ask).Outcome() == Ok("")
  {
  }
}
