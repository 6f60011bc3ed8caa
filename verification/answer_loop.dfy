/** The answer loop `generateSearchAnswer` of app/services/openai.ts, as
    written. The page extractor and the answer model are oracles: the
    extractor maps a link to the page text, the answer model maps a prompt
    to the arguments of every invocation of its callback, in order. */
module AnswerLoop {
  import opened Types
  import opened PageContent

  /** The arguments of one invocation of the answer callback. */
  datatype AnswerCall = AnswerCall(answer: string, requiresMoreInformation: bool)

  /** What the answer prompt carries. */
  datatype AnswerPrompt = AnswerPrompt(query: string, documentTitle: string,
                                       documentContent: string, previousAnswers: string)

  /** One round of the loop: the result consumed, the (capped) page content,
      the answers accumulated before it, and what the model replied. */
  datatype Attempt = Attempt(result: SearchResult, content: string, previous: seq<string>,
                             answer: string, requiresMore: bool)

  /** How a call chain ends: a sufficient answer, the "no results left"
      guard, or the `TypeError` from reading `link` of `undefined`. */
  datatype Exit = Sufficient(answer: string) | Exhausted(answer: string) | Crashed

  /** The rounds a call chain performs, and how it ends. */
  datatype Session = Session(attempts: seq<Attempt>, exit: Exit) {
    /** What the awaited promise settles to. */
    function Outcome(): Result<string, Failure>
    {
      match exit
      case Sufficient(a) => Ok(a)
      case Exhausted(a) => Ok(a)
      case Crashed => Err(UndefinedSearchResult)
    }
  }

  /** The answer and flag the callback leaves behind: the last invocation
      wins, and `''` and `false` stand when it never runs. */
  function Settle(calls: seq<AnswerCall>): AnswerCall
  {
    if |calls| == 0 then AnswerCall("", false) else Last(calls)
  }

  /** The prompt for one round; previous answers are joined by newlines. */
  function Prompt(query: string, result: SearchResult, content: string,
                  previous: seq<string>): AnswerPrompt
  {
    AnswerPrompt(query, result.title, content, Join(previous, "\n"))
  }

  /** One round on `result`: extract, cap, ask. */
  function Try(query: string, result: SearchResult, previous: seq<string>,
               extract: string -> string, ask: AnswerPrompt -> seq<AnswerCall>): Attempt
  {
    var content := Truncate(extract(result.link));
    var reply := Settle(ask(Prompt(query, result, content, previous)));
    Attempt(result, content, previous, reply.answer, reply.requiresMoreInformation)
  }

  /** The answers of a run of rounds, in order. */
  function Answers(attempts: seq<Attempt>): seq<string>
  {
    seq(|attempts|, k requires 0 <= k < |attempts| => attempts[k].answer)
  }

  /** `generateSearchAnswer(query, searchResults, answers)`. The guard for
      "no results left" tests the list that still holds the result just
      used, so it is dead; a chain that never hears a sufficient answer
      ends in a call on the empty list, which reads `link` of `undefined`. */
  function GenerateSearchAnswer(query: string, ranked: seq<SearchResult>, answers: seq<string>,
                                extract: string -> string,
                                ask: AnswerPrompt -> seq<AnswerCall>): (s: Session)
    ensures |s.attempts| <= |ranked|
    ensures forall k :: 0 <= k < |s.attempts| - 1 ==> s.attempts[k].requiresMore
    ensures s.exit.Sufficient? <==> |s.attempts| > 0 && !Last(s.attempts).requiresMore
    ensures s.exit.Sufficient? ==> s.exit.answer == Last(s.attempts).answer
    ensures s.exit.Crashed? ==> |s.attempts| == |ranked|
    decreases |ranked|
  {
    if |ranked| == 0 then Session([], Crashed)
    else
      var a := Try(query, ranked[0], answers, extract, ask);
      if !a.requiresMore then Session([a], Sufficient(a.answer))
      else if |ranked| == 0 then Session([a], Exhausted(a.answer))
      else
        var rest := GenerateSearchAnswer(query, ranked[1..], answers + [a.answer], extract, ask);
        Session([a] + rest.attempts, rest.exit)
  }

  /** Every round extracts its result's link, caps the text, and asks the
      model with the answers it was handed. */
  ghost predicate RoundsAreGenuine(query: string, attempts: seq<Attempt>,
                                   extract: string -> string, ask: AnswerPrompt -> seq<AnswerCall>)
  {
    forall k :: 0 <= k < |attempts| ==>
      attempts[k] == Try(query, attempts[k].result, attempts[k].previous, extract, ask)
  }

  /** No round of a chain is anything but extract, cap and ask. */
  lemma {:induction false} EveryRoundGenuine(query: string, ranked: seq<SearchResult>,
                                             answers: seq<string>, extract: string -> string,
                                             ask: AnswerPrompt -> seq<AnswerCall>)
    ensures RoundsAreGenuine(query, GenerateSearchAnswer(query, ranked, answers, extract, ask).attempts,
                             extract, ask)
    decreases |ranked|
  {
    if |ranked| > 0 {
      var a := Try(query, ranked[0], answers, extract, ask);
      if a.requiresMore {
        EveryRoundGenuine(query, ranked[1..], answers + [a.answer], extract, ask);
        var rest := GenerateSearchAnswer(query, ranked[1..], answers + [a.answer], extract, ask);
        var all := [a] + rest.attempts;
        forall k | 1 <= k < |all|
          ensures all[k] == Try(query, all[k].result, all[k].previous, extract, ask)
        {
          assert all[k] == rest.attempts[k - 1];
        }
      }
    }
  }

  /** The answers accumulated before round k: the starting answers, then the
      answers of rounds 0 to k - 1, one appended per round. */
  function Accumulated(answers: seq<string>, attempts: seq<Attempt>, k: nat): seq<string>
    requires k <= |attempts|
  {
    if k == 0 then answers else Accumulated(answers, attempts, k - 1) + [attempts[k - 1].answer]
  }

  /** The accumulator before round k is the starting answers followed by the
      answers of the k earlier rounds, in order. */
  lemma {:induction false} AccumulatedIsAppend(answers: seq<string>, attempts: seq<Attempt>, k: nat)
    requires k <= |attempts|
    ensures Accumulated(answers, attempts, k) == answers + Answers(attempts[..k])
  {
    if k > 0 {
      AccumulatedIsAppend(answers, attempts, k - 1);
      assert Answers(attempts[..k]) == Answers(attempts[..k - 1]) + [attempts[k - 1].answer];
    }
  }

  /** A round on `a` ahead of `rest` contributes its answer first. */
  lemma {:induction false} AccumulatedCons(answers: seq<string>, a: Attempt, rest: seq<Attempt>, k: nat)
    requires 1 <= k <= |rest| + 1
    ensures Accumulated(answers, [a] + rest, k) == Accumulated(answers + [a.answer], rest, k - 1)
  {
    if k > 1 {
      AccumulatedCons(answers, a, rest, k - 1);
      assert ([a] + rest)[k - 1] == rest[k - 2];
    }
  }

  /** Round k consumes ranked result k and is asked with the answers
      accumulated before it. */
  ghost predicate ConsumesInOrder(ranked: seq<SearchResult>, answers: seq<string>,
                                  attempts: seq<Attempt>)
  {
    && |attempts| <= |ranked|
    && forall k :: 0 <= k < |attempts| ==>
         attempts[k].result == ranked[k] && attempts[k].previous == Accumulated(answers, attempts, k)
  }

  /** Prefixing the round on the first result to an in-order run on the
      rest, with that round's answer accumulated, gives an in-order run. */
  lemma ConsumesInOrderCons(ranked: seq<SearchResult>, answers: seq<string>,
                            a: Attempt, rest: seq<Attempt>)
    requires |ranked| > 0 && a.result == ranked[0] && a.previous == answers
    requires ConsumesInOrder(ranked[1..], answers + [a.answer], rest)
    ensures ConsumesInOrder(ranked, answers, [a] + rest)
  {
    var all := [a] + rest;
    forall k | 1 <= k < |all|
      ensures all[k].result == ranked[k] && all[k].previous == Accumulated(answers, all, k)
    {
      AccumulatedCons(answers, a, rest, k);
      assert ranked[1..][k - 1] == ranked[k];
      assert all[k] == rest[k - 1];
    }
  }

  /** Every chain consumes the ranking in order: round k uses ranked result
      k, and its accumulator holds the starting answers and the answers of
      the k earlier rounds. */
  lemma {:induction false} InOrderConsumption(query: string, ranked: seq<SearchResult>,
                                              answers: seq<string>, extract: string -> string,
                                              ask: AnswerPrompt -> seq<AnswerCall>)
    ensures ConsumesInOrder(ranked, answers,
                            GenerateSearchAnswer(query, ranked, answers, extract, ask).attempts)
    decreases |ranked|
  {
    if |ranked| > 0 {
      var a := Try(query, ranked[0], answers, extract, ask);
      if a.requiresMore {
        InOrderConsumption(query, ranked[1..], answers + [a.answer], extract, ask);
        var rest := GenerateSearchAnswer(query, ranked[1..], answers + [a.answer], extract, ask);
        ConsumesInOrderCons(ranked, answers, a, rest.attempts);
      } else {
        ConsumesInOrderCons(ranked, answers, a, []);
      }
    }
  }

  /** When the first round's reply is sufficient, that answer is returned and
      no later result is extracted. With no reply at all the defaults make
      it return `''` at once. */
  lemma EarlyStop(query: string, ranked: seq<SearchResult>, answers: seq<string>,
                  extract: string -> string, ask: AnswerPrompt -> seq<AnswerCall>)
    requires |ranked| > 0
    requires !Try(query, ranked[0], answers, extract, ask).requiresMore
    ensures var a := Try(query, ranked[0], answers, extract, ask);
            GenerateSearchAnswer(query, ranked, answers, extract, ask)
              == Session([a], Sufficient(a.answer))
    ensures var c := Truncate(extract(ranked[0].link));
            ask(Prompt(query, ranked[0], c, answers)) == [] ==>
              GenerateSearchAnswer(query, ranked, answers, extract, ask).Outcome() == Ok("")
  {
  }

  /** The guard for "no results left" never fires. */
  lemma {:induction false} GuardNeverFires(query: string, ranked: seq<SearchResult>,
                                           answers: seq<string>, extract: string -> string,
                                           ask: AnswerPrompt -> seq<AnswerCall>)
    ensures !GenerateSearchAnswer(query, ranked, answers, extract, ask).exit.Exhausted?
    decreases |ranked|
  {
    if |ranked| > 0 {
      var a := Try(query, ranked[0], answers, extract, ask);
      if a.requiresMore {
        GuardNeverFires(query, ranked[1..], answers + [a.answer], extract, ask);
      }
    }
  }

  /** If every reply asks for more information, every ranked result is
      extracted once and the chain then fails on the empty list instead of
      returning the last answer. */
  lemma ExhaustionCrashes(query: string, ranked: seq<SearchResult>, answers: seq<string>,
                          extract: string -> string, ask: AnswerPrompt -> seq<AnswerCall>)
    requires forall p :: Settle(ask(p)).requiresMoreInformation
    ensures var s := GenerateSearchAnswer(query, ranked, answers, extract, ask);
            && s.Outcome() == Err(UndefinedSearchResult)
            && |s.attempts| == |ranked|
  {
  }

  /** An empty ranking fails before anything is extracted. */
  lemma EmptyRankingCrashes(query: string, answers: seq<string>,
                            extract: string -> string, ask: AnswerPrompt -> seq<AnswerCall>)
    ensures GenerateSearchAnswer(query, [], answers, extract, ask) == Session([], Crashed)
  {
  }

  /** A concrete chain that shows the dead guard: one result, a model that
      always wants more information. The comment on the guard promises the last
      answer; the call fails instead. */
  lemma ExhaustionCounterexample()
    ensures var s := GenerateSearchAnswer("q", [SearchResult("t", "https://a", "s")], [],
                                          (link: string) => "",
                                          (p: AnswerPrompt) => [AnswerCall("partial", true)]);
            && |s.attempts| == 1
            && s.attempts[0].answer == "partial"
            && s.Outcome() == Err(UndefinedSearchResult)
  {
  }
}
