/**
 * A quiz session: the record held in component state and changed one click at a
 * time through `setAnswers` (src/App.tsx:87-88, 104), with the recommendation
 * recomputed from the record after every click (89-97).
 */
module QuizSession {
  import opened Wrappers
  import opened QuizAnswers
  import opened QuizRecommendation

  /** The record after the clicks `sels`, in order, starting from `a`. */
  function Replay(a: Answers, sels: seq<Selection>): Answers
  {
    if sels == [] then a else SetAnswer(Replay(a, sels[..|sels| - 1]), sels[|sels| - 1])
  }

  /** The last click in `sels` that answers question q, if any. */
  function LastChoice(sels: seq<Selection>, q: Question): (r: Option<Selection>)
    ensures r.Some? ==> r.value in sels && QuestionOf(r.value) == q
    ensures r.None? <==> forall i :: 0 <= i < |sels| ==> QuestionOf(sels[i]) != q
  {
    if sels == [] then None
    else if QuestionOf(sels[|sels| - 1]) == q then Some(sels[|sels| - 1])
    else LastChoice(sels[..|sels| - 1], q)
  }

  /** Last click wins: each answer is the last click on its question, or the starting answer. */
  lemma {:induction false} ReplayLastChoiceWins(a: Answers, sels: seq<Selection>, q: Question)
    ensures Chosen(Replay(a, sels), q) ==
      (if LastChoice(sels, q).Some? then LastChoice(sels, q) else Chosen(a, q))
  {
    if sels != [] {
      ReplayLastChoiceWins(a, sels[..|sels| - 1], q);
    }
  }

  /**
   * The order of the clicks does not matter beyond which option was clicked last
   * for each question: two histories that agree on that give the same record,
   * and so the same recommendation.
   */
  lemma ReplayDependsOnlyOnLastChoices(a: Answers, s1: seq<Selection>, s2: seq<Selection>)
    requires forall q :: LastChoice(s1, q) == LastChoice(s2, q)
    ensures Replay(a, s1) == Replay(a, s2)
    ensures Result(Replay(a, s1)) == Result(Replay(a, s2))
  {
    forall q ensures Chosen(Replay(a, s1), q) == Chosen(Replay(a, s2), q) {
      ReplayLastChoiceWins(a, s1, q);
      ReplayLastChoiceWins(a, s2, q);
    }
    AnswersExtensional(Replay(a, s1), Replay(a, s2));
  }

  /** Once all four questions are answered, no further click takes the recommendation away. */
  lemma {:induction false} CompleteStaysComplete(a: Answers, sels: seq<Selection>)
    requires Complete(a)
    ensures Complete(Replay(a, sels))
    ensures Result(Replay(a, sels)).Some?
  {
    if sels != [] {
      CompleteStaysComplete(a, sels[..|sels| - 1]);
      SetAnswerKeepsComplete(Replay(a, sels[..|sels| - 1]), sels[|sels| - 1]);
    }
  }

  /** Some click in `sels` answers question q. */
  predicate Clicked(sels: seq<Selection>, q: Question)
  {
    exists i :: 0 <= i < |sels| && QuestionOf(sels[i]) == q
  }

  /** From the empty record, a recommendation shows exactly when every question has been clicked. */
  lemma ResultShownIffAllClicked(sels: seq<Selection>)
    ensures Result(Replay(Empty, sels)).Some? <==> forall q :: Clicked(sels, q)
  {
    var r := Replay(Empty, sels);
    forall q ensures Chosen(r, q).Some? <==> Clicked(sels, q) {
      ReplayLastChoiceWins(Empty, sels, q);
    }
    CompleteIffAllChosen(r);
  }

  /** The quiz component's state: the answer record behind `useState`. */
  class Quiz {
    var answers: Answers

    constructor ()
      ensures answers == Empty
      ensures Result(answers).None?
    {
      answers := Empty;
    }

    /** An option button's click handler: `setAnswers(s => ({ ...s, [k]: v }))`. */
    method Select(s: Selection)
      modifies this
      ensures answers == SetAnswer(old(answers), s)
      ensures Chosen(answers, QuestionOf(s)) == Some(s)
      ensures forall q :: q != QuestionOf(s) ==> Chosen(answers, q) == Chosen(old(answers), q)
      ensures old(Complete(answers)) ==> Result(answers).Some?
    {
      answers := SetAnswer(answers, s);
    }

    /** What the quiz displays under the questions. */
    function Shown(): (r: Option<Recommendation>)
      reads this
      ensures r.Some? <==> Complete(answers)
    {
      Result(answers)
    }
  }
}
