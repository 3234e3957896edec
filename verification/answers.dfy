/**
 * The answer record of the "Which drive is right for you?" quiz and its
 * one-field updater (src/App.tsx:87-88, option lists at 114-117).
 */
module QuizAnswers {
  import opened Wrappers

  datatype Budget = Tight | Moderate | Flexible
  datatype PrimaryUse = Os | Gaming | Editing | Archive
  datatype Capacity = Sub1TB | OneToFour | MultiTB
  datatype Portability = Stationary | Mobile

  /** The four questions of the quiz. */
  datatype Question = BudgetQ | PrimaryUseQ | CapacityQ | PortabilityQ

  /** A click on one option button: the question it answers and the chosen option. */
  datatype Selection =
    | PickBudget(budget: Budget)
    | PickPrimaryUse(use: PrimaryUse)
    | PickCapacity(capacity: Capacity)
    | PickPortability(portability: Portability)

  function QuestionOf(s: Selection): Question
  {
    match s
    case PickBudget(_) => BudgetQ
    case PickPrimaryUse(_) => PrimaryUseQ
    case PickCapacity(_) => CapacityQ
    case PickPortability(_) => PortabilityQ
  }

  /** The record held by the quiz; None is a question not answered yet. */
  datatype Answers = Answers(
    budget: Option<Budget>,
    primaryUse: Option<PrimaryUse>,
    capacity: Option<Capacity>,
    portability: Option<Portability>)

  /** The record the quiz starts from (`useState({})`). */
  const Empty: Answers := Answers(None, None, None, None)

  /** The current answer to question q, as the selection that made it. */
  function Chosen(a: Answers, q: Question): (r: Option<Selection>)
    ensures r.Some? ==> QuestionOf(r.value) == q
  {
    match q
    case BudgetQ => if a.budget.Some? then Some(PickBudget(a.budget.value)) else None
    case PrimaryUseQ => if a.primaryUse.Some? then Some(PickPrimaryUse(a.primaryUse.value)) else None
    case CapacityQ => if a.capacity.Some? then Some(PickCapacity(a.capacity.value)) else None
    case PortabilityQ => if a.portability.Some? then Some(PickPortability(a.portability.value)) else None
  }

  /** Every question has an answer. */
  predicate Complete(a: Answers)
  {
    a.budget.Some? && a.primaryUse.Some? && a.capacity.Some? && a.portability.Some?
  }

  /**
   * `set(k, v)`: overwrite the answer to one question and keep the others.
   * The selection carries both the question and a value from its option list.
   */
  function SetAnswer(a: Answers, s: Selection): (r: Answers)
    ensures Chosen(r, QuestionOf(s)) == Some(s)
    ensures forall q :: q != QuestionOf(s) ==> Chosen(r, q) == Chosen(a, q)
  {
    match s
    case PickBudget(b) => a.(budget := Some(b))
    case PickPrimaryUse(u) => a.(primaryUse := Some(u))
    case PickCapacity(c) => a.(capacity := Some(c))
    case PickPortability(p) => a.(portability := Some(p))
  }

  /** A record is determined by its answers to the four questions. */
  lemma AnswersExtensional(a: Answers, b: Answers)
    requires forall q :: Chosen(a, q) == Chosen(b, q)
    ensures a == b
  {
    assert Chosen(a, BudgetQ) == Chosen(b, BudgetQ);
    assert Chosen(a, PrimaryUseQ) == Chosen(b, PrimaryUseQ);
    assert Chosen(a, CapacityQ) == Chosen(b, CapacityQ);
    assert Chosen(a, PortabilityQ) == Chosen(b, PortabilityQ);
  }

  /** Complete exactly when every question has a chosen option. */
  lemma CompleteIffAllChosen(a: Answers)
    ensures Complete(a) <==> forall q :: Chosen(a, q).Some?
  {
    if !Complete(a) {
      if a.budget.None? { assert Chosen(a, BudgetQ).None?; }
      else if a.primaryUse.None? { assert Chosen(a, PrimaryUseQ).None?; }
      else if a.capacity.None? { assert Chosen(a, CapacityQ).None?; }
      else { assert Chosen(a, PortabilityQ).None?; }
    }
  }

  /** Choosing the same option twice gives the same record as choosing it once. */
  lemma SetAnswerIdempotent(a: Answers, s: Selection)
    ensures SetAnswer(SetAnswer(a, s), s) == SetAnswer(a, s)
  {
  }

  /** A later choice for the same question replaces the earlier one. */
  lemma SetAnswerOverwrites(a: Answers, s: Selection, t: Selection)
    requires QuestionOf(s) == QuestionOf(t)
    ensures SetAnswer(SetAnswer(a, s), t) == SetAnswer(a, t)
  {
  }

  /** Choices for different questions can be made in either order. */
  lemma SetAnswerCommutes(a: Answers, s: Selection, t: Selection)
    requires QuestionOf(s) != QuestionOf(t)
    ensures SetAnswer(SetAnswer(a, s), t) == SetAnswer(SetAnswer(a, t), s)
  {
  }

  /** No choice clears an answer: a complete record stays complete. */
  lemma SetAnswerKeepsComplete(a: Answers, s: Selection)
    requires Complete(a)
    ensures Complete(SetAnswer(a, s))
  {
  }
}
