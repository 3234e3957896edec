/**
 * The quiz as the component writes it: answers are strings, "unset" is any falsy
 * value (undefined or ""), and the rule compares strings (src/App.tsx:87-96).
 * The option buttons only ever store the values listed at src/App.tsx:114-117;
 * this module shows that on such records the string rule and the typed model agree.
 */
module QuizStrings {
  import opened Wrappers
  import opened QuizAnswers
  import opened QuizRecommendation

  /** The record as stored: None is a missing key (undefined). */
  datatype RawAnswers = RawAnswers(
    budget: Option<string>,
    primaryUse: Option<string>,
    capacity: Option<string>,
    portability: Option<string>)

  /** JavaScript truthiness of an optional string. */
  predicate Truthy(v: Option<string>)
  {
    v.Some? && v.value != ""
  }

  /** `v === lit`, where a missing key is never equal to a string literal. */
  predicate Is(v: Option<string>, lit: string)
  {
    v == Some(lit)
  }

  /** The stored value for question q. */
  function RawField(r: RawAnswers, q: Question): Option<string>
  {
    match q
    case BudgetQ => r.budget
    case PrimaryUseQ => r.primaryUse
    case CapacityQ => r.capacity
    case PortabilityQ => r.portability
  }

  /** `set(k, v)` on the stored record: key q now holds v, the other keys keep their values. */
  function RawSet(r: RawAnswers, q: Question, v: string): (r': RawAnswers)
    ensures RawField(r', q) == Some(v)
    ensures forall q' :: q' != q ==> RawField(r', q') == RawField(r, q')
  {
    match q
    case BudgetQ => r.(budget := Some(v))
    case PrimaryUseQ => r.(primaryUse := Some(v))
    case CapacityQ => r.(capacity := Some(v))
    case PortabilityQ => r.(portability := Some(v))
  }

  /**
   * The `result` computation over strings. It is total over every string
   * record: any falsy field gives None, and otherwise one of the three blocks.
   */
  function RawResult(r: RawAnswers): (res: Option<Recommendation>)
    ensures res.None? <==>
      !(Truthy(r.budget) && Truthy(r.primaryUse) && Truthy(r.capacity) && Truthy(r.portability))
    ensures res.Some? ==> res.value in {SsdMessage, HddMessage, HybridMessage}
  {
    if !Truthy(r.budget) || !Truthy(r.primaryUse) || !Truthy(r.capacity) || !Truthy(r.portability) then None
    else
      var preferSsd := (Is(r.primaryUse, "os") || Is(r.primaryUse, "editing")) &&
        !Is(r.budget, "tight") && !Is(r.portability, "stationary");
      var preferHdd := Is(r.capacity, "multiTB") || Is(r.budget, "tight") ||
        Is(r.primaryUse, "archive") || Is(r.portability, "stationary");
      if preferSsd && !preferHdd then Some(SsdMessage)
      else if preferHdd && !preferSsd then Some(HddMessage)
      else Some(HybridMessage)
  }

  /** The value an option button stores (the option lists of the four questions). */
  function OptionValue(s: Selection): string
  {
    match s
    case PickBudget(Tight) => "tight"
    case PickBudget(Moderate) => "moderate"
    case PickBudget(Flexible) => "flexible"
    case PickPrimaryUse(Os) => "os"
    case PickPrimaryUse(Gaming) => "gaming"
    case PickPrimaryUse(Editing) => "editing"
    case PickPrimaryUse(Archive) => "archive"
    case PickCapacity(Sub1TB) => "sub1TB"
    case PickCapacity(OneToFour) => "oneToFour"
    case PickCapacity(MultiTB) => "multiTB"
    case PickPortability(Stationary) => "stationary"
    case PickPortability(Mobile) => "mobile"
  }

  /** Reads a stored value back as an option of question q; None for a value no button stores. */
  function ParseOption(q: Question, v: string): (s: Option<Selection>)
    ensures s.Some? ==> QuestionOf(s.value) == q && OptionValue(s.value) == v
  {
    match q
    case BudgetQ =>
      if v == "tight" then Some(PickBudget(Tight))
      else if v == "moderate" then Some(PickBudget(Moderate))
      else if v == "flexible" then Some(PickBudget(Flexible))
      else None
    case PrimaryUseQ =>
      if v == "os" then Some(PickPrimaryUse(Os))
      else if v == "gaming" then Some(PickPrimaryUse(Gaming))
      else if v == "editing" then Some(PickPrimaryUse(Editing))
      else if v == "archive" then Some(PickPrimaryUse(Archive))
      else None
    case CapacityQ =>
      if v == "sub1TB" then Some(PickCapacity(Sub1TB))
      else if v == "oneToFour" then Some(PickCapacity(OneToFour))
      else if v == "multiTB" then Some(PickCapacity(MultiTB))
      else None
    case PortabilityQ =>
      if v == "stationary" then Some(PickPortability(Stationary))
      else if v == "mobile" then Some(PickPortability(Mobile))
      else None
  }

  /** Every button's value reads back as that button's option; so no two buttons of a question store the same value, and none stores "". */
  lemma ParseOptionValue(s: Selection)
    ensures ParseOption(QuestionOf(s), OptionValue(s)) == Some(s)
    ensures OptionValue(s) != ""
  {
  }

  function EncodeField<T>(v: Option<T>, f: T -> string): Option<string>
  {
    match v
    case None => None
    case Some(x) => Some(f(x))
  }

  /** The stored form of a typed record. */
  function Encode(a: Answers): RawAnswers
  {
    RawAnswers(
      EncodeField(a.budget, b => OptionValue(PickBudget(b))),
      EncodeField(a.primaryUse, u => OptionValue(PickPrimaryUse(u))),
      EncodeField(a.capacity, c => OptionValue(PickCapacity(c))),
      EncodeField(a.portability, p => OptionValue(PickPortability(p))))
  }

  /** A button click on the stored record is the typed `SetAnswer` on the typed record. */
  lemma RawSetMatchesSetAnswer(a: Answers, s: Selection)
    ensures RawSet(Encode(a), QuestionOf(s), OptionValue(s)) == Encode(SetAnswer(a, s))
  {
  }

  /** On every record the buttons can produce, the string rule gives the typed model's result. */
  lemma RawResultMatchesResult(a: Answers)
    ensures RawResult(Encode(a)) == Result(a)
  {
  }
}
