/**
 * The quiz's recommendation rule (src/App.tsx:89-97): nothing until all four
 * questions are answered, then SSD, HDD or Hybrid from two preference signals.
 */
module QuizRecommendation {
  import opened Wrappers
  import opened QuizAnswers

  datatype Drive = Ssd | Hdd | Hybrid

  /** The block the quiz displays: a title and a description. */
  datatype Recommendation = Recommendation(title: string, desc: string)

  const SsdMessage: Recommendation := Recommendation(
    "Recommendation: SSD",
    "Use an SSD for OS/apps and time\U{2011}sensitive tasks. Pair with an HDD for libraries/backups.")
  const HddMessage: Recommendation := Recommendation(
    "Recommendation: HDD",
    "Choose a high\U{2011}capacity HDD for multi\U{2011}terabyte value\U{2014}ideal for libraries, backups, NAS, and archives.")
  const HybridMessage: Recommendation := Recommendation(
    "Recommendation: Hybrid (SSD + HDD)",
    "SSD for OS/apps + HDD for mass storage gives the best balance of speed, capacity, and cost.")

  /** The speed signal: an OS or editing workload, a budget that is not tight, a mobile machine. */
  predicate PreferSsd(b: Budget, u: PrimaryUse, p: Portability)
  {
    (u == Os || u == Editing) && b != Tight && p != Stationary
  }

  /** The capacity signal: any one of many terabytes, a tight budget, archiving or a stationary machine. */
  predicate PreferHdd(b: Budget, u: PrimaryUse, c: Capacity, p: Portability)
  {
    c == MultiTB || b == Tight || u == Archive || p == Stationary
  }

  /**
   * The outcome for a record, or None while a question is unanswered.
   * The ensures clauses characterise each outcome directly by the answers.
   */
  function Recommend(a: Answers): (r: Option<Drive>)
    ensures r.None? <==> !Complete(a)
    ensures r == Some(Ssd) <==>
      Complete(a) && a.primaryUse.value in {Os, Editing} && a.budget.value != Tight &&
      a.portability.value == Mobile && a.capacity.value != MultiTB
    ensures r == Some(Hdd) <==>
      Complete(a) &&
      (a.budget.value == Tight || a.primaryUse.value == Archive || a.portability.value == Stationary ||
       (a.primaryUse.value == Gaming && a.capacity.value == MultiTB))
    ensures r == Some(Hybrid) <==>
      Complete(a) && a.budget.value != Tight && a.portability.value == Mobile &&
      ((a.primaryUse.value in {Os, Editing} && a.capacity.value == MultiTB) ||
       (a.primaryUse.value == Gaming && a.capacity.value != MultiTB))
  {
    if !Complete(a) then None
    else
      var b, u, c, p := a.budget.value, a.primaryUse.value, a.capacity.value, a.portability.value;
      var ssd := PreferSsd(b, u, p);
      var hdd := PreferHdd(b, u, c, p);
      if ssd && !hdd then Some(Ssd)
      else if hdd && !ssd then Some(Hdd)
      else Some(Hybrid)
  }

  function Message(d: Drive): Recommendation
  {
    match d
    case Ssd => SsdMessage
    case Hdd => HddMessage
    case Hybrid => HybridMessage
  }

  /** The quiz's `result`: the displayed block, or null while incomplete. */
  function Result(a: Answers): (r: Option<Recommendation>)
    ensures r.None? <==> !Complete(a)
    ensures r.Some? ==> r.value in {SsdMessage, HddMessage, HybridMessage}
  {
    match Recommend(a)
    case None => None
    case Some(d) => Some(Message(d))
  }

  /** The three displayed blocks are distinct, so the block tells which drive was recommended. */
  lemma MessageInjective(d: Drive, e: Drive)
    ensures Message(d) == Message(e) <==> d == e
  {
  }

  /** The outcome is SSD exactly when the speed signal fires and the capacity signal does not. */
  lemma SsdIffOnlySpeedSignal(a: Answers)
    requires Complete(a)
    ensures Recommend(a) == Some(Ssd) <==>
      PreferSsd(a.budget.value, a.primaryUse.value, a.portability.value) &&
      !PreferHdd(a.budget.value, a.primaryUse.value, a.capacity.value, a.portability.value)
  {
  }

  /** The outcome is Hybrid exactly when the two signals agree. */
  lemma HybridIffSignalsAgree(a: Answers)
    requires Complete(a)
    ensures Recommend(a) == Some(Hybrid) <==>
      (PreferSsd(a.budget.value, a.primaryUse.value, a.portability.value) <==>
       PreferHdd(a.budget.value, a.primaryUse.value, a.capacity.value, a.portability.value))
  {
  }

  /** A tight budget, archiving or a stationary machine each force HDD, whatever else is chosen. */
  lemma HddForcedBySingleAnswer(a: Answers)
    requires Complete(a)
    requires a.budget.value == Tight || a.primaryUse.value == Archive || a.portability.value == Stationary
    ensures Result(a) == Some(HddMessage)
  {
  }

  /** An SSD result implies each of the answers that lead to it. */
  lemma SsdNecessaryAnswers(a: Answers)
    requires Result(a) == Some(SsdMessage)
    ensures a.primaryUse == Some(Os) || a.primaryUse == Some(Editing)
    ensures a.budget != Some(Tight)
    ensures a.portability != Some(Stationary)
    ensures a.capacity != Some(MultiTB)
  {
  }

  /** Worked answer sets; a tight budget with an OS workload is HDD, not Hybrid. */
  lemma WorkedExamples()
    ensures Recommend(Answers(Some(Flexible), Some(Os), Some(Sub1TB), Some(Mobile))) == Some(Ssd)
    ensures Recommend(Answers(Some(Tight), Some(Gaming), Some(MultiTB), Some(Stationary))) == Some(Hdd)
    ensures Recommend(Answers(Some(Flexible), Some(Gaming), Some(OneToFour), Some(Mobile))) == Some(Hybrid)
    ensures Recommend(Answers(Some(Tight), Some(Os), Some(Sub1TB), Some(Mobile))) == Some(Hdd)
    ensures Recommend(Answers(Some(Flexible), Some(Editing), Some(MultiTB), Some(Mobile))) == Some(Hybrid)
  {
  }
}
