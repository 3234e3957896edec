# Which-drive quiz: a Dafny model

This project models the decision logic of the HDD-vs-SSD buying guide: the
"Which Drive is Right for You?" quiz in `WhichDriveQuiz` (src/App.tsx:86-127).
The quiz keeps a record of four answers: budget, primary use, capacity and
portability. Each option button overwrites one answer. After every click the
record is mapped to a recommendation block (SSD, HDD or Hybrid, each a fixed
title and description), or to nothing while some question is unanswered.

Modules:

- `Wrappers` — the `Option` type used for "not answered yet".
- `QuizAnswers` (answers.dfy) — the four option enumerations, the answer record,
  a button click as a `Selection` (question plus option), and `SetAnswer`, the
  `set(k, v)` updater.
- `QuizRecommendation` (recommend.dfy) — the two preference signals, the outcome
  `Recommend`, the displayed `Result` and the three fixed blocks.
- `QuizSession` (session.dfy) — a sequence of clicks (`Replay`) and the
  component state as a class `Quiz` whose `Select` method is the click handler.
- `QuizStrings` (strings.dfy) — the rule as the component writes it, over strings
  with JavaScript truthiness, and its agreement with the typed model on every
  record the buttons can produce.

The outcome for a complete record, proved as the contract of `Recommend`:

- SSD exactly when the use is OS or editing, the budget is not tight, the machine
  is mobile and the capacity is not multi-terabyte.
- HDD exactly when the budget is tight, or the use is archiving, or the machine
  is stationary, or the use is gaming with multi-terabyte capacity.
- Hybrid otherwise. That is, both signals fire (OS or editing, not tight, mobile,
  multi-terabyte) or neither fires (gaming, not tight, mobile, under
  multi-terabyte).

A tight budget alone forces HDD even with an OS workload (`WorkedExamples`),
because lines 92-93 turn the speed signal off and the capacity signal on. A
reading of the quiz that puts that case under Hybrid does not match the code.
The model follows the code.

## Model

| member | source | states |
|---|---|---|
| `QuizAnswers.SetAnswer` | src/App.tsx:88 | the clicked question now holds the clicked option; the other three answers are unchanged |
| `QuizAnswers.AnswersExtensional` | src/App.tsx:87 | the record is exactly its four answers: two records with the same answer to every question are equal |
| `QuizAnswers.CompleteIffAllChosen` | src/App.tsx:91 | the completeness gate holds exactly when every one of the four questions has an answer |
| `QuizAnswers.SetAnswerIdempotent` | src/App.tsx:88 | clicking the same option twice gives the same record as clicking it once |
| `QuizAnswers.SetAnswerOverwrites` | src/App.tsx:88 | a later click on the same question replaces the earlier answer (one slot per question) |
| `QuizAnswers.SetAnswerCommutes` | src/App.tsx:88 | clicks on different questions give the same record in either order |
| `QuizAnswers.SetAnswerKeepsComplete` | src/App.tsx:88-91 | no click clears an answer: a complete record stays complete |
| `QuizRecommendation.Recommend` | src/App.tsx:89-97 | no outcome iff some answer is missing; otherwise SSD, HDD and Hybrid each hold exactly under their closed-form condition on the four answers |
| `QuizRecommendation.Result` | src/App.tsx:89-97 | null iff some answer is missing; otherwise always one of the three fixed title/description blocks |
| `QuizRecommendation.MessageInjective` | src/App.tsx:94-96 | the three blocks are pairwise distinct, so the block shown identifies the outcome |
| `QuizRecommendation.SsdIffOnlySpeedSignal` | src/App.tsx:92-94 | the outcome is SSD exactly when preferSSD holds and preferHDD does not |
| `QuizRecommendation.HybridIffSignalsAgree` | src/App.tsx:92-96 | the outcome is Hybrid exactly when preferSSD and preferHDD are both true or both false |
| `QuizRecommendation.HddForcedBySingleAnswer` | src/App.tsx:92-95 | a tight budget, archiving or a stationary machine each give the HDD block, whatever the other answers |
| `QuizRecommendation.SsdNecessaryAnswers` | src/App.tsx:92-94 | an SSD block implies use OS or editing, budget not tight, not stationary and capacity not multi-terabyte |
| `QuizRecommendation.WorkedExamples` | src/App.tsx:92-96 | five concrete answer sets and their outcomes, among them tight budget with OS use giving HDD |
| `QuizSession.ReplayLastChoiceWins` | src/App.tsx:88 | after any sequence of clicks, each answer is the last click on that question, or the starting answer if there was none |
| `QuizSession.ReplayDependsOnlyOnLastChoices` | src/App.tsx:88-97 | two click sequences with the same last click per question give the same record and the same result, whatever the order |
| `QuizSession.CompleteStaysComplete` | src/App.tsx:88-91 | once all four answers are set, the result stays non-null after any further clicks |
| `QuizSession.ResultShownIffAllClicked` | src/App.tsx:87-91 | starting from the empty record, a result is shown exactly when every question has been clicked at least once |
| `QuizSession.Quiz.constructor` | src/App.tsx:87 | the quiz starts with no answers and shows no result |
| `QuizSession.Quiz.Select` | src/App.tsx:88 | a click replaces the state with `SetAnswer` of the old state; a complete state keeps showing a result |
| `QuizSession.Quiz.Shown` | src/App.tsx:119-124 | the block is shown exactly when the current record is complete |
| `QuizStrings.RawSet` | src/App.tsx:88 | on the stored string record, key k now holds v and the other keys keep their values |
| `QuizStrings.RawResult` | src/App.tsx:90-96 | on any string record, null iff some field is undefined or empty; otherwise one of the three blocks |
| `QuizStrings.ParseOptionValue` | src/App.tsx:114-117 | every option button's stored value is non-empty and reads back as that option, so the values of one question are distinct |
| `QuizStrings.RawSetMatchesSetAnswer` | src/App.tsx:88 | a button storing its option string is the typed update on the typed record |
| `QuizStrings.RawResultMatchesResult` | src/App.tsx:90-96 | the string comparisons give the typed model's result on every record the buttons can produce |

## Left out

- `useMeta` (src/App.tsx:4-17): it writes the document title and a meta tag, which is browser I/O.
- `useSmoke` (src/App.tsx:19-29): it runs assertions on rendered DOM selectors, a UI smoke check with no logic of the quiz.
- The UI atoms and `BarChart` (src/App.tsx:32-84): pure rendering.
- `useMemo` caching and the JSX of the quiz (src/App.tsx:89, 98-126): the result is modelled as a plain function of the record, recomputed on demand. The `pill` highlight of the active option is not modelled.
- React's asynchronous batching of `setAnswers`: each click is modelled as an immediate replacement of the record.
- `HDDvsSSDPage` (src/App.tsx:130-650): static page content, navigation, the menu toggle, the FAQ list and the footer.
- src/main.tsx: the React root bootstrap. It is not part of this model.
- Values outside the option lists: only the string layer (`QuizStrings`) admits them, because the typed record can only hold options the buttons offer (src/App.tsx:104, 114-117).
