# EduEval AI — a verified model of the evaluation-instrument core

EduEval AI is a React application in which a teacher builds five kinds of evaluation
instruments: an analytic rubric, a checklist (lista de cotejo), a rating scale (escala de
valoración), an observation guide (guía de observación) and an exam. Each instrument can be
created by hand or generated by a language-model service. Each editor then changes the
instrument and computes its score on a 0 to 10 scale.

This project models that core in Dafny and proves properties of it:

- the typed records of `types.ts`;
- the editing operations and score computations of the five editor components;
- the mapping in `App.tsx` of a generation reply into a record with fresh identifiers;
- the application's slots and `handleAiGenerate`.

The modules follow the source files:

| module | source | form |
|---|---|---|
| `Lists` | the `filter`, `map` and summing `reduce` the editors use | functions and lemmas |
| `Ids` | the ``` `x-${Date.now()}` ``` and ``` `x-${Date.now()}-${i}` ``` identifiers | functions and lemmas |
| `Types` | `types.ts` | datatypes |
| `RubricCreator` | `components/RubricCreator.tsx` | functions, one method with a loop (`calculateFinalScore` is a `forEach` over two accumulators) |
| `ChecklistCreator` | `components/ChecklistCreator.tsx` | functions and lemmas |
| `EscalaCreator` | `components/EscalaCreator.tsx` | functions and lemmas |
| `ExamCreator` | `components/ExamCreator.tsx` | functions and lemmas |
| `GuiaObservacionCreator` | `components/GuiaObservacionCreator.tsx` | functions and lemmas |
| `Generation` | `App.tsx`, the form check and the reply mapping | functions and lemmas |
| `AppState` | `App.tsx`, the state and `handleAiGenerate` | a class whose methods update its fields |

## Modelling choices

- **Scores.** Scores are exact reals. `toFixed(2)` and IEEE rounding are not modelled. The
  rubric's `"-"` is `RubricScore.Unscored`.
- **JavaScript truthiness is kept where the code relies on it.**
  - `if (c.selectedLevel)` treats an absent level and level 0 alike as unselected.
  - `checked` is optional, so a missing value is unchecked.
  - `!it.checked` turns a missing `checked` into `true`.
  - `x || 0` reads a missing rating or missing obtained points as 0.
  - `!text.trim()` holds exactly when the text consists only of ECMAScript white-space and
    line-terminator characters.
- **Clock.** `Date.now()` is a parameter:
  - an editor edit takes the reading `now`;
  - the reply mapper takes a function `clock` from element index to reading, because the source
    calls `Date.now()` inside the `map` callback.

  Identifiers are the strings the template literals build, with numbers in decimal.
- **Generation service.** The service call is outside the model. Its settlement is an input:
  it either rejects, or it resolves with a reply of one of four shapes (the checklist and the
  rating scale share `{title, items}`).
  - A reply whose shape is not the one the active kind's branch reads is the `TypeError` that
    the `catch` reports.
- **`handleAiGenerate`.** It is split at its `await`:
  - `StartAiGenerate` does the form check, sets `isLoading`, and captures the active kind and
    the form;
  - `FinishAiGenerate` installs the mapped record or reports the error, and clears `isLoading`.

  The mapping uses the captured values, as the handler's closure does.

### Behaviours worth knowing

- **Rubric sentinel.** `"-"` is shown whenever the weights of the selected criteria sum to 0 or
  less, not only when no criterion is selected. A lone criterion selected with weight 0 also
  gives `"-"`, and level 0 counts as no selection (`RubricCreator.ScoreExamples`).
- **Missing `checked`.** The field is optional: a missing value counts as unchecked, and one
  toggle turns it into `true`. Two toggles restore an item only when `checked` was present
  (`ChecklistCreator.ToggleTwiceRestores`).
- **Identifiers.** Generated ids carry an index suffix, so the ids of one generated list are
  distinct whatever the clock reads (`Ids.MappedIdsDistinct`). Ids added by hand carry no
  index, so two additions in the same millisecond get the same id.

## Model

| member | source | states |
|---|---|---|
| Types.FiveDistinctKinds | types.ts:2-8 | there are exactly five instrument kinds and their string values are pairwise distinct |
| Types.QuestionTagsExact | types.ts:47 | a question's kind is one of the three literals and is determined by its literal |
| Ids.MappedIdInjective | App.tsx:49 | a generated id determines the clock reading and the index it was built from |
| Ids.MappedIdsDistinct | App.tsx:49 | the ids of one mapped list are pairwise distinct, whatever the clock reads at each element |
| Ids.ManualIdNotMapped | components/ChecklistCreator.tsx:37 | an id added by hand never equals a generated id with the same prefix |
| RubricCreator.CalculateFinalScore | components/RubricCreator.tsx:77-88 | the loop over both accumulators computes `FinalScore`; the result is the sentinel exactly when the selected weights sum to at most 0 |
| RubricCreator.NoSelectionIsUnscored | components/RubricCreator.tsx:77-88 | with no criterion selected, both accumulators are 0 and the score is the sentinel |
| RubricCreator.UnselectedContributesNothing | components/RubricCreator.tsx:80-86 | an unselected criterion, wherever it stands, changes neither accumulator nor the score |
| RubricCreator.ContributionBound | components/RubricCreator.tsx:82-83 | a criterion at level 1 to 4 with non-negative weight adds between 0 and a tenth of its weight |
| RubricCreator.WeightedScoreBound | components/RubricCreator.tsx:77-88 | the weighted score lies between 0 and a tenth of the selected weight |
| RubricCreator.ScoreWithinTen | components/RubricCreator.tsx:77-88 | with levels 1 to 4, non-negative weights and selected weights summing to at most 100, a shown score lies in 0 to 10 |
| RubricCreator.ScoreExamples | components/RubricCreator.tsx:77-88 | 40/30/30 at levels 4, 2 and none scores 5.5; weight 50 at level 4 scores 5; weight 0 or level 0 leaves the sentinel |
| RubricCreator.CreateEmptyRubric | components/RubricCreator.tsx:14-24 | one unselected criterion of weight 20 with the four level keys, so the score is the sentinel |
| RubricCreator.HandleLevelSelect | components/RubricCreator.tsx:40-45 | only the selected level of the criteria with that id changes, to `level` |
| RubricCreator.LevelSelectScore | components/RubricCreator.tsx:40-45 | selecting a level for the one criterion with that id swaps its old contribution for the new one in both accumulators; other ids may repeat |
| RubricCreator.AddCriterion | components/RubricCreator.tsx:47-55 | the old criteria stay as a prefix, followed by one unselected criterion of weight 10 with the four level keys |
| RubricCreator.AddCriterionKeepsScore | components/RubricCreator.tsx:47-55 | adding a criterion never changes the score |
| RubricCreator.RemoveCriterion | components/RubricCreator.tsx:57-59 | no criterion with that id remains, every other criterion stays, and an unknown id changes nothing |
| RubricCreator.RemoveKeepsOrder | components/RubricCreator.tsx:57-59 | removing the one criterion with a given id leaves the others in their order; other ids may repeat |
| RubricCreator.RemoveUndoesAdd | components/RubricCreator.tsx:47-59 | removing a criterion just added under a fresh id restores the rubric |
| RubricCreator.UpdateCriterion | components/RubricCreator.tsx:61-66 | only the edited field of the matching criteria changes |
| RubricCreator.UpdateLevelDescription | components/RubricCreator.tsx:68-75 | only the text at that level key of the matching criteria changes; the other level texts are kept |
| RubricCreator.EditsKeepEditorLevels | components/RubricCreator.tsx:14-75 | every edit keeps the four level keys 4, 3, 2, 1 on every criterion |
| ChecklistCreator.CalculateScore | components/ChecklistCreator.tsx:54-57 | the score lies in 0 to 10; it is 10 exactly when there are items and all are checked, and 0 exactly when none is checked |
| ChecklistCreator.NoneCheckedIffZero | components/ChecklistCreator.tsx:55 | the checked count is 0 exactly when no item is checked |
| ChecklistCreator.CreateEmptyChecklist | components/ChecklistCreator.tsx:15-24 | one unchecked item, so the score is 0 |
| ChecklistCreator.AddItem | components/ChecklistCreator.tsx:34-40 | a blank pending text changes nothing; otherwise the text is appended, untrimmed, as one unchecked item and the pending text is cleared |
| ChecklistCreator.AddItemScore | components/ChecklistCreator.tsx:34-40 | an added item keeps the checked count and adds one to the item count |
| ChecklistCreator.RemoveItem | components/ChecklistCreator.tsx:42-44 | no item with that id remains, every other item stays, and an unknown id changes nothing |
| ChecklistCreator.RemoveKeepsOrder | components/ChecklistCreator.tsx:42-44 | removing the one item with a given id leaves the others in their order; other ids may repeat |
| ChecklistCreator.RemoveUndoesAdd | components/ChecklistCreator.tsx:34-44 | removing an item just added under a fresh id restores the checklist |
| ChecklistCreator.UpdateItemText | components/ChecklistCreator.tsx:46-48 | only the text of the matching items changes |
| ChecklistCreator.UpdateItemTextKeepsScore | components/ChecklistCreator.tsx:46-48 | editing text never changes the score |
| ChecklistCreator.ToggleItem | components/ChecklistCreator.tsx:50-52 | the matching items' `checked` becomes the negation of their truthiness; ids, texts and other items are unchanged |
| ChecklistCreator.ToggleTwice | components/ChecklistCreator.tsx:50-52 | toggling twice restores every item's checked state |
| ChecklistCreator.ToggleTwiceRestores | components/ChecklistCreator.tsx:50-52 | when every item carries `checked`, toggling twice gives back the same checklist |
| ChecklistCreator.ToggleScore | components/ChecklistCreator.tsx:50-57 | toggling the one item with that id moves the checked count by exactly one, down if it was checked and up otherwise; other ids may repeat |
| ChecklistCreator.ScoreScenario | components/ChecklistCreator.tsx:34-57 | from no items: add one, tick it, and the score is 10; add a second one and the score is 5 |
| ChecklistCreator.SecondItemHalves | components/ChecklistCreator.tsx:34-57 | adding an unchecked item to a single checked one gives the score 5 |
| EscalaCreator.CalculateTotal | components/EscalaCreator.tsx:37-41 | no items gives 0; with ratings in 0 to 5 the total lies in 0 to 10, is 10 exactly when every item is rated 5, and is 0 exactly when every rating is 0 |
| EscalaCreator.RatingSumRange | components/EscalaCreator.tsx:38-39 | in-range ratings sum to between 0 and 5 per item, reaching each end exactly when every rating does |
| EscalaCreator.AllTopIffFull | components/EscalaCreator.tsx:38-39 | the sum of ratings reaches 5 per item exactly when every item is rated 5 |
| EscalaCreator.CreateEmpty | components/EscalaCreator.tsx:13-20 | one indicator rated 0, so the total is 0 |
| EscalaCreator.HandleRating | components/EscalaCreator.tsx:30-35 | only the rating of the matching items changes, to `val` |
| EscalaCreator.HandleRatingIdempotent | components/EscalaCreator.tsx:30-35 | rating twice with the same value is rating once |
| EscalaCreator.HandleRatingKeepsRange | components/EscalaCreator.tsx:30-35 | rating with one of the buttons 1 to 5 keeps every rating in 0 to 5 |
| EscalaCreator.HandleRatingSum | components/EscalaCreator.tsx:30-38 | rating the one item with that id moves the sum of ratings by the difference; other ids may repeat |
| ExamCreator.CalculateTotal | components/ExamCreator.tsx:53-57 | nothing possible, or nothing obtained, gives 0; graded within bounds, the grade lies in 0 to 10, is 10 exactly when points are possible and every question has full marks, and is 0 exactly when nothing is obtained |
| ExamCreator.GradedSums | components/ExamCreator.tsx:53-57 | within bounds, the points obtained lie between 0 and the points possible, reaching each end exactly when every question does |
| ExamCreator.NothingPossible | components/ExamCreator.tsx:53-57 | within bounds and with nothing possible, nothing is obtained on any question |
| ExamCreator.UngradedIsZero | components/ExamCreator.tsx:54 | with no question graded, the points obtained are 0 |
| ExamCreator.CreateEmptyExam | components/ExamCreator.tsx:14-23 | one ungraded multiple-choice question worth 1 point, so the grade is 0 |
| ExamCreator.AddQuestion | components/ExamCreator.tsx:33-36 | the old questions stay as a prefix, followed by one ungraded question of the chosen kind worth 1 point |
| ExamCreator.AddQuestionTotals | components/ExamCreator.tsx:33-36 | adding a question keeps the points obtained, adds exactly 1 to the points possible, and keeps every grade within bounds |
| ExamCreator.RemoveQuestion | components/ExamCreator.tsx:38-40 | no question with that id remains, every other question stays, and an unknown id changes nothing |
| ExamCreator.RemoveKeepsOrder | components/ExamCreator.tsx:38-40 | removing the one question with a given id leaves the others in their order; other ids may repeat |
| ExamCreator.RemoveUndoesAdd | components/ExamCreator.tsx:33-40 | removing a question just added under a fresh id restores the exam |
| ExamCreator.UpdateQuestionText | components/ExamCreator.tsx:42-44 | only the text of the matching questions changes |
| ExamCreator.UpdateTextKeepsTotal | components/ExamCreator.tsx:42-44 | editing a question's text never changes the grade |
| ExamCreator.SameGrading | components/ExamCreator.tsx:53-57 | lists that agree on points and obtained points have the same totals |
| ExamCreator.HandlePointChange | components/ExamCreator.tsx:46-51 | only the obtained points of the matching questions change; their points, text and kind, and the other questions, are unchanged |
| ExamCreator.PointChangeTotals | components/ExamCreator.tsx:46-57 | grading the one question with that id swaps its obtained points for the new value, keeps the points possible, and keeps grades within bounds when the value is within that question's bounds; other ids may repeat |
| ExamCreator.GradeExample | components/ExamCreator.tsx:53-57 | questions worth 2 and 3 graded 2 and 1.5 give the grade 7 |
| GuiaObservacionCreator.CreateEmpty | components/GuiaObservacionCreator.tsx:13-26 | one participation aspect with empty notes |
| GuiaObservacionCreator.UpdateNotes | components/GuiaObservacionCreator.tsx:36-41 | only the notes of the matching aspects change; the title and every other field are kept |
| GuiaObservacionCreator.UpdateUnknownIdIsIdentity | components/GuiaObservacionCreator.tsx:36-41 | notes for an id no aspect carries change nothing |
| GuiaObservacionCreator.UpdateNotesLastWins | components/GuiaObservacionCreator.tsx:36-41 | of two note edits to the same aspect only the last is kept |
| GuiaObservacionCreator.UpdateNotesCommute | components/GuiaObservacionCreator.tsx:36-41 | note edits to different aspects commute |
| GuiaObservacionCreator.SetTitle | components/GuiaObservacionCreator.tsx:49 | the title is replaced and the aspects are untouched |
| Generation.MapRubric | App.tsx:44-50 | the reply's title and description, the form's subject and level, and each criterion copied with a distinct generated id and no selection, so the score is the sentinel |
| Generation.MapChecklist | App.tsx:51-57 | the form's subject and level, and each text as an unchecked item with a distinct generated id, so the score is 0 |
| Generation.MapEscala | App.tsx:58-62 | each text as an item rated 0 with a distinct generated id, so the total is 0 |
| Generation.MapGuia | App.tsx:63-67 | each aspect copied with a distinct generated id and empty notes |
| Generation.MapExam | App.tsx:68-73 | the form's subject, and each question copied with a distinct generated id and ungraded, so the grade is 0 |
| Generation.MapResponse | App.tsx:44-74 | a record is produced exactly when the reply has the shape the active kind reads, and it is of that kind |
| Generation.ContextInjection | App.tsx:44-74 | the rubric and the checklist take the form's subject and level, the exam its subject only, the scale and the guide nothing, and the topic reaches no record |
| Generation.AddRemoveOnGenerated | App.tsx:51-57 | adding an item by hand to a generated checklist and removing it again restores the generated checklist |
| AppState.SlotState.Get | App.tsx:23-27 | a filled slot holds a record of its own kind |
| AppState.SlotState.With | App.tsx:23-27 | calling a slot setter fills that kind's slot and leaves the other four unchanged |
| AppState.SlotsExtensional | App.tsx:23-27 | slot states that agree on every kind are equal |
| AppState.WithKeepsFilled | App.tsx:23-27 | no setter call empties a slot |
| AppState.WithLastWins | App.tsx:23-27 | of two records of the same kind installed in turn only the last is kept |
| AppState.WithCommutes | App.tsx:23-27 | records of different kinds can be installed in either order |
| AppState.Generated | App.tsx:41-78 | a settled request yields a record exactly when it resolved with a reply of the right shape, and the record is of the captured kind |
| AppState.App.constructor | App.tsx:16-27 | the rubric tab, not loading, no toast, an empty form and five empty slots |
| AppState.App.SetActiveTab | App.tsx:16 | only the active kind changes |
| AppState.App.SetAiConfig | App.tsx:22 | only the form changes |
| AppState.App.Install | App.tsx:23-27 | the slots become the old slots with that record installed, and nothing else changes |
| AppState.App.CreateManual | App.tsx:209-223 | each editor gets its slot and setter and, while `data` is null (`if (!data)`), offers its `createEmpty`; from an empty slot the empty record of that kind is installed and the other four slots are unchanged |
| AppState.App.SetData | App.tsx:23-27 | an edited record replaces the one in its filled slot, and nothing else changes |
| AppState.App.StartAiGenerate | App.tsx:34-42 | an incomplete form gives the error toast and changes nothing else; a complete one starts loading and captures the kind and the form |
| AppState.App.FinishAiGenerate | App.tsx:41-81 | loading ends; the mapped record is installed with the success toast, or nothing is installed and the error toast is shown |
| AppState.App.HandleAiGenerate | App.tsx:34-82 | the whole handler: the form gate, then install-or-report; the tab and the form are unchanged |

## Left out

- Rendering, styling, the PDF export (`html2pdf`) and `window.print`: user-interface work with no state the core depends on.
- `services/geminiService.ts`, that is the prompts, the response schemas, the network call and `JSON.parse`. A reply of one of the four shapes, or a failure, is an input to `FinishAiGenerate`. Replies with missing or extra fields, and the fields the spreads `...result`, `...c`, `...a` and `...q` would copy through, are not modelled.
- The toast's three-second dismissal timer (`setTimeout`): it is timing, not state the core uses.
- `toFixed(2)` and floating point: scores are exact reals.
- `Date.now()`: it is a parameter, not a clock.
- `constants.tsx` and `components/Toast.tsx` are not part of this model.
- The `parseInt` and `parseFloat` fallbacks on the number inputs: input parsing at the UI boundary. The model takes the numbers.
- `studentName`, `sessionInfo` and `isAiMode`: display-only state.
- The inline title edits of the rubric, the checklist, the rating scale and the exam, and the exam's instructions edit. Each one replaces one field of the record, as `GuiaObservacionCreator.SetTitle` does, and they are not repeated per editor.
- RubricCreator.UpdateCriterion: it edits only `name` and `weight`, the two fields the editor passes. The source's `[field]: value` would accept any field name.
- The unused `RubricLevel` interface of `types.ts`.
- Renders between `StartAiGenerate` and `FinishAiGenerate`: the model only keeps the request the closure captured. The generate button is disabled while loading, but the model does not turn that into a precondition.
- Ids added by hand are not proved unique: two additions within one millisecond collide in the source too. The model proves that generated ids are distinct within a list and never equal an id added by hand.
- ExamCreator.CalculateTotal: the 0 to 10 range is stated only when every question is graded between 0 and its points. The input's `min` and `max` are hints that a typed value can exceed.
- EscalaCreator.CalculateTotal: the 0 to 10 range is stated only for ratings between 0 and 5. Only the buttons 1 to 5 and the initial 0 produce ratings; a record that arrives with other values is not bounded.
- RubricCreator.ScoreWithinTen: the range needs the selected weights to sum to at most 100. The source never checks this: it only asks the generator for weights summing to 100.
