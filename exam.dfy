/** `components/ExamCreator.tsx`: the exam editor's operations on an `ExamData` and the
    grade it computes from the points entered while grading. */
module ExamCreator {
  import opened Types
  import Lists
  import Ids

  predicate UniqueIds(qs: seq<Question>)
  {
    forall i, j :: 0 <= i < j < |qs| ==> qs[i].id != qs[j].id
  }

  /** The question at `k` is the only one carrying its id; other ids may repeat. */
  predicate IdOnlyAt(qs: seq<Question>, k: nat)
  {
    k < |qs| && forall i :: 0 <= i < |qs| && i != k ==> qs[i].id != qs[k].id
  }

  /** `q.obtainedPoints || 0`: an ungraded question counts as 0. */
  function Obtained(q: Question): real
  {
    q.obtainedPoints.GetOr(0.0)
  }

  function Points(q: Question): real
  {
    q.points
  }

  /** The first `reduce`: the points obtained. */
  function ObtainedTotal(qs: seq<Question>): real
  {
    Lists.Sum(qs, Obtained)
  }

  /** The second `reduce`: the points possible. */
  function PossibleTotal(qs: seq<Question>): real
  {
    Lists.Sum(qs, Points)
  }

  /** The grading input's bounds, `min=0` and `max=q.points`, hold for every question. */
  predicate GradedInRange(qs: seq<Question>)
  {
    forall i :: 0 <= i < |qs| ==> 0.0 <= Obtained(qs[i]) <= qs[i].points
  }

  /** A question's full marks: what it obtained is all it was worth. */
  predicate FullMarks(q: Question)
  {
    Obtained(q) == q.points
  }

  /** `calculateTotal`: the share of the possible points obtained, on a 0 to 10 scale;
      0 when nothing is possible. */
  function CalculateTotal(d: ExamData): (r: real)
    ensures PossibleTotal(d.questions) <= 0.0 ==> r == 0.0
    ensures ObtainedTotal(d.questions) == 0.0 ==> r == 0.0
    ensures GradedInRange(d.questions) ==> 0.0 <= r <= 10.0
    ensures GradedInRange(d.questions) ==>
      (r == 10.0 <==> PossibleTotal(d.questions) > 0.0
                      && forall i :: 0 <= i < |d.questions| ==> FullMarks(d.questions[i]))
    ensures GradedInRange(d.questions) ==>
      (r == 0.0 <==> forall i :: 0 <= i < |d.questions| ==> Obtained(d.questions[i]) == 0.0)
  {
    var obtained := ObtainedTotal(d.questions);
    var totalPossible := PossibleTotal(d.questions);
    if totalPossible > 0.0 then
      TotalFacts(d.questions);
      (obtained / totalPossible) * 10.0
    else
      NothingPossible(d.questions);
      0.0
  }

  lemma TotalFacts(qs: seq<Question>)
    requires PossibleTotal(qs) > 0.0
    ensures GradedInRange(qs) ==>
      var q := (ObtainedTotal(qs) / PossibleTotal(qs)) * 10.0;
      && 0.0 <= q <= 10.0
      && (q == 10.0 <==> forall i :: 0 <= i < |qs| ==> FullMarks(qs[i]))
      && (q == 0.0 <==> forall i :: 0 <= i < |qs| ==> Obtained(qs[i]) == 0.0)
  {
    if GradedInRange(qs) {
      GradedSums(qs);
      Lists.ScaledRatio(ObtainedTotal(qs), PossibleTotal(qs));
    }
  }

  /** When every question is graded within its bounds, the points obtained lie between
      none and all that is possible, reaching each end exactly when every question does. */
  lemma GradedSums(qs: seq<Question>)
    requires GradedInRange(qs)
    ensures 0.0 <= ObtainedTotal(qs) <= PossibleTotal(qs)
    ensures ObtainedTotal(qs) == 0.0 <==> forall i :: 0 <= i < |qs| ==> Obtained(qs[i]) == 0.0
    ensures ObtainedTotal(qs) == PossibleTotal(qs) <==> forall i :: 0 <= i < |qs| ==> FullMarks(qs[i])
  {
    Lists.SumNonNegative(qs, Obtained);
    Lists.SumMonotone(qs, Obtained, Points);
    Lists.SumZeroIff(qs, Obtained);
    Lists.SumEqualIff(qs, Obtained, Points);
  }

  /** With nothing possible and every question within its bounds, nothing was obtained. */
  lemma NothingPossible(qs: seq<Question>)
    requires PossibleTotal(qs) <= 0.0
    ensures GradedInRange(qs) ==>
      && (forall i :: 0 <= i < |qs| ==> Obtained(qs[i]) == 0.0)
      && !(PossibleTotal(qs) > 0.0)
  {
    if GradedInRange(qs) {
      Lists.SumZeroIff(qs, Points);
      Lists.SumNonNegative(qs, Points);
    }
  }

  /** With no question graded yet, nothing is obtained. */
  lemma UngradedIsZero(qs: seq<Question>)
    requires forall i :: 0 <= i < |qs| ==> qs[i].obtainedPoints == None
    ensures ObtainedTotal(qs) == 0.0
  {
    Lists.SumBounds(qs, Obtained, 0.0, 0.0);
  }

  /** `createEmptyExam`: one ungraded multiple-choice question worth 1 point. */
  function CreateEmptyExam(now: nat): (d: ExamData)
    ensures |d.questions| == 1
    ensures var q := d.questions[0];
      && q.id == Ids.ManualId("q-", now) && q.kind == OpcionMultiple
      && q.points == 1.0 && q.obtainedPoints == None
    ensures GradedInRange(d.questions) && PossibleTotal(d.questions) == 1.0
    ensures CalculateTotal(d) == 0.0
  {
    var q := Question(Ids.ManualId("q-", now), "Pregunta de ejemplo", OpcionMultiple, 1.0, None);
    assert [q][..0] == [];
    assert Lists.Sum([q][..0], Points) == 0.0;
    ExamData("Nuevo Examen", "General", "Responde las siguientes preguntas con claridad.", [q])
  }

  /** `addQuestion`: one ungraded question of the chosen kind, worth 1 point, appended. */
  function AddQuestion(d: ExamData, kind: QuestionType, now: nat): (r: ExamData)
    ensures r.(questions := d.questions) == d
    ensures |r.questions| == |d.questions| + 1 && r.questions[..|d.questions|] == d.questions
    ensures var q := r.questions[|d.questions|];
      && q.id == Ids.ManualId("q-", now) && q.text == "Nueva pregunta..."
      && q.kind == kind && q.points == 1.0 && q.obtainedPoints == None
  {
    var q := Question(Ids.ManualId("q-", now), "Nueva pregunta...", kind, 1.0, None);
    d.(questions := d.questions + [q])
  }

  /** The added question keeps the points obtained and adds exactly 1 to the points
      possible, and it keeps every question within its grading bounds. */
  lemma AddQuestionTotals(d: ExamData, kind: QuestionType, now: nat)
    ensures var qs := AddQuestion(d, kind, now).questions;
      && ObtainedTotal(qs) == ObtainedTotal(d.questions)
      && PossibleTotal(qs) == PossibleTotal(d.questions) + 1.0
      && (GradedInRange(d.questions) ==> GradedInRange(qs))
  {
    var qs := AddQuestion(d, kind, now).questions;
    var q := qs[|d.questions|];
    assert qs == d.questions + [q];
    Lists.SumAppend(d.questions, [q], Obtained);
    Lists.SumAppend(d.questions, [q], Points);
    assert [q][..0] == [];
  }

  /** `removeQuestion`: the questions with that id go, every other stays. */
  function RemoveQuestion(d: ExamData, id: string): (r: ExamData)
    ensures r.(questions := d.questions) == d
    ensures forall i :: 0 <= i < |r.questions| ==> r.questions[i].id != id && r.questions[i] in d.questions
    ensures forall i :: 0 <= i < |d.questions| && d.questions[i].id != id ==> d.questions[i] in r.questions
    ensures (forall i :: 0 <= i < |d.questions| ==> d.questions[i].id != id) ==> r == d
  {
    var keep := (q: Question) => q.id != id;
    Lists.FilterMembers(d.questions, keep);
    d.(questions := Lists.Filter(d.questions, keep))
  }

  /** Removing the one question with a given id leaves the others in their order. */
  lemma RemoveKeepsOrder(d: ExamData, k: nat)
    requires IdOnlyAt(d.questions, k)
    ensures RemoveQuestion(d, d.questions[k].id).questions == d.questions[..k] + d.questions[k + 1..]
  {
    var id := d.questions[k].id;
    Lists.FilterRemoveOne(d.questions, k, (q: Question) => q.id != id);
  }

  /** Removing a question just added under a fresh id gives back the exam as it was. */
  lemma RemoveUndoesAdd(d: ExamData, kind: QuestionType, now: nat)
    requires forall i :: 0 <= i < |d.questions| ==> d.questions[i].id != Ids.ManualId("q-", now)
    ensures RemoveQuestion(AddQuestion(d, kind, now), Ids.ManualId("q-", now)) == d
  {
    var id := Ids.ManualId("q-", now);
    var qs := AddQuestion(d, kind, now).questions;
    var keep := (q: Question) => q.id != id;
    assert qs == d.questions + [qs[|d.questions|]];
    Lists.FilterAppend(d.questions, [qs[|d.questions|]], keep);
    assert Lists.Filter([qs[|d.questions|]], keep) == [];
  }

  /** `updateQuestionText`: the text of the matching questions replaced, nothing else. */
  function UpdateQuestionText(d: ExamData, id: string, text: string): (r: ExamData)
    ensures r.(questions := d.questions) == d
    ensures |r.questions| == |d.questions|
    ensures forall i :: 0 <= i < |d.questions| ==>
      r.questions[i] == if d.questions[i].id == id then d.questions[i].(text := text) else d.questions[i]
  {
    d.(questions := Lists.Map(d.questions, (q: Question) => if q.id == id then q.(text := text) else q))
  }

  /** Editing a question's text never changes the grade. */
  lemma UpdateTextKeepsTotal(d: ExamData, id: string, text: string)
    ensures CalculateTotal(UpdateQuestionText(d, id, text)) == CalculateTotal(d)
  {
    var qs := UpdateQuestionText(d, id, text).questions;
    SameGrading(d.questions, qs);
  }

  lemma {:induction false} SameGrading(s: seq<Question>, t: seq<Question>)
    requires |s| == |t|
    requires forall i :: 0 <= i < |s| ==> Obtained(s[i]) == Obtained(t[i]) && s[i].points == t[i].points
    ensures ObtainedTotal(s) == ObtainedTotal(t) && PossibleTotal(s) == PossibleTotal(t)
  {
    if s != [] {
      var n := |s| - 1;
      assert forall i :: 0 <= i < n ==> s[..n][i] == s[i] && t[..n][i] == t[i];
      SameGrading(s[..n], t[..n]);
    }
  }

  /** `handlePointChange`: the points obtained on the matching questions set to `value`;
      their points, text and kind, and every other question, unchanged. */
  function HandlePointChange(d: ExamData, id: string, value: real): (r: ExamData)
    ensures r.(questions := d.questions) == d
    ensures |r.questions| == |d.questions|
    ensures forall i :: 0 <= i < |d.questions| ==> d.questions[i].id != id ==> r.questions[i] == d.questions[i]
    ensures forall i :: 0 <= i < |d.questions| ==> d.questions[i].id == id ==>
      r.questions[i] == d.questions[i].(obtainedPoints := Some(value))
  {
    d.(questions := Lists.Map(d.questions,
      (q: Question) => if q.id == id then q.(obtainedPoints := Some(value)) else q))
  }

  /** Grading the one question with that id exchanges its obtained points for `value` in
      the numerator and leaves the denominator alone; a value within that question's
      bounds keeps every question within its bounds. */
  lemma PointChangeTotals(d: ExamData, k: nat, value: real)
    requires IdOnlyAt(d.questions, k)
    ensures var qs := HandlePointChange(d, d.questions[k].id, value).questions;
      && ObtainedTotal(qs) == ObtainedTotal(d.questions) - Obtained(d.questions[k]) + value
      && PossibleTotal(qs) == PossibleTotal(d.questions)
      && (GradedInRange(d.questions) && 0.0 <= value <= d.questions[k].points ==> GradedInRange(qs))
  {
    var q := d.questions[k];
    var q' := q.(obtainedPoints := Some(value));
    var qs := HandlePointChange(d, q.id, value).questions;
    assert qs == d.questions[k := q'];
    Lists.SumPointUpdate(d.questions, k, q', Obtained);
    Lists.SumPointUpdate(d.questions, k, q', Points);
  }

  /** Two questions worth 2 and 3 points, graded 2 and 1.5, grade 7. */
  lemma GradeExample(d: ExamData)
    requires d.questions == [Question("q-1", "A", Desarrollo, 2.0, Some(2.0)),
                             Question("q-2", "B", VerdaderoFalso, 3.0, Some(1.5))]
    ensures CalculateTotal(d) == 7.0
  {
    var qs := d.questions;
    assert qs[..1][..0] == [];
    assert qs[..1] == [qs[0]];
    assert Lists.Sum(qs[..1][..0], Obtained) == 0.0 && Lists.Sum(qs[..1][..0], Points) == 0.0;
    assert ObtainedTotal(qs[..1]) == 2.0 && PossibleTotal(qs[..1]) == 2.0;
    assert ObtainedTotal(qs) == 3.5 && PossibleTotal(qs) == 5.0;
  }
}
