/** `components/RubricCreator.tsx`: the rubric editor's operations on a `RubricData`
    and its final score. */
module RubricCreator {
  import opened Types
  import Lists
  import Ids

  /** What the score box shows: a number, or the `"-"` shown while no criterion counts. */
  datatype RubricScore = Unscored | Scored(value: real)

  /** The field edits the editor makes through `updateCriterion(id, field, value)`. */
  datatype CriterionEdit = Name(name: string) | Weight(weight: real)

  /** The level keys the editor lays out, `[4, 3, 2, 1]`. */
  const LevelKeys: set<int> := {4, 3, 2, 1}

  predicate UniqueIds(cs: seq<RubricCriterion>)
  {
    forall i, j :: 0 <= i < j < |cs| ==> cs[i].id != cs[j].id
  }

  /** The criterion at `k` is the only one carrying its id; other ids may repeat. */
  predicate IdOnlyAt(cs: seq<RubricCriterion>, k: nat)
  {
    k < |cs| && forall i :: 0 <= i < |cs| && i != k ==> cs[i].id != cs[k].id
  }

  /** Every criterion carries exactly the editor's four level keys. */
  predicate HasEditorLevels(cs: seq<RubricCriterion>)
  {
    forall i :: 0 <= i < |cs| ==> cs[i].levels.Keys == LevelKeys
  }

  // ---------------------------------------------------------------- scoring

  /** `if (c.selectedLevel)`: present and truthy, so an absent level and level 0 are unselected. */
  predicate IsSelected(c: RubricCriterion)
  {
    c.selectedLevel.Some? && c.selectedLevel.value != 0
  }

  /** What one criterion adds to `totalWeightedScore`: `(selectedLevel / 4) * 10 * (weight / 100)`. */
  function Contribution(c: RubricCriterion): real
  {
    if IsSelected(c) then (c.selectedLevel.value as real / 4.0 * 10.0) * (c.weight / 100.0) else 0.0
  }

  /** What one criterion adds to `totalWeight`. */
  function CountedWeight(c: RubricCriterion): real
  {
    if IsSelected(c) then c.weight else 0.0
  }

  function WeightedScore(cs: seq<RubricCriterion>): real
  {
    Lists.Sum(cs, Contribution)
  }

  function SelectedWeight(cs: seq<RubricCriterion>): real
  {
    Lists.Sum(cs, CountedWeight)
  }

  /** The score `calculateFinalScore` reports: `totalWeight` only gates, the divisor is a fixed 100. */
  function FinalScore(cs: seq<RubricCriterion>): RubricScore
  {
    if SelectedWeight(cs) > 0.0 then Scored(WeightedScore(cs)) else Unscored
  }

  /** `calculateFinalScore`: one pass over the criteria, two accumulators. */
  method CalculateFinalScore(criteria: seq<RubricCriterion>) returns (score: RubricScore)
    ensures score == FinalScore(criteria)
    ensures score == Unscored <==> SelectedWeight(criteria) <= 0.0
  {
    var totalWeightedScore := 0.0;
    var totalWeight := 0.0;
    var i := 0;
    while i < |criteria|
      invariant 0 <= i <= |criteria|
      invariant totalWeightedScore == WeightedScore(criteria[..i])
      invariant totalWeight == SelectedWeight(criteria[..i])
    {
      var c := criteria[i];
      if c.selectedLevel.Some? && c.selectedLevel.value != 0 {
        var scorePerLevel := (c.selectedLevel.value as real / 4.0) * 10.0;
        totalWeightedScore := totalWeightedScore + scorePerLevel * (c.weight / 100.0);
        totalWeight := totalWeight + c.weight;
      }
      assert criteria[..i + 1][..i] == criteria[..i];
      i := i + 1;
    }
    assert criteria[..i] == criteria;
    score := if totalWeight > 0.0 then Scored(totalWeightedScore) else Unscored;
  }

  /** With no criterion selected, both accumulators stay 0 and the score is the sentinel. */
  lemma NoSelectionIsUnscored(cs: seq<RubricCriterion>)
    requires forall i :: 0 <= i < |cs| ==> !IsSelected(cs[i])
    ensures WeightedScore(cs) == 0.0 && SelectedWeight(cs) == 0.0
    ensures FinalScore(cs) == Unscored
  {
    Lists.SumBounds(cs, Contribution, 0.0, 0.0);
    Lists.SumBounds(cs, CountedWeight, 0.0, 0.0);
  }

  /** An unselected criterion, wherever it stands, adds to neither accumulator. */
  lemma UnselectedContributesNothing(a: seq<RubricCriterion>, c: RubricCriterion, b: seq<RubricCriterion>)
    requires !IsSelected(c)
    ensures WeightedScore(a + [c] + b) == WeightedScore(a + b)
    ensures SelectedWeight(a + [c] + b) == SelectedWeight(a + b)
    ensures FinalScore(a + [c] + b) == FinalScore(a + b)
  {
    Lists.SumAppend(a + [c], b, Contribution);
    Lists.SumAppend(a, [c], Contribution);
    Lists.SumAppend(a, b, Contribution);
    Lists.SumAppend(a + [c], b, CountedWeight);
    Lists.SumAppend(a, [c], CountedWeight);
    Lists.SumAppend(a, b, CountedWeight);
  }

  /** Selections the editor can make (levels 1 to 4) on criteria with non-negative weights. */
  predicate SelectionsInRange(cs: seq<RubricCriterion>)
  {
    forall i :: 0 <= i < |cs| && IsSelected(cs[i]) ==>
      1 <= cs[i].selectedLevel.value <= 4 && 0.0 <= cs[i].weight
  }

  lemma ContributionBound(c: RubricCriterion)
    requires IsSelected(c) ==> 1 <= c.selectedLevel.value <= 4 && 0.0 <= c.weight
    ensures 0.0 <= Contribution(c) <= CountedWeight(c) / 10.0
  {
    if IsSelected(c) {
      var l := c.selectedLevel.value as real;
      assert Contribution(c) == l * c.weight / 40.0;
      assert 0.0 <= (4.0 - l) * c.weight;
    }
  }

  /** Each selected criterion adds at most a tenth of its weight to the score. */
  lemma {:induction false} WeightedScoreBound(cs: seq<RubricCriterion>)
    requires SelectionsInRange(cs)
    ensures 0.0 <= WeightedScore(cs) <= SelectedWeight(cs) / 10.0
  {
    if cs != [] {
      var init := cs[..|cs| - 1];
      assert forall i :: 0 <= i < |init| ==> init[i] == cs[i];
      WeightedScoreBound(init);
      ContributionBound(cs[|cs| - 1]);
    }
  }

  /** With levels 1 to 4, non-negative weights and selected weights summing to at most 100,
      the score lies on the "/ 10" scale shown beside it. */
  lemma ScoreWithinTen(cs: seq<RubricCriterion>)
    requires SelectionsInRange(cs)
    requires SelectedWeight(cs) <= 100.0
    ensures FinalScore(cs).Scored? ==> 0.0 <= FinalScore(cs).value <= 10.0
  {
    WeightedScoreBound(cs);
  }

  /** Weights 40, 30, 30 with levels 4, 2 and none score 4 + 1.5; a lone criterion of
      weight 50 at the top level scores 5, not 10, because the divisor is 100; a selected
      criterion of weight 0 still leaves the sentinel, and so does level 0. */
  lemma ScoreExamples(now: nat)
    ensures
      var c1 := RubricCriterion("c-1", "A", 40.0, map[], Some(4));
      var c2 := RubricCriterion("c-2", "B", 30.0, map[], Some(2));
      var c3 := RubricCriterion("c-3", "C", 30.0, map[], None);
      FinalScore([c1, c2, c3]) == Scored(5.5)
    ensures FinalScore([RubricCriterion("c-1", "A", 50.0, map[], Some(4))]) == Scored(5.0)
    ensures FinalScore([RubricCriterion("c-1", "A", 0.0, map[], Some(3))]) == Unscored
    ensures FinalScore([RubricCriterion("c-1", "A", 50.0, map[], Some(0))]) == Unscored
  {
    var c1 := RubricCriterion("c-1", "A", 40.0, map[], Some(4));
    var c2 := RubricCriterion("c-2", "B", 30.0, map[], Some(2));
    var c3 := RubricCriterion("c-3", "C", 30.0, map[], None);
    assert [c1, c2, c3][..2] == [c1, c2];
    assert [c1, c2][..1] == [c1];
    assert [c1][..0] == [];
    assert Contribution(c1) == 4.0 && Contribution(c2) == 1.5 && Contribution(c3) == 0.0;
    assert Lists.Sum([c1][..0], Contribution) == 0.0;
    assert WeightedScore([c1]) == 4.0;
    assert WeightedScore([c1, c2]) == 5.5;
    assert Lists.Sum([c1][..0], CountedWeight) == 0.0;
    assert SelectedWeight([c1]) == 40.0;
    assert SelectedWeight([c1, c2]) == 70.0;
    var c4 := RubricCriterion("c-1", "A", 50.0, map[], Some(4));
    assert [c4][..0] == [];
    assert Contribution(c4) == 5.0;
    var c5 := RubricCriterion("c-1", "A", 0.0, map[], Some(3));
    assert [c5][..0] == [];
    assert Lists.Sum([c5][..0], CountedWeight) == 0.0;
    var c6 := RubricCriterion("c-1", "A", 50.0, map[], Some(0));
    assert [c6][..0] == [];
    assert Lists.Sum([c6][..0], CountedWeight) == 0.0;
  }

  // ---------------------------------------------------------------- editing

  function EditorLevels(a: string, b: string, c: string, d: string): (m: map<int, string>)
    ensures m.Keys == LevelKeys
  {
    map[4 := a, 3 := b, 2 := c, 1 := d]
  }

  /** `createEmptyRubric`: one criterion of weight 20 with the four default level texts. */
  function CreateEmptyRubric(now: nat): (d: RubricData)
    ensures |d.criteria| == 1 && d.criteria[0].id == Ids.ManualId("c-", now)
    ensures d.criteria[0].weight == 20.0 && d.criteria[0].selectedLevel == None
    ensures HasEditorLevels(d.criteria)
    ensures FinalScore(d.criteria) == Unscored
  {
    var c := RubricCriterion(Ids.ManualId("c-", now), "Nuevo Criterio", 20.0,
      EditorLevels("Excelente", "Bueno", "Suficiente", "Mejorable"), None);
    NoSelectionIsUnscored([c]);
    RubricData("Nueva Rúbrica", "General", "", "Cualquiera", [c])
  }

  /** `handleLevelSelect`: only the `selectedLevel` of the criteria with id `critId` changes. */
  function HandleLevelSelect(d: RubricData, critId: string, level: int): (r: RubricData)
    ensures r.(criteria := d.criteria) == d
    ensures |r.criteria| == |d.criteria|
    ensures forall i :: 0 <= i < |d.criteria| ==>
      r.criteria[i].(selectedLevel := d.criteria[i].selectedLevel) == d.criteria[i]
    ensures forall i :: 0 <= i < |d.criteria| ==>
      r.criteria[i].selectedLevel == if d.criteria[i].id == critId then Some(level) else d.criteria[i].selectedLevel
  {
    d.(criteria := Lists.Map(d.criteria,
      (c: RubricCriterion) => if c.id == critId then c.(selectedLevel := Some(level)) else c))
  }

  /** Selecting a level for the one criterion with that id exchanges its old contribution
      for the new one in both accumulators. */
  lemma LevelSelectScore(d: RubricData, k: nat, level: int)
    requires IdOnlyAt(d.criteria, k)
    requires 1 <= level <= 4
    ensures var c := d.criteria[k];
      var r := HandleLevelSelect(d, c.id, level).criteria;
      && SelectedWeight(r) == SelectedWeight(d.criteria) - CountedWeight(c) + c.weight
      && WeightedScore(r) == WeightedScore(d.criteria) - Contribution(c)
                             + (level as real / 4.0 * 10.0) * (c.weight / 100.0)
  {
    var c := d.criteria[k];
    var c' := c.(selectedLevel := Some(level));
    var r := HandleLevelSelect(d, c.id, level).criteria;
    assert r == d.criteria[k := c'];
    Lists.SumPointUpdate(d.criteria, k, c', CountedWeight);
    Lists.SumPointUpdate(d.criteria, k, c', Contribution);
  }

  /** `addCriterion`: one unselected criterion of weight 10 appended at the end. */
  function AddCriterion(d: RubricData, now: nat): (r: RubricData)
    ensures r.(criteria := d.criteria) == d
    ensures |r.criteria| == |d.criteria| + 1 && r.criteria[..|d.criteria|] == d.criteria
    ensures var c := r.criteria[|d.criteria|];
      && c.id == Ids.ManualId("c-", now) && c.name == "Nuevo Criterio"
      && c.weight == 10.0 && c.levels.Keys == LevelKeys && c.selectedLevel == None
  {
    var c := RubricCriterion(Ids.ManualId("c-", now), "Nuevo Criterio", 10.0,
      EditorLevels("Nivel 4", "Nivel 3", "Nivel 2", "Nivel 1"), None);
    d.(criteria := d.criteria + [c])
  }

  /** Adding a criterion never changes the score: the new one is unselected. */
  lemma AddCriterionKeepsScore(d: RubricData, now: nat)
    ensures FinalScore(AddCriterion(d, now).criteria) == FinalScore(d.criteria)
  {
    var cs := AddCriterion(d, now).criteria;
    assert cs == d.criteria + [cs[|d.criteria|]] + [];
    assert d.criteria + [] == d.criteria;
    UnselectedContributesNothing(d.criteria, cs[|d.criteria|], []);
  }

  /** `removeCriterion`: the criteria with that id go, every other stays. */
  function RemoveCriterion(d: RubricData, id: string): (r: RubricData)
    ensures r.(criteria := d.criteria) == d
    ensures forall i :: 0 <= i < |r.criteria| ==> r.criteria[i].id != id && r.criteria[i] in d.criteria
    ensures forall i :: 0 <= i < |d.criteria| && d.criteria[i].id != id ==> d.criteria[i] in r.criteria
    ensures (forall i :: 0 <= i < |d.criteria| ==> d.criteria[i].id != id) ==> r == d
  {
    var keep := (c: RubricCriterion) => c.id != id;
    Lists.FilterMembers(d.criteria, keep);
    d.(criteria := Lists.Filter(d.criteria, keep))
  }

  /** Removing a criterion just added with a fresh id gives back the rubric as it was. */
  lemma RemoveUndoesAdd(d: RubricData, now: nat)
    requires forall i :: 0 <= i < |d.criteria| ==> d.criteria[i].id != Ids.ManualId("c-", now)
    ensures RemoveCriterion(AddCriterion(d, now), Ids.ManualId("c-", now)) == d
  {
    var id := Ids.ManualId("c-", now);
    var cs := AddCriterion(d, now).criteria;
    var keep := (c: RubricCriterion) => c.id != id;
    assert cs == d.criteria + [cs[|d.criteria|]];
    Lists.FilterAppend(d.criteria, [cs[|d.criteria|]], keep);
    assert Lists.Filter([cs[|d.criteria|]], keep) == [];
  }

  /** Removing the one criterion with a given id leaves the others in their order. */
  lemma RemoveKeepsOrder(d: RubricData, k: nat)
    requires IdOnlyAt(d.criteria, k)
    ensures RemoveCriterion(d, d.criteria[k].id).criteria == d.criteria[..k] + d.criteria[k + 1..]
  {
    var id := d.criteria[k].id;
    Lists.FilterRemoveOne(d.criteria, k, (c: RubricCriterion) => c.id != id);
  }

  /** `updateCriterion`: one field of the matching criteria replaced; ids, level texts and
      selections untouched. */
  function UpdateCriterion(d: RubricData, id: string, edit: CriterionEdit): (r: RubricData)
    ensures r.(criteria := d.criteria) == d
    ensures |r.criteria| == |d.criteria|
    ensures forall i :: 0 <= i < |d.criteria| ==> d.criteria[i].id != id ==> r.criteria[i] == d.criteria[i]
    ensures forall i :: 0 <= i < |d.criteria| ==> d.criteria[i].id == id ==>
      match edit
      case Name(n) => r.criteria[i] == d.criteria[i].(name := n)
      case Weight(w) => r.criteria[i] == d.criteria[i].(weight := w)
  {
    d.(criteria := Lists.Map(d.criteria,
      (c: RubricCriterion) =>
        if c.id != id then c
        else match edit
          case Name(n) => c.(name := n)
          case Weight(w) => c.(weight := w)))
  }

  /** `updateLevelDescription`: the text at key `level` of the matching criteria replaced;
      their other level texts, name, weight and selection untouched. */
  function UpdateLevelDescription(d: RubricData, critId: string, level: int, text: string): (r: RubricData)
    ensures r.(criteria := d.criteria) == d
    ensures |r.criteria| == |d.criteria|
    ensures forall i :: 0 <= i < |d.criteria| ==>
      r.criteria[i].(levels := d.criteria[i].levels) == d.criteria[i]
    ensures forall i :: 0 <= i < |d.criteria| ==> d.criteria[i].id != critId ==> r.criteria[i] == d.criteria[i]
    ensures forall i :: 0 <= i < |d.criteria| ==> d.criteria[i].id == critId ==>
      && r.criteria[i].levels.Keys == d.criteria[i].levels.Keys + {level}
      && r.criteria[i].levels[level] == text
      && forall n :: n in d.criteria[i].levels && n != level ==> r.criteria[i].levels[n] == d.criteria[i].levels[n]
  {
    d.(criteria := Lists.Map(d.criteria,
      (c: RubricCriterion) => if c.id == critId then c.(levels := c.levels[level := text]) else c))
  }

  /** Every editing operation keeps the four editor level keys on every criterion, as long
      as level texts are edited only at those keys. */
  lemma EditsKeepEditorLevels(d: RubricData, id: string, level: int, text: string,
                              edit: CriterionEdit, now: nat)
    requires HasEditorLevels(d.criteria)
    ensures HasEditorLevels(CreateEmptyRubric(now).criteria)
    ensures HasEditorLevels(AddCriterion(d, now).criteria)
    ensures HasEditorLevels(RemoveCriterion(d, id).criteria)
    ensures HasEditorLevels(HandleLevelSelect(d, id, level).criteria)
    ensures HasEditorLevels(UpdateCriterion(d, id, edit).criteria)
    ensures level in LevelKeys ==> HasEditorLevels(UpdateLevelDescription(d, id, level, text).criteria)
  {
    var r := RemoveCriterion(d, id).criteria;
    forall i | 0 <= i < |r| ensures r[i].levels.Keys == LevelKeys {
      var j :| 0 <= j < |d.criteria| && d.criteria[j] == r[i];
    }
  }
}
