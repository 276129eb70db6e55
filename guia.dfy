/** `components/GuiaObservacionCreator.tsx`: the observation guide editor. The source keeps
    the guide as an untyped record; here it is `{title, aspects}` with aspects
    `{id, indicator, description, examples, notes}`. */
module GuiaObservacionCreator {
  import Lists
  import Ids

  /** One observed aspect; the teacher fills in `notes` during the session. */
  datatype GuiaAspect = GuiaAspect(
    id: string,
    indicator: string,
    description: string,
    examples: string,
    notes: string)

  datatype GuiaData = GuiaData(title: string, aspects: seq<GuiaAspect>)

  predicate UniqueIds(aspects: seq<GuiaAspect>)
  {
    forall i, j :: 0 <= i < j < |aspects| ==> aspects[i].id != aspects[j].id
  }

  /** `createEmpty`: one aspect about class participation, with empty notes. */
  function CreateEmpty(now: nat): (d: GuiaData)
    ensures |d.aspects| == 1
    ensures d.aspects[0].id == Ids.ManualId("g-", now) && d.aspects[0].notes == ""
    ensures d.aspects[0].indicator == "Participación en clase"
  {
    GuiaData("Nueva Guía de Observación",
      [GuiaAspect(Ids.ManualId("g-", now), "Participación en clase",
        "Observar la frecuencia y calidad de las intervenciones.",
        "El alumno levanta la mano, respeta el turno de palabra, aporta ideas relacionadas con el tema actual.",
        "")])
  }

  /** `updateNotes`: the notes of the matching aspects replaced; their indicator,
      description and examples, and every other aspect, unchanged. */
  function UpdateNotes(d: GuiaData, id: string, notes: string): (r: GuiaData)
    ensures r.title == d.title
    ensures |r.aspects| == |d.aspects|
    ensures forall i :: 0 <= i < |d.aspects| ==>
      r.aspects[i].(notes := d.aspects[i].notes) == d.aspects[i]
    ensures forall i :: 0 <= i < |d.aspects| ==>
      r.aspects[i].notes == if d.aspects[i].id == id then notes else d.aspects[i].notes
  {
    d.(aspects := Lists.Map(d.aspects, (a: GuiaAspect) => if a.id == id then a.(notes := notes) else a))
  }

  /** Notes for an id no aspect carries change nothing. */
  lemma UpdateUnknownIdIsIdentity(d: GuiaData, id: string, notes: string)
    requires forall i :: 0 <= i < |d.aspects| ==> d.aspects[i].id != id
    ensures UpdateNotes(d, id, notes) == d
  {
    assert UpdateNotes(d, id, notes).aspects == d.aspects;
  }

  /** Of two note edits to the same aspect only the last is kept. */
  lemma UpdateNotesLastWins(d: GuiaData, id: string, n1: string, n2: string)
    ensures UpdateNotes(UpdateNotes(d, id, n1), id, n2) == UpdateNotes(d, id, n2)
  {
    assert UpdateNotes(UpdateNotes(d, id, n1), id, n2).aspects == UpdateNotes(d, id, n2).aspects;
  }

  /** Note edits to two different aspects commute. */
  lemma UpdateNotesCommute(d: GuiaData, id1: string, n1: string, id2: string, n2: string)
    requires id1 != id2
    ensures UpdateNotes(UpdateNotes(d, id1, n1), id2, n2) == UpdateNotes(UpdateNotes(d, id2, n2), id1, n1)
  {
    assert UpdateNotes(UpdateNotes(d, id1, n1), id2, n2).aspects
        == UpdateNotes(UpdateNotes(d, id2, n2), id1, n1).aspects;
  }

  /** The title field's edit: the title replaced, the aspects untouched. */
  function SetTitle(d: GuiaData, title: string): (r: GuiaData)
    ensures r.title == title && r.aspects == d.aspects
  {
    d.(title := title)
  }
}
