/** `App.tsx`, lines 35-74: the check of the generation form and the mapping of the
    generation service's JSON reply into the record of the active kind. The request itself
    (`services/geminiService.ts`) is outside the model: its reply, or its failure, is an input. */
module Generation {
  import opened Types
  import Ids
  import RubricCreator
  import ChecklistCreator
  import EscalaCreator
  import GuiaObservacionCreator
  import ExamCreator

  /** `aiConfig`: the generation form. */
  datatype AiConfig = AiConfig(level: string, subject: string, topic: string)

  /** The form check: no field is the empty string, since `!""` is the only falsy string case. */
  predicate ConfigComplete(cfg: AiConfig)
  {
    cfg.level != "" && cfg.subject != "" && cfg.topic != ""
  }

  /** The reply records, one per response schema of the service. */
  datatype CriterionReply = CriterionReply(name: string, weight: real, levels: map<int, string>)

  datatype AspectReply = AspectReply(indicator: string, description: string, examples: string)

  datatype QuestionReply = QuestionReply(text: string, kind: QuestionType, points: real)

  /** The parsed reply, by shape: the checklist and the rating scale share `{title, items}`. */
  datatype Reply =
    | RubricReply(title: string, description: string, criteria: seq<CriterionReply>)
    | ItemsReply(title: string, items: seq<string>)
    | AspectsReply(title: string, aspects: seq<AspectReply>)
    | ExamReply(title: string, instructions: string, questions: seq<QuestionReply>)

  /** A record of one of the five kinds, as the slot of that kind holds it. */
  datatype Instrument =
    | RubricInst(rubric: RubricData)
    | ChecklistInst(checklist: ChecklistData)
    | EscalaInst(escala: EscalaCreator.EscalaData)
    | GuiaInst(guia: GuiaObservacionCreator.GuiaData)
    | ExamInst(exam: ExamData)

  function KindOf(inst: Instrument): InstrumentType
  {
    match inst
    case RubricInst(_) => Rubrica
    case ChecklistInst(_) => ListaCotejo
    case EscalaInst(_) => Escala
    case GuiaInst(_) => GuiaObservacion
    case ExamInst(_) => Examen
  }

  /** The reply has the field the mapper for `kind` reads with `.map`; any other reply makes
      that read throw, and the `catch` reports the error. */
  predicate Fits(kind: InstrumentType, reply: Reply)
  {
    match kind
    case Rubrica => reply.RubricReply?
    case ListaCotejo => reply.ItemsReply?
    case Escala => reply.ItemsReply?
    case GuiaObservacion => reply.AspectsReply?
    case Examen => reply.ExamReply?
  }

  /** The rubric branch: the reply's title and description, the form's subject and level,
      and each criterion stamped with `c-<clock>-<index>` and no selection. */
  function MapRubric(reply: Reply, cfg: AiConfig, clock: nat -> nat): (d: RubricData)
    requires reply.RubricReply?
    ensures d.title == reply.title && d.description == reply.description
    ensures d.subject == cfg.subject && d.level == cfg.level
    ensures |d.criteria| == |reply.criteria|
    ensures forall i :: 0 <= i < |d.criteria| ==>
      var c := reply.criteria[i];
      d.criteria[i] == RubricCriterion(Ids.MappedId("c-", clock(i), i), c.name, c.weight, c.levels, None)
    ensures RubricCreator.UniqueIds(d.criteria)
    ensures RubricCreator.FinalScore(d.criteria) == RubricCreator.Unscored
  {
    var cs := seq(|reply.criteria|, i requires 0 <= i < |reply.criteria| =>
      var c := reply.criteria[i];
      RubricCriterion(Ids.MappedId("c-", clock(i), i), c.name, c.weight, c.levels, None));
    Ids.MappedIdsDistinct("c-", clock, |cs|);
    RubricCreator.NoSelectionIsUnscored(cs);
    RubricData(reply.title, cfg.subject, reply.description, cfg.level, cs)
  }

  /** The checklist branch: each text becomes an unchecked item `i-<clock>-<index>`. */
  function MapChecklist(reply: Reply, cfg: AiConfig, clock: nat -> nat): (d: ChecklistData)
    requires reply.ItemsReply?
    ensures d.title == reply.title && d.subject == cfg.subject && d.level == cfg.level
    ensures |d.items| == |reply.items|
    ensures forall i :: 0 <= i < |d.items| ==>
      d.items[i] == ChecklistItem(Ids.MappedId("i-", clock(i), i), reply.items[i], Some(false))
    ensures ChecklistCreator.UniqueIds(d.items)
    ensures ChecklistCreator.CalculateScore(d) == 0.0
  {
    var items := seq(|reply.items|, i requires 0 <= i < |reply.items| =>
      ChecklistItem(Ids.MappedId("i-", clock(i), i), reply.items[i], Some(false)));
    Ids.MappedIdsDistinct("i-", clock, |items|);
    ChecklistData(reply.title, cfg.subject, cfg.level, items)
  }

  /** The rating-scale branch: each text becomes an item `e-<clock>-<index>` rated 0. */
  function MapEscala(reply: Reply, clock: nat -> nat): (d: EscalaCreator.EscalaData)
    requires reply.ItemsReply?
    ensures d.title == reply.title
    ensures |d.items| == |reply.items|
    ensures forall i :: 0 <= i < |d.items| ==>
      d.items[i] == EscalaCreator.EscalaItem(Ids.MappedId("e-", clock(i), i), reply.items[i], Some(0))
    ensures EscalaCreator.UniqueIds(d.items) && EscalaCreator.RatingsInRange(d.items)
    ensures EscalaCreator.CalculateTotal(d) == 0.0
  {
    var items := seq(|reply.items|, i requires 0 <= i < |reply.items| =>
      EscalaCreator.EscalaItem(Ids.MappedId("e-", clock(i), i), reply.items[i], Some(0)));
    Ids.MappedIdsDistinct("e-", clock, |items|);
    EscalaCreator.EscalaData(reply.title, items)
  }

  /** The observation-guide branch: each aspect stamped `g-<clock>-<index>`, notes empty. */
  function MapGuia(reply: Reply, clock: nat -> nat): (d: GuiaObservacionCreator.GuiaData)
    requires reply.AspectsReply?
    ensures d.title == reply.title
    ensures |d.aspects| == |reply.aspects|
    ensures forall i :: 0 <= i < |d.aspects| ==>
      var a := reply.aspects[i];
      d.aspects[i] == GuiaObservacionCreator.GuiaAspect(
        Ids.MappedId("g-", clock(i), i), a.indicator, a.description, a.examples, "")
    ensures GuiaObservacionCreator.UniqueIds(d.aspects)
  {
    var aspects := seq(|reply.aspects|, i requires 0 <= i < |reply.aspects| =>
      var a := reply.aspects[i];
      GuiaObservacionCreator.GuiaAspect(Ids.MappedId("g-", clock(i), i), a.indicator, a.description, a.examples, ""));
    Ids.MappedIdsDistinct("g-", clock, |aspects|);
    GuiaObservacionCreator.GuiaData(reply.title, aspects)
  }

  /** The exam branch: the reply's title and instructions, the form's subject (and not its
      level), and each question stamped `q-<clock>-<index>` and ungraded. */
  function MapExam(reply: Reply, cfg: AiConfig, clock: nat -> nat): (d: ExamData)
    requires reply.ExamReply?
    ensures d.title == reply.title && d.instructions == reply.instructions && d.subject == cfg.subject
    ensures |d.questions| == |reply.questions|
    ensures forall i :: 0 <= i < |d.questions| ==>
      var q := reply.questions[i];
      d.questions[i] == Question(Ids.MappedId("q-", clock(i), i), q.text, q.kind, q.points, None)
    ensures ExamCreator.UniqueIds(d.questions)
    ensures ExamCreator.ObtainedTotal(d.questions) == 0.0 && ExamCreator.CalculateTotal(d) == 0.0
    ensures (forall i :: 0 <= i < |d.questions| ==> 0.0 <= d.questions[i].points) ==>
      ExamCreator.GradedInRange(d.questions)
  {
    var qs := seq(|reply.questions|, i requires 0 <= i < |reply.questions| =>
      var q := reply.questions[i];
      Question(Ids.MappedId("q-", clock(i), i), q.text, q.kind, q.points, None));
    Ids.MappedIdsDistinct("q-", clock, |qs|);
    ExamCreator.UngradedIsZero(qs);
    ExamData(reply.title, cfg.subject, reply.instructions, qs)
  }

  /** The branch on the active kind; `None` when the reply does not have the shape that
      branch reads, the case the `catch` reports as an error. */
  function MapResponse(kind: InstrumentType, reply: Reply, cfg: AiConfig, clock: nat -> nat): (r: Option<Instrument>)
    ensures r.Some? <==> Fits(kind, reply)
    ensures r.Some? ==> KindOf(r.value) == kind
  {
    match kind
    case Rubrica => if reply.RubricReply? then Some(RubricInst(MapRubric(reply, cfg, clock))) else None
    case ListaCotejo => if reply.ItemsReply? then Some(ChecklistInst(MapChecklist(reply, cfg, clock))) else None
    case Escala => if reply.ItemsReply? then Some(EscalaInst(MapEscala(reply, clock))) else None
    case GuiaObservacion => if reply.AspectsReply? then Some(GuiaInst(MapGuia(reply, clock))) else None
    case Examen => if reply.ExamReply? then Some(ExamInst(MapExam(reply, cfg, clock))) else None
  }

  /** The form reaches the records unevenly: the rubric and the checklist carry its subject
      and level, the exam its subject only, and the rating scale and the observation guide
      nothing; the topic reaches none of them (it shapes only the request). */
  lemma ContextInjection(kind: InstrumentType, reply: Reply, cfg1: AiConfig, cfg2: AiConfig, clock: nat -> nat)
    ensures cfg1.level == cfg2.level && cfg1.subject == cfg2.subject ==>
      MapResponse(kind, reply, cfg1, clock) == MapResponse(kind, reply, cfg2, clock)
    ensures kind in {Escala, GuiaObservacion} ==>
      MapResponse(kind, reply, cfg1, clock) == MapResponse(kind, reply, cfg2, clock)
    ensures kind == Examen && cfg1.subject == cfg2.subject ==>
      MapResponse(kind, reply, cfg1, clock) == MapResponse(kind, reply, cfg2, clock)
    ensures kind == Rubrica && cfg1.subject != cfg2.subject && Fits(kind, reply) ==>
      MapResponse(kind, reply, cfg1, clock) != MapResponse(kind, reply, cfg2, clock)
    ensures kind == ListaCotejo && cfg1.level != cfg2.level && Fits(kind, reply) ==>
      MapResponse(kind, reply, cfg1, clock) != MapResponse(kind, reply, cfg2, clock)
    ensures kind == Examen && cfg1.subject != cfg2.subject && Fits(kind, reply) ==>
      MapResponse(kind, reply, cfg1, clock) != MapResponse(kind, reply, cfg2, clock)
  {
  }

  /** An item added by hand to a generated checklist, and removed again, leaves the
      generated checklist as it was: the hand-made id cannot clash with a generated one. */
  lemma AddRemoveOnGenerated(reply: Reply, cfg: AiConfig, clock: nat -> nat, text: string, now: nat)
    requires reply.ItemsReply?
    ensures var d := MapChecklist(reply, cfg, clock);
      ChecklistCreator.RemoveItem(
        ChecklistCreator.AddItem(ChecklistCreator.ChecklistEditor(d, text), now).data,
        Ids.ManualId("i-", now)) == d
  {
    var d := MapChecklist(reply, cfg, clock);
    forall i | 0 <= i < |d.items| ensures d.items[i].id != Ids.ManualId("i-", now) {
      Ids.ManualIdNotMapped("i-", now, clock(i), i);
    }
    ChecklistCreator.RemoveUndoesAdd(ChecklistCreator.ChecklistEditor(d, text), now);
  }
}
