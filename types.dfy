/** The instrument kinds and the typed records of `types.ts`. The rating scale and the
    observation guide are untyped in the source; their records are declared beside
    their editors (EscalaCreator, GuiaObservacionCreator). */
module Types {

  datatype Option<+T> = None | Some(value: T) {
    /** `x || d` for an optional number: the value when present, `d` when absent. */
    function GetOr(d: T): T
    {
      match this
      case Some(v) => v
      case None => d
    }
  }

  /** `enum InstrumentType`. */
  datatype InstrumentType = Rubrica | ListaCotejo | Escala | GuiaObservacion | Examen

  /** The string value of each enum member. */
  function Tag(k: InstrumentType): string
  {
    match k
    case Rubrica => "rubrica"
    case ListaCotejo => "lista-cotejo"
    case Escala => "escala"
    case GuiaObservacion => "guia-observacion"
    case Examen => "examen"
  }

  const AllKinds: seq<InstrumentType> := [Rubrica, ListaCotejo, Escala, GuiaObservacion, Examen]

  /** There are exactly five kinds and their tags are pairwise distinct. */
  lemma FiveDistinctKinds()
    ensures |AllKinds| == 5
    ensures forall k: InstrumentType :: k in AllKinds
    ensures forall i, j :: 0 <= i < j < |AllKinds| ==> Tag(AllKinds[i]) != Tag(AllKinds[j])
  {
    forall k: InstrumentType ensures k in AllKinds {
      match k
      case Rubrica => assert AllKinds[0] == k;
      case ListaCotejo => assert AllKinds[1] == k;
      case Escala => assert AllKinds[2] == k;
      case GuiaObservacion => assert AllKinds[3] == k;
      case Examen => assert AllKinds[4] == k;
    }
  }

  /** `Question['type']`: the three question kinds, also the enum of the exam reply schema. */
  datatype QuestionType = OpcionMultiple | VerdaderoFalso | Desarrollo

  function QuestionTag(t: QuestionType): string
  {
    match t
    case OpcionMultiple => "opcion-multiple"
    case VerdaderoFalso => "verdadero-falso"
    case Desarrollo => "desarrollo"
  }

  /** A question's kind is exactly one of the three literals of the union type. */
  lemma QuestionTagsExact(t: QuestionType)
    ensures QuestionTag(t) in ["opcion-multiple", "verdadero-falso", "desarrollo"]
    ensures forall u: QuestionType :: QuestionTag(u) == QuestionTag(t) ==> u == t
  {
  }

  /** `RubricCriterion`: the level texts are a record keyed by number; `selectedLevel` is optional. */
  datatype RubricCriterion = RubricCriterion(
    id: string,
    name: string,
    weight: real,
    levels: map<int, string>,
    selectedLevel: Option<int>)

  datatype RubricData = RubricData(
    title: string,
    subject: string,
    description: string,
    level: string,
    criteria: seq<RubricCriterion>)

  /** `ChecklistItem`: `checked` is optional. */
  datatype ChecklistItem = ChecklistItem(id: string, text: string, checked: Option<bool>)

  datatype ChecklistData = ChecklistData(
    title: string,
    subject: string,
    level: string,
    items: seq<ChecklistItem>)

  /** `Question`: `obtainedPoints` is optional and filled in while grading. */
  datatype Question = Question(
    id: string,
    text: string,
    kind: QuestionType,
    points: real,
    obtainedPoints: Option<real>)

  datatype ExamData = ExamData(
    title: string,
    subject: string,
    instructions: string,
    questions: seq<Question>)
}
