/** `App.tsx`: the application state (the active kind, the loading flag, the toast, the
    generation form and one nullable slot per kind) and `handleAiGenerate`, which checks
    the form, awaits the generation service and installs the mapped record. */
module AppState {
  import opened Types
  import opened Generation
  import RubricCreator
  import ChecklistCreator
  import EscalaCreator
  import GuiaObservacionCreator
  import ExamCreator

  datatype NoticeKind = Success | Error

  /** The toast `{message, type}`. */
  datatype Notice = Notice(message: string, kind: NoticeKind)

  const IncompleteMessage: string := "Por favor completa los campos del nivel, asignatura y tema."
  const SuccessMessage: string := "¡Instrumento generado con éxito!"
  const FailureMessage: string := "Error al generar con IA. Revisa tu conexión."

  /** How the awaited `generateInstrument` settles: it rejects, or it resolves to the parsed reply. */
  datatype Outcome = Failed | Replied(reply: Reply)

  /** What the handler's closure captured when it ran: the active kind and the form. */
  datatype Request = Request(kind: InstrumentType, cfg: AiConfig)

  /** The five slots at one moment. */
  datatype SlotState = SlotState(
    rubric: Option<RubricData>,
    checklist: Option<ChecklistData>,
    escala: Option<EscalaCreator.EscalaData>,
    guia: Option<GuiaObservacionCreator.GuiaData>,
    exam: Option<ExamData>)
  {
    /** The record in the slot of `kind`, if any. */
    function Get(kind: InstrumentType): (r: Option<Instrument>)
      ensures r.Some? ==> KindOf(r.value) == kind
    {
      match kind
      case Rubrica => if rubric.Some? then Some(RubricInst(rubric.value)) else None
      case ListaCotejo => if checklist.Some? then Some(ChecklistInst(checklist.value)) else None
      case Escala => if escala.Some? then Some(EscalaInst(escala.value)) else None
      case GuiaObservacion => if guia.Some? then Some(GuiaInst(guia.value)) else None
      case Examen => if exam.Some? then Some(ExamInst(exam.value)) else None
    }

    /** The slots after the setter of `inst`'s kind is called with it. */
    function With(inst: Instrument): (s: SlotState)
      ensures s.Get(KindOf(inst)) == Some(inst)
      ensures forall k :: k != KindOf(inst) ==> s.Get(k) == Get(k)
    {
      match inst
      case RubricInst(d) => this.(rubric := Some(d))
      case ChecklistInst(d) => this.(checklist := Some(d))
      case EscalaInst(d) => this.(escala := Some(d))
      case GuiaInst(d) => this.(guia := Some(d))
      case ExamInst(d) => this.(exam := Some(d))
    }
  }

  /** Two slot states that agree on every kind are the same. */
  lemma SlotsExtensional(s: SlotState, t: SlotState)
    requires forall k :: s.Get(k) == t.Get(k)
    ensures s == t
  {
    assert s.Get(Rubrica) == t.Get(Rubrica) && s.Get(ListaCotejo) == t.Get(ListaCotejo);
    assert s.Get(Escala) == t.Get(Escala) && s.Get(GuiaObservacion) == t.Get(GuiaObservacion);
    assert s.Get(Examen) == t.Get(Examen);
  }

  /** Installing a record never empties a slot. */
  lemma WithKeepsFilled(s: SlotState, inst: Instrument, k: InstrumentType)
    requires s.Get(k).Some?
    ensures s.With(inst).Get(k).Some?
  {
  }

  /** Of two records of the same kind installed in turn only the last is kept. */
  lemma WithLastWins(s: SlotState, a: Instrument, b: Instrument)
    requires KindOf(a) == KindOf(b)
    ensures s.With(a).With(b) == s.With(b)
  {
    SlotsExtensional(s.With(a).With(b), s.With(b));
  }

  /** Records of different kinds can be installed in either order. */
  lemma WithCommutes(s: SlotState, a: Instrument, b: Instrument)
    requires KindOf(a) != KindOf(b)
    ensures s.With(a).With(b) == s.With(b).With(a)
  {
    SlotsExtensional(s.With(a).With(b), s.With(b).With(a));
  }

  /** The `createEmpty` of the editor of `kind`. */
  function CreateEmpty(kind: InstrumentType, now: nat): (inst: Instrument)
    ensures KindOf(inst) == kind
  {
    match kind
    case Rubrica => RubricInst(RubricCreator.CreateEmptyRubric(now))
    case ListaCotejo => ChecklistInst(ChecklistCreator.CreateEmptyChecklist(now))
    case Escala => EscalaInst(EscalaCreator.CreateEmpty(now))
    case GuiaObservacion => GuiaInst(GuiaObservacionCreator.CreateEmpty(now))
    case Examen => ExamInst(ExamCreator.CreateEmptyExam(now))
  }

  /** The record a settled request installs, if any: a rejected request and a reply of the
      wrong shape install nothing. */
  function Generated(req: Request, outcome: Outcome, clock: nat -> nat): (r: Option<Instrument>)
    ensures r.Some? <==> outcome.Replied? && Fits(req.kind, outcome.reply)
    ensures r.Some? ==> KindOf(r.value) == req.kind
  {
    if outcome.Replied? then MapResponse(req.kind, outcome.reply, req.cfg, clock) else None
  }

  class App {
    var activeTab: InstrumentType
    var isLoading: bool
    var toast: Option<Notice>
    var aiConfig: AiConfig
    var rubricData: Option<RubricData>
    var checklistData: Option<ChecklistData>
    var escalaData: Option<EscalaCreator.EscalaData>
    var guiaData: Option<GuiaObservacionCreator.GuiaData>
    var examData: Option<ExamData>

    function Slots(): SlotState
      reads this
    {
      SlotState(rubricData, checklistData, escalaData, guiaData, examData)
    }

    /** The initial state: the rubric tab, nothing loading, no toast, an empty form, no records. */
    constructor()
      ensures activeTab == Rubrica && !isLoading && toast == None
      ensures aiConfig == AiConfig("", "", "")
      ensures Slots() == SlotState(None, None, None, None, None)
    {
      activeTab := Rubrica;
      isLoading := false;
      toast := None;
      aiConfig := AiConfig("", "", "");
      rubricData, checklistData, escalaData, guiaData, examData := None, None, None, None, None;
    }

    /** `setActiveTab`. */
    method SetActiveTab(kind: InstrumentType)
      modifies this
      ensures activeTab == kind
      ensures isLoading == old(isLoading) && toast == old(toast) && aiConfig == old(aiConfig)
      ensures Slots() == old(Slots())
    {
      activeTab := kind;
    }

    /** `setAiConfig`, as the three form fields call it. */
    method SetAiConfig(cfg: AiConfig)
      modifies this
      ensures aiConfig == cfg
      ensures activeTab == old(activeTab) && isLoading == old(isLoading) && toast == old(toast)
      ensures Slots() == old(Slots())
    {
      aiConfig := cfg;
    }

    /** The slot setter of `inst`'s kind: `setRubricData`, `setChecklistData`, ... */
    method Install(inst: Instrument)
      modifies this
      ensures Slots() == old(Slots()).With(inst)
      ensures activeTab == old(activeTab) && isLoading == old(isLoading)
      ensures toast == old(toast) && aiConfig == old(aiConfig)
    {
      match inst
      case RubricInst(d) => rubricData := Some(d);
      case ChecklistInst(d) => checklistData := Some(d);
      case EscalaInst(d) => escalaData := Some(d);
      case GuiaInst(d) => guiaData := Some(d);
      case ExamInst(d) => examData := Some(d);
    }

    /** An editor's "create manually" button, shown only while its slot is empty. */
    method CreateManual(kind: InstrumentType, now: nat)
      requires Slots().Get(kind) == None
      modifies this
      ensures Slots() == old(Slots()).With(CreateEmpty(kind, now))
      ensures Slots().Get(kind).Some?
      ensures activeTab == old(activeTab) && isLoading == old(isLoading)
      ensures toast == old(toast) && aiConfig == old(aiConfig)
    {
      Install(CreateEmpty(kind, now));
    }

    /** An editor's `setData` with the record one of its edits computed; the editors offer
        their edits only while their slot holds a record. */
    method SetData(inst: Instrument)
      requires Slots().Get(KindOf(inst)).Some?
      modifies this
      ensures Slots() == old(Slots()).With(inst)
      ensures activeTab == old(activeTab) && isLoading == old(isLoading)
      ensures toast == old(toast) && aiConfig == old(aiConfig)
    {
      Install(inst);
    }

    /** `handleAiGenerate` up to the `await`: an incomplete form shows the error toast and
        stops; otherwise loading starts and the request is captured. */
    method StartAiGenerate() returns (req: Option<Request>)
      modifies this
      ensures !ConfigComplete(old(aiConfig)) ==>
        req == None && toast == Some(Notice(IncompleteMessage, Error)) && isLoading == old(isLoading)
      ensures ConfigComplete(old(aiConfig)) ==>
        req == Some(Request(old(activeTab), old(aiConfig))) && isLoading && toast == old(toast)
      ensures Slots() == old(Slots()) && activeTab == old(activeTab) && aiConfig == old(aiConfig)
    {
      if aiConfig.level == "" || aiConfig.subject == "" || aiConfig.topic == "" {
        toast := Some(Notice(IncompleteMessage, Error));
        req := None;
        return;
      }
      isLoading := true;
      req := Some(Request(activeTab, aiConfig));
    }

    /** `handleAiGenerate` after the `await`: the mapped record installed and the success
        toast, or nothing installed and the error toast; loading ends either way. */
    method FinishAiGenerate(req: Request, outcome: Outcome, clock: nat -> nat)
      modifies this
      ensures !isLoading
      ensures activeTab == old(activeTab) && aiConfig == old(aiConfig)
      ensures match Generated(req, outcome, clock)
        case Some(inst) => Slots() == old(Slots()).With(inst) && toast == Some(Notice(SuccessMessage, Success))
        case None => Slots() == old(Slots()) && toast == Some(Notice(FailureMessage, Error))
    {
      var result := Generated(req, outcome, clock);
      if result.Some? {
        Install(result.value);
        toast := Some(Notice(SuccessMessage, Success));
      } else {
        toast := Some(Notice(FailureMessage, Error));
      }
      isLoading := false;
    }

    /** The whole handler, with the service settling as `outcome`. */
    method HandleAiGenerate(outcome: Outcome, clock: nat -> nat)
      modifies this
      ensures activeTab == old(activeTab) && aiConfig == old(aiConfig)
      ensures !ConfigComplete(old(aiConfig)) ==>
        && Slots() == old(Slots()) && isLoading == old(isLoading)
        && toast == Some(Notice(IncompleteMessage, Error))
      ensures ConfigComplete(old(aiConfig)) ==> !isLoading
      ensures ConfigComplete(old(aiConfig)) ==>
        match Generated(Request(old(activeTab), old(aiConfig)), outcome, clock)
        case Some(inst) =>
          && Slots() == old(Slots()).With(inst) && KindOf(inst) == old(activeTab)
          && toast == Some(Notice(SuccessMessage, Success))
        case None => Slots() == old(Slots()) && toast == Some(Notice(FailureMessage, Error))
    {
      var req := StartAiGenerate();
      if req.Some? {
        FinishAiGenerate(req.value, outcome, clock);
      }
    }
  }
}
