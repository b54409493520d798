/**
 * The census wizard page (`Home`): the current step, the identified school
 * and the reset dialog, the handlers that move between steps, and the
 * choice of which form the page shows.  Scrolling to the top and reloading
 * the page are left out; the browser store is the `Storage` class.
 */
module Wizard {
  import opened Wrappers
  import opened Storage
  import Persistence

  /**
   * The number of wizard steps: identification plus ten section forms, the
   * length of `CENSUS_STEPS` in `config/steps.ts`. The page imports the list
   * as `STEPS`, a name that module does not export.
   */
  const StepCount: int := 11

  /** The page's state: the step index, the school id (`null` is `None`) and whether the reset dialog is open. */
  datatype HomeState = HomeState(step: int, schoolId: Option<int>, showResetModal: bool)

  /** A step index the page can reach. */
  predicate InRange(s: HomeState) {
    0 <= s.step < StepCount
  }

  /** The state of a fresh page: step 0, no school, the dialog closed. */
  function Initial(): (s: HomeState)
    ensures s.step == 0 && s.schoolId == None && !s.showResetModal && InRange(s)
  {
    HomeState(0, None, false)
  }

  /** `handleNext`: one step forward, never past the last step. */
  function Next(s: HomeState): (r: HomeState)
    ensures s.step < StepCount - 1 ==> r.step == s.step + 1
    ensures s.step >= StepCount - 1 ==> r.step == StepCount - 1
    ensures r.schoolId == s.schoolId && r.showResetModal == s.showResetModal
  {
    s.(step := if s.step + 1 < StepCount - 1 then s.step + 1 else StepCount - 1)
  }

  /** `handleBack`: one step back, never before step 0. */
  function Back(s: HomeState): (r: HomeState)
    ensures s.step > 0 ==> r.step == s.step - 1
    ensures s.step <= 0 ==> r.step == 0
    ensures r.schoolId == s.schoolId && r.showResetModal == s.showResetModal
  {
    s.(step := if s.step - 1 > 0 then s.step - 1 else 0)
  }

  /** `handleIdentificationSuccess(id)`: remember the school, then advance as `handleNext` does. */
  function IdentificationSuccess(s: HomeState, id: int): (r: HomeState)
    ensures r.schoolId == Some(id) && r.step == Next(s).step && r.showResetModal == s.showResetModal
  {
    Next(s).(schoolId := Some(id))
  }

  /** `handleReset`: only opens the dialog. */
  function OpenReset(s: HomeState): (r: HomeState)
    ensures r.showResetModal && r.step == s.step && r.schoolId == s.schoolId
  {
    s.(showResetModal := true)
  }

  /** The dialog's `onClose`: only closes it. */
  function CloseReset(s: HomeState): (r: HomeState)
    ensures !r.showResetModal && r.step == s.step && r.schoolId == s.schoolId
  {
    s.(showResetModal := false)
  }

  /** The state `confirmReset` leaves behind, whatever it started from. */
  function ConfirmReset(s: HomeState): (r: HomeState)
    ensures r == Initial()
  {
    HomeState(0, None, false)
  }

  /** The ten section forms, in the order the wizard shows them. */
  datatype Section =
    | GeneralData | Gestao | Alunos | Servidores | Tecnologia
    | Portaria | ServicosGerais | Merenda | Avaliacao | Observacoes

  /** The form of steps 1 to 10. */
  function SectionAt(step: int): (f: Section)
    requires 1 <= step < StepCount
  {
    match step
    case 1 => GeneralData
    case 2 => Gestao
    case 3 => Alunos
    case 4 => Servidores
    case 5 => Tecnologia
    case 6 => Portaria
    case 7 => ServicosGerais
    case 8 => Merenda
    case 9 => Avaliacao
    case _ => Observacoes
  }

  /** What the page renders below the step list. */
  datatype View =
    | Identification(initialId: Option<int>)
    | SectionForm(section: Section, schoolId: int)
    | Nothing

  /**
   * `renderStep`: the identification form at step 0 whatever the school;
   * a section form at steps 1 to 10 only when the school id is truthy (so
   * not for id 0); nothing at any other index.
   */
  function RenderStep(s: HomeState): (v: View)
    ensures v.Identification? <==> s.step == 0
    ensures v.Identification? ==> v.initialId == s.schoolId
    ensures v.SectionForm? <==> 1 <= s.step < StepCount && Persistence.HasSchool(s.schoolId)
    ensures v.SectionForm? ==> v.section == SectionAt(s.step) && s.schoolId == Some(v.schoolId)
  {
    if s.step == 0 then Identification(s.schoolId)
    else if 1 <= s.step < StepCount && Persistence.HasSchool(s.schoolId) then
      SectionForm(SectionAt(s.step), s.schoolId.value)
    else Nothing
  }

  /** Each section form is shown at exactly one step. */
  lemma SectionAtInjective(i: int, j: int)
    requires 1 <= i < StepCount && 1 <= j < StepCount
    ensures SectionAt(i) == SectionAt(j) <==> i == j
  {
  }

  /** From an interior step, back after next returns to the same state. */
  lemma BackAfterNext(s: HomeState)
    requires 0 <= s.step < StepCount - 1
    ensures Back(Next(s)) == s
  {
  }

  /** At the last step `handleNext` changes nothing; at step 0 `handleBack` changes nothing. */
  lemma NavigationAtEnds(s: HomeState)
    ensures s.step == StepCount - 1 ==> Next(s) == s
    ensures s.step == 0 ==> Back(s) == s
  {
  }

  /**
   * Identifying a school from the start opens the first section form for
   * it, unless the id is 0: then the page moves to step 1 and shows nothing.
   */
  lemma IdentifyFromStart(id: int)
    ensures id != 0 ==> RenderStep(IdentificationSuccess(Initial(), id)) == SectionForm(GeneralData, id)
    ensures id == 0 ==> RenderStep(IdentificationSuccess(Initial(), id)) == Nothing
  {
  }

  /** Everything that can happen to the page's state. */
  datatype Command = NextStep | BackStep | Identified(id: int) | AskReset | CloseDialog | ConfirmedReset

  function Apply(s: HomeState, c: Command): (r: HomeState)
  {
    match c
    case NextStep => Next(s)
    case BackStep => Back(s)
    case Identified(id) => IdentificationSuccess(s, id)
    case AskReset => OpenReset(s)
    case CloseDialog => CloseReset(s)
    case ConfirmedReset => ConfirmReset(s)
  }

  /** The state after a sequence of commands, the first applied first. */
  function Run(s: HomeState, cs: seq<Command>): HomeState
    decreases |cs|
  {
    if cs == [] then s else Run(Apply(s, cs[0]), cs[1..])
  }

  /** Whatever the page does, its step stays within `[0, StepCount - 1]`. */
  lemma {:induction false} RunInRange(s: HomeState, cs: seq<Command>)
    requires InRange(s)
    ensures InRange(Run(s, cs))
    decreases |cs|
  {
    if cs != [] {
      RunInRange(Apply(s, cs[0]), cs[1..]);
    }
  }

  /** `id` is the school of the last `Identified` command, none after a later reset, `start` if neither occurs. */
  predicate LastIdentified(cs: seq<Command>, start: Option<int>, id: Option<int>)
    decreases |cs|
  {
    if cs == [] then id == start
    else
      var last := cs[|cs| - 1];
      if last.Identified? then id == Some(last.id)
      else if last.ConfirmedReset? then id == None
      else LastIdentified(cs[..|cs| - 1], start, id)
  }

  lemma {:induction false} RunSnoc(s: HomeState, cs: seq<Command>, c: Command)
    ensures Run(s, cs + [c]) == Apply(Run(s, cs), c)
    decreases |cs|
  {
    if cs != [] {
      assert (cs + [c])[1..] == cs[1..] + [c];
      RunSnoc(Apply(s, cs[0]), cs[1..], c);
    }
  }

  /** The school id after a run is the last one identified, or none after the last reset. */
  lemma {:induction false} RunSchool(s: HomeState, cs: seq<Command>)
    ensures LastIdentified(cs, s.schoolId, Run(s, cs).schoolId)
    decreases |cs|
  {
    if cs != [] {
      var init := cs[..|cs| - 1];
      assert cs == init + [cs[|cs| - 1]];
      RunSnoc(s, init, cs[|cs| - 1]);
      RunSchool(s, init);
    }
  }

  /** The `Home` component's state and handlers; `storage` is the page's `localStorage`. */
  class Home {
    var currentStep: int
    var schoolId: Option<int>
    var showResetModal: bool
    const storage: LocalStorage

    function State(): (s: HomeState)
      reads this
      ensures s.step == currentStep && s.schoolId == schoolId && s.showResetModal == showResetModal
    {
      HomeState(currentStep, schoolId, showResetModal)
    }

    constructor(storage: LocalStorage)
      ensures State() == Initial() && this.storage == storage
    {
      currentStep := 0;
      schoolId := None;
      showResetModal := false;
      this.storage := storage;
    }

    method HandleNext()
      modifies this
      ensures State() == Next(old(State()))
    {
      currentStep := if currentStep + 1 < StepCount - 1 then currentStep + 1 else StepCount - 1;
    }

    method HandleBack()
      modifies this
      ensures State() == Back(old(State()))
    {
      currentStep := if currentStep - 1 > 0 then currentStep - 1 else 0;
    }

    method HandleIdentificationSuccess(id: int)
      modifies this
      ensures State() == IdentificationSuccess(old(State()), id)
    {
      schoolId := Some(id);
      HandleNext();
    }

    method HandleReset()
      modifies this
      ensures State() == OpenReset(old(State()))
    {
      showResetModal := true;
    }

    method CloseResetModal()
      modifies this
      ensures State() == CloseReset(old(State()))
    {
      showResetModal := false;
    }

    /** `confirmReset`: back to the initial state, and the whole store emptied (drafts of every step included). */
    method ConfirmReset()
      modifies this, storage
      ensures State() == Initial()
      ensures storage.items == map[]
    {
      schoolId := None;
      currentStep := 0;
      showResetModal := false;
      storage.Clear();
    }
  }
}
