/**
 * The candidates screen (src/Candidates.jsx): success is a truthy `status`,
 * the refetch after a save or delete is started but not awaited, and a
 * confirmation dialog marks a candidate as hired in the local list.
 */
module Candidates {
  import opened Js
  import opened Http
  import opened Records
  import Crud

  datatype Candidate = Candidate(
    candidateId: int,
    desiredPosition: string,
    idNumber: string,
    idType: string,
    name: string,
    department: string,
    desiredSalary: string,
    mainCompetencies: string,
    mainTrainings: string,
    recommendedBy: string,
    status: string)

  /** `formData`: the ten editable fields; it is also the body of a create or update. */
  datatype Form = Form(
    desiredPosition: string,
    idNumber: string,
    idType: string,
    name: string,
    department: string,
    desiredSalary: string,
    mainCompetencies: string,
    mainTrainings: string,
    recommendedBy: string,
    status: string)

  /** Opening for edit copies the ten fields. */
  function EditForm(r: Candidate): (f: Form)
    ensures f.desiredPosition == r.desiredPosition && f.idNumber == r.idNumber && f.idType == r.idType
    ensures f.name == r.name && f.department == r.department && f.desiredSalary == r.desiredSalary
    ensures f.mainCompetencies == r.mainCompetencies && f.mainTrainings == r.mainTrainings
    ensures f.recommendedBy == r.recommendedBy && f.status == r.status
  {
    Form(r.desiredPosition, r.idNumber, r.idType, r.name, r.department, r.desiredSalary,
         r.mainCompetencies, r.mainTrainings, r.recommendedBy, r.status)
  }

  /** Create mode: every field '' except status 'active'. */
  const CreateForm := Form("", "", "", "", "", "", "", "", "", "active")

  /** The request body is `formData` itself. */
  function PayloadOf(f: Form): (p: Form)
  {
    f
  }

  /** `filteredCandidates`: the term in the name or the desired position, ignoring case. */
  function Matches(r: Candidate, term: string): (b: bool)
    ensures b <==> OccursIgnoringCase(r.name, term) || OccursIgnoringCase(r.desiredPosition, term)
    ensures term == "" ==> b
  {
    ContainsIgnoringCase(r.name, term) || ContainsIgnoringCase(r.desiredPosition, term)
  }

  const Messages := Crud.Texts(
    None,
    Some("Error al recuperar los candidatos."),
    "No se pudieron cargar los candidatos. Por favor, intente nuevamente.",
    "No se pudo guardar el candidato. Por favor, intente nuevamente.",
    true,
    "No se pudo eliminar el candidato. Por favor, intente nuevamente.")

  function CandidateId(r: Candidate): int {
    r.candidateId
  }

  const Config: Crud.Config<Candidate, Form, Form, string> := Crud.Config(
    CandidateId, EditForm, CreateForm, false, true, Matches, "",
    Crud.Remote(PayloadOf, StatusIsTruthy, Crud.RefetchList, Crud.NotAwaited, false, Messages))

  type State = Crud.Snapshot<Candidate, Form, string>

  /**
   * A save is a PUT of the ten form fields by `candidate_id` when editing and
   * a POST of them otherwise; opening a record and saving it untouched sends
   * that record's own fields back.
   */
  lemma SaveRequest(s: State, r: Candidate)
    ensures s.editing.Some? ==> Crud.SubmitRequest(Config, s) == Crud.Put(s.editing.value.candidateId, s.draft)
    ensures s.editing.None? ==> Crud.SubmitRequest(Config, s) == Crud.Post(s.draft)
    ensures var q := Crud.SubmitRequest(Config, Crud.OpenForEdit(Config, s, r));
            q.Put? && q.id == r.candidateId && q.body.name == r.name && q.body.idNumber == r.idNumber
            && q.body.desiredPosition == r.desiredPosition && q.body.status == r.status
            && q.body.desiredSalary == r.desiredSalary && q.body.recommendedBy == r.recommendedBy
    ensures Crud.SubmitRequest(Config, Crud.OpenForCreate(Config, s)) == Crud.Post(CreateForm)
  {
  }

  /** A reply counts as accepted exactly when its status is truthy: `true` or any non-empty text. */
  lemma AcceptedIffTruthy<T>(reply: Response<Envelope<T>>)
    ensures Crud.Accepted(Config, reply) <==> reply.Got? && IsTruthy(reply.body.status)
    ensures reply.Got? && reply.body.status == Text("error") ==> Crud.Accepted(Config, reply)
    ensures reply.Got? && reply.body.status == Flag(false) ==> !Crud.Accepted(Config, reply)
  {
  }

  /** An empty search term shows every cached record. */
  lemma EmptyTermShowsAll(s: State)
    requires s.query == ""
    ensures Crud.Visible(Config, s) == s.list
  {
    Crud.NoQueryShowsAll(Config, s);
  }

  /** Closing clears the flag and the target but keeps `formData` as typed. */
  lemma CloseKeepsForm(s: State)
    ensures Crud.Close(Config, s) == s.(modalOpen := false, editing := None)
  {
  }

  /**
   * An accepted save closes the modal, shows the server's message and then
   * lands the refetch, whose failure replaces the success alert with an
   * error; a refused or thrown save keeps the modal open with an error.
   */
  lemma SaveOutcome(s: State, reply: Crud.Ack, refetch: Crud.Listing<Candidate>)
    ensures var t := Crud.AfterSubmit(Config, s, reply, refetch);
            if reply.Got? && IsTruthy(reply.body.status) then
              !t.modalOpen && t.editing.None? && t.draft == s.draft
              && (refetch.Got? && IsTruthy(refetch.body.status) ==>
                    t.list == refetch.body.data && t.alert == Shown(reply.body.message, Success))
              && (!(refetch.Got? && IsTruthy(refetch.body.status)) ==> t.list == s.list && t.alert.kind == Failure)
            else
              t.modalOpen == s.modalOpen && t.editing == s.editing && t.draft == s.draft && t.list == s.list
              && t.alert.kind == Failure
              && (reply.Got? ==> t.alert.message == reply.body.message)
              && (reply.Threw? ==>
                    t.alert.message
                      == Some(OrElse(ServerMessage(reply.error), "No se pudo guardar el candidato. Por favor, intente nuevamente.")))
  {
  }

  /** The dialog closes on the click; an accepted delete clears the id, otherwise it stays pending. */
  lemma DeleteOutcome(s: State, reply: Crud.Ack, refetch: Crud.Listing<Candidate>)
    ensures var t := Crud.ClickDelete(Config, s, reply, refetch);
            !t.deleteOpen &&
            if reply.Got? && IsTruthy(reply.body.status) then
              t.pending.None?
              && t.list == (if refetch.Got? && IsTruthy(refetch.body.status) then refetch.body.data else s.list)
            else t.pending == s.pending && t.list == s.list
  {
  }

  /** A fetch with a falsy status or an exception keeps `candidates`. */
  lemma FailedFetchKeepsList(s: State, reply: Crud.Listing<Candidate>)
    requires !(reply.Got? && IsTruthy(reply.body.status))
    ensures Crud.ApplyFetch(Config, s, reply).list == s.list
    ensures reply.Got? ==>
              Crud.ApplyFetch(Config, s, reply).alert
                == Shown(Some(OrElse(reply.body.message, "Error al recuperar los candidatos.")), Failure)
  {
  }

  // --------------------------------------------------------- hiring a candidate

  /** `{ ...c, status: 'hired' }` */
  function Hire(r: Candidate): (h: Candidate)
    ensures h.status == "hired" && h.(status := r.status) == r
  {
    r.(status := "hired")
  }

  /** The page: the generic screen plus the hire confirmation dialog. */
  datatype Page = Page(screen: State, selected: Option<Candidate>, selectOpen: bool)

  /** `handleSelectAsEmployee`: remember the candidate and open the dialog. */
  function Select(p: Page, r: Candidate): (q: Page)
    ensures q == p.(selected := Some(r), selectOpen := true)
  {
    p.(selected := Some(r), selectOpen := true)
  }

  /**
   * The `candidates.map` of `confirmSelectAsEmployee`: the records with the
   * selected id are hired. With no selection the callback reads the id of
   * null and throws, which only happens when the list is not empty.
   */
  function HireSelected(list: seq<Candidate>, selected: Option<Candidate>): (r: Option<seq<Candidate>>)
    ensures selected.None? && list != [] <==> r.None?
    ensures r.Some? ==> |r.value| == |list|
    ensures selected.Some? ==> r == Some(UpdateById(list, CandidateId, selected.value.candidateId, Hire))
    ensures selected.None? && list == [] ==> r == Some([])
  {
    match selected
    case Some(c) => Some(UpdateById(list, CandidateId, c.candidateId, Hire))
    case None => if list == [] then Some([]) else None
  }

  const HiredText := "Candidato seleccionado como empleado exitosamente."

  /**
   * `confirmSelectAsEmployee`: on the mapped list, close the dialog, clear
   * the selection and show the success alert; a throwing map changes nothing.
   */
  function Confirm(p: Page): (q: Page)
    ensures HireSelected(p.screen.list, p.selected).None? ==> q == p
    ensures HireSelected(p.screen.list, p.selected).Some? ==>
              q == Page(p.screen.(list := HireSelected(p.screen.list, p.selected).value,
                                  alert := Shown(Some(HiredText), Success)),
                        None, false)
  {
    match HireSelected(p.screen.list, p.selected)
    case None => p
    case Some(list) => Page(p.screen.(list := list, alert := Shown(Some(HiredText), Success)), None, false)
  }

  /** The hire dialog's `onOpenChange(false)`: only the flag closes; the selection is kept. */
  function CancelSelect(p: Page): (q: Page)
    ensures q == p.(selectOpen := false)
  {
    p.(selectOpen := false)
  }

  /**
   * A click on Confirmar. The Action button runs the async
   * `confirmSelectAsEmployee`, whose TypeError only rejects its promise,
   * and then closes its own dialog; so a throwing map leaves everything but
   * the flag as it was.
   */
  function ClickConfirm(p: Page): (q: Page)
    ensures !q.selectOpen
    ensures HireSelected(p.screen.list, p.selected).None? ==> q == p.(selectOpen := false)
    ensures HireSelected(p.screen.list, p.selected).Some? ==> q == Confirm(p)
  {
    CancelSelect(Confirm(p))
  }

  /**
   * Confirming after selecting hires exactly the records with the selected
   * `candidate_id`: the list keeps its length, every other record is
   * untouched, and the dialog closes with the selection cleared.
   */
  lemma SelectThenConfirmHires(p: Page, r: Candidate)
    ensures var q := ClickConfirm(Select(p, r));
            |q.screen.list| == |p.screen.list|
            && (forall i :: 0 <= i < |p.screen.list| && p.screen.list[i].candidateId == r.candidateId ==>
                  q.screen.list[i] == p.screen.list[i].(status := "hired"))
            && (forall i :: 0 <= i < |p.screen.list| && p.screen.list[i].candidateId != r.candidateId ==>
                  q.screen.list[i] == p.screen.list[i])
            && !q.selectOpen && q.selected.None?
            && q.screen.alert == Shown(Some(HiredText), Success)
            && q.screen.(list := p.screen.list, alert := p.screen.alert) == p.screen
  {
    var list := UpdateById(p.screen.list, CandidateId, r.candidateId, Hire);
    assert HireSelected(p.screen.list, Some(r)) == Some(list);
  }

  /** Hiring twice is hiring once. */
  lemma ConfirmIdempotentOnList(p: Page, r: Candidate)
    ensures var once := ClickConfirm(Select(p, r)).screen.list;
            ClickConfirm(Select(ClickConfirm(Select(p, r)), r)).screen.list == once
  {
    var once := UpdateById(p.screen.list, CandidateId, r.candidateId, Hire);
    assert ClickConfirm(Select(p, r)).screen.list == once;
    var twice := UpdateById(once, CandidateId, r.candidateId, Hire);
    assert ClickConfirm(Select(ClickConfirm(Select(p, r)), r)).screen.list == twice;
    assert forall i :: 0 <= i < |once| ==> twice[i] == once[i];
  }

  /** The page as a mounted object: the generic screen plus the hire dialog's state cells. */
  class CandidatesPage {
    const screen: Crud.Screen<Candidate, Form, Form, string>
    var selected: Option<Candidate>
    var selectOpen: bool

    function State(): Page
      reads this, screen
    {
      Page(screen.State(), selected, selectOpen)
    }

    constructor ()
      ensures screen.config == Config && fresh(screen)
      ensures State() == Page(Crud.Mount(Config), None, false)
    {
      screen := new Crud.Screen(Config);
      selected := None;
      selectOpen := false;
    }

    method SelectAsEmployee(r: Candidate)
      modifies this
      ensures State() == Select(old(State()), r)
    {
      selected := Some(r);
      selectOpen := true;
    }

    method ConfirmSelectAsEmployee()
      modifies this, screen
      ensures State() == ClickConfirm(old(State()))
    {
      var hired := HireSelected(screen.list, selected);
      if hired.Some? {
        screen.list := hired.value;
        selected := None;
        screen.alert := Http.Shown(Some(HiredText), Success);
      }
      selectOpen := false;
    }

    method CancelSelectDialog()
      modifies this
      ensures State() == CancelSelect(old(State()))
    {
      selectOpen := false;
    }
  }
}
