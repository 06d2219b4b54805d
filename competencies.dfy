/**
 * The competencies screen (src/Competencies.jsx): records come from the
 * API, success means `status === 'success'`, and every save or delete
 * refetches the list before closing.
 */
module Competencies {
  import opened Js
  import opened Http
  import opened Records
  import Crud

  /** A competency as the API returns it; `competencyType` is the JSON field `type`. */
  datatype Competency = Competency(competenceId: int, competencyType: string, description: string, status: string)

  /** The modal's two fields. */
  datatype Draft = Draft(competencyType: string, description: string)

  /** The body of a create or update. */
  datatype Payload = Payload(competencyType: string, description: string, status: string)

  function EditDraft(r: Competency): (d: Draft)
    ensures d.competencyType == r.competencyType && d.description == r.description
  {
    Draft(r.competencyType, r.description)
  }

  const CreateDraft := Draft("", "")

  /** `{ type, description, status: 'active' }` */
  function PayloadOf(d: Draft): (p: Payload)
    ensures p.competencyType == d.competencyType && p.description == d.description
    ensures p.status == "active"
  {
    Payload(d.competencyType, d.description, "active")
  }

  /** `filterCompetencies`: the term in the type or in the description, ignoring case. */
  function Matches(r: Competency, term: string): (b: bool)
    ensures b <==> OccursIgnoringCase(r.competencyType, term) || OccursIgnoringCase(r.description, term)
    ensures term == "" ==> b
  {
    ContainsIgnoringCase(r.competencyType, term) || ContainsIgnoringCase(r.description, term)
  }

  const Messages := Crud.Texts(
    None,
    None,
    "No se pudieron cargar las competencias. Por favor, intente nuevamente.",
    "No se pudo guardar la competencia. Por favor, intente nuevamente.",
    false,
    "No se pudo eliminar la competencia. Por favor, intente nuevamente.")

  const Config: Crud.Config<Competency, Draft, Payload, string> := Crud.Config(
    (r: Competency) => r.competenceId, EditDraft, CreateDraft, true, true, Matches, "",
    Crud.Remote(PayloadOf, StatusIsSuccess, Crud.RefetchList, Crud.Awaited, false, Messages))

  type State = Crud.Snapshot<Competency, Draft, string>

  /** The filter keeps a record exactly when the term occurs in its lowered type or description. */
  lemma MatchesMeansOccurs(r: Competency, term: string)
    ensures Matches(r, term) <==>
              (exists i :: OccursAt(Lower(r.competencyType), Lower(term), i))
              || (exists i :: OccursAt(Lower(r.description), Lower(term), i))
  {
    IncludesIffOccurs(Lower(r.competencyType), Lower(term));
    IncludesIffOccurs(Lower(r.description), Lower(term));
  }

  /** An empty search term shows every cached record. */
  lemma EmptyTermShowsAll(s: State)
    requires s.query == ""
    ensures Crud.Visible(Config, s) == s.list
  {
    Crud.NoQueryShowsAll(Config, s);
  }

  /** A save is a PUT by `competence_id` when editing, a POST otherwise, always with status 'active'. */
  lemma SaveRequest(s: State)
    ensures s.editing.Some? ==>
              Crud.SubmitRequest(Config, s)
                == Crud.Put(s.editing.value.competenceId, Payload(s.draft.competencyType, s.draft.description, "active"))
    ensures s.editing.None? ==>
              Crud.SubmitRequest(Config, s) == Crud.Post(Payload(s.draft.competencyType, s.draft.description, "active"))
  {
  }

  /**
   * An accepted save lands the refetched list, then closes the modal with
   * an empty draft and shows the server's message as success; a refused
   * or thrown one keeps the modal, draft and list, with an error alert.
   */
  lemma SaveOutcome(s: State, reply: Crud.Ack, refetch: Crud.Listing<Competency>)
    ensures var t := Crud.AfterSubmit(Config, s, reply, refetch);
            if reply.Got? && reply.body.status == Text("success") then
              !t.modalOpen && t.editing.None? && t.draft == CreateDraft
              && t.alert == Shown(reply.body.message, Success)
              && t.list == (if refetch.Got? && refetch.body.status == Text("success") then refetch.body.data else s.list)
            else
              t.modalOpen == s.modalOpen && t.draft == s.draft && t.editing == s.editing && t.list == s.list
              && t.alert.Shown? && t.alert.kind == Failure
  {
  }

  /**
   * A click on Eliminar closes the dialog whatever happens; an accepted
   * delete refetches and forgets the id, any other outcome keeps the list
   * and the pending id.
   */
  lemma DeleteOutcome(s: State, reply: Crud.Ack, refetch: Crud.Listing<Competency>)
    ensures var t := Crud.ClickDelete(Config, s, reply, refetch);
            !t.deleteOpen &&
            if reply.Got? && reply.body.status == Text("success") then
              t.pending.None? && t.alert == Shown(reply.body.message, Success)
              && t.list == (if refetch.Got? && refetch.body.status == Text("success") then refetch.body.data else s.list)
            else
              t.pending == s.pending && t.list == s.list
              && t.alert.Shown? && t.alert.kind == Failure
  {
  }

  /** A fetch that is refused or throws keeps the cached list and shows an error. */
  lemma FailedFetchKeepsList(s: State, reply: Crud.Listing<Competency>)
    requires !(reply.Got? && reply.body.status == Text("success"))
    ensures Crud.ApplyFetch(Config, s, reply).list == s.list
    ensures Crud.ApplyFetch(Config, s, reply).alert.kind == Failure
  {
  }
}
