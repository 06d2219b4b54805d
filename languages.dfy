/**
 * The languages screen (src/Languages.jsx): records come from the API with
 * the strict success test; a save refetches, a delete filters the cached
 * list locally.
 */
module Languages {
  import opened Js
  import opened Http
  import opened Records
  import Crud

  datatype Language = Language(languageId: int, name: string, status: string)

  /** The modal's fields; they are also the body of a create or update. */
  datatype Draft = Draft(name: string, status: string)

  function EditDraft(r: Language): (d: Draft)
    ensures d.name == r.name && d.status == r.status
  {
    Draft(r.name, r.status)
  }

  /** Create mode resets both fields to ''. */
  const CreateDraft := Draft("", "")

  /** `{ name, status }` */
  function PayloadOf(d: Draft): (p: Draft)
    ensures p.name == d.name && p.status == d.status
  {
    d
  }

  /** `filterLanguages`: the term in the name or the status, ignoring case. */
  function Matches(r: Language, term: string): (b: bool)
    ensures b <==> OccursIgnoringCase(r.name, term) || OccursIgnoringCase(r.status, term)
    ensures term == "" ==> b
  {
    ContainsIgnoringCase(r.name, term) || ContainsIgnoringCase(r.status, term)
  }

  const Messages := Crud.Texts(
    None,
    None,
    "No se pudieron cargar los idiomas. Por favor, intente nuevamente.",
    "No se pudo guardar el idioma. Por favor, intente nuevamente.",
    false,
    "No se pudo eliminar el idioma. Por favor, intente nuevamente.")

  const Config: Crud.Config<Language, Draft, Draft, string> := Crud.Config(
    (r: Language) => r.languageId, EditDraft, CreateDraft, true, true, Matches, "",
    Crud.Remote(PayloadOf, StatusIsSuccess, Crud.RemoveLocally, Crud.Awaited, false, Messages))

  type State = Crud.Snapshot<Language, Draft, string>

  /** `getStatusLabel`: the two known statuses get Spanish labels, any other value shows as is. */
  function StatusLabel(status: string): (text: string)
    ensures status == "active" ==> text == "Activo"
    ensures status == "disabled" ==> text == "Deshabilitado"
    ensures status != "active" && status != "disabled" ==> text == status
  {
    if status == "active" then "Activo"
    else if status == "disabled" then "Deshabilitado"
    else status
  }

  /**
   * The label does not tell the status apart from its own label: 'active'
   * and 'Activo' both show as 'Activo', and likewise for 'disabled'.
   */
  lemma LabelsCollide()
    ensures StatusLabel("active") == StatusLabel("Activo") == "Activo"
    ensures StatusLabel("disabled") == StatusLabel("Deshabilitado") == "Deshabilitado"
  {
  }

  /** An empty search term shows every cached record. */
  lemma EmptyTermShowsAll(s: State)
    requires s.query == ""
    ensures Crud.Visible(Config, s) == s.list
  {
    Crud.NoQueryShowsAll(Config, s);
  }

  /**
   * An accepted delete removes exactly the records with the pending
   * `language_id`, keeps the others in order, and does not depend on any
   * refetch; the dialog closes and the id is forgotten.
   */
  lemma DeleteIsLocal(s: State, reply: Crud.Ack, r1: Crud.Listing<Language>, r2: Crud.Listing<Language>)
    requires reply.Got? && reply.body.status == Text("success")
    ensures var t := Crud.ClickDelete(Config, s, reply, r1);
            t == Crud.ClickDelete(Config, s, reply, r2)
            && (forall x :: x in t.list <==> x in s.list && !(s.pending.Some? && x.languageId == s.pending.value))
            && Subsequence(t.list, s.list)
            && !t.deleteOpen && t.pending.None? && t.alert == Shown(reply.body.message, Success)
  {
    var t := Crud.ClickDelete(Config, s, reply, r1);
    assert t.list == RemoveById(s.list, Config.idOf, s.pending);
    Crud.LocalRemoveExactly(Config, s);
  }

  /** A refused or failed delete keeps the list and the pending id; the button still closes the dialog. */
  lemma FailedDeleteKeepsAll(s: State, reply: Crud.Ack, refetch: Crud.Listing<Language>)
    requires !(reply.Got? && reply.body.status == Text("success"))
    ensures var t := Crud.ClickDelete(Config, s, reply, refetch);
            t.list == s.list && !t.deleteOpen && t.pending == s.pending && t.alert.kind == Failure
  {
  }

  /** An accepted save refetches and then closes; otherwise the modal stays open over the draft. */
  lemma SaveOutcome(s: State, reply: Crud.Ack, refetch: Crud.Listing<Language>)
    ensures var t := Crud.AfterSubmit(Config, s, reply, refetch);
            if reply.Got? && reply.body.status == Text("success") then
              !t.modalOpen && t.draft == CreateDraft && t.alert == Shown(reply.body.message, Success)
              && t.list == (if refetch.Got? && refetch.body.status == Text("success") then refetch.body.data else s.list)
            else t.modalOpen == s.modalOpen && t.draft == s.draft && t.list == s.list
  {
  }

  /** A fetch that is refused or throws keeps the cached list. */
  lemma FailedFetchKeepsList(s: State, reply: Crud.Listing<Language>)
    requires !(reply.Got? && reply.body.status == Text("success"))
    ensures Crud.ApplyFetch(Config, s, reply).list == s.list
  {
  }
}
