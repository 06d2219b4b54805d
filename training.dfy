/**
 * The training screen (src/Training.jsx): six draft fields, the strict
 * success test, refetch after a save and a local filter after a delete.
 */
module Training {
  import opened Js
  import opened Http
  import opened Records
  import Crud

  datatype Course = Course(
    trainingId: int,
    description: string,
    level: string,
    dateFrom: string,
    dateTo: string,
    institution: string,
    status: string)

  datatype Draft = Draft(
    description: string,
    level: string,
    dateFrom: string,
    dateTo: string,
    institution: string,
    status: string)

  /** The body of a create or update, with the API's field names for the dates. */
  datatype Payload = Payload(
    description: string,
    level: string,
    date_from: string,
    date_to: string,
    institution: string,
    status: string)

  /** Editing copies the six fields. */
  function EditDraft(r: Course): (d: Draft)
    ensures d.description == r.description && d.level == r.level && d.dateFrom == r.dateFrom
    ensures d.dateTo == r.dateTo && d.institution == r.institution && d.status == r.status
  {
    Draft(r.description, r.level, r.dateFrom, r.dateTo, r.institution, r.status)
  }

  /** Create mode and closing reset every field, with status 'active'. */
  const CreateDraft := Draft("", "", "", "", "", "active")

  /** `{ description, level, date_from: dateFrom, date_to: dateTo, institution, status }` */
  function PayloadOf(d: Draft): (p: Payload)
    ensures p.date_from == d.dateFrom && p.date_to == d.dateTo
    ensures p.description == d.description && p.level == d.level
    ensures p.institution == d.institution && p.status == d.status
  {
    Payload(d.description, d.level, d.dateFrom, d.dateTo, d.institution, d.status)
  }

  /** Saving the draft of a record sends back exactly that record's fields. */
  lemma EditedPayloadMirrorsRecord(r: Course)
    ensures var p := PayloadOf(EditDraft(r));
            p == Payload(r.description, r.level, r.dateFrom, r.dateTo, r.institution, r.status)
  {
  }

  /** `filterTrainings`: the term in the description, the level or the institution, ignoring case. */
  function Matches(r: Course, term: string): (b: bool)
    ensures b <==> OccursIgnoringCase(r.description, term) || OccursIgnoringCase(r.level, term) || OccursIgnoringCase(r.institution, term)
    ensures term == "" ==> b
  {
    ContainsIgnoringCase(r.description, term) || ContainsIgnoringCase(r.level, term)
    || ContainsIgnoringCase(r.institution, term)
  }

  const Messages := Crud.Texts(
    None,
    None,
    "No se pudieron cargar las capacitaciones. Por favor, intente nuevamente.",
    "No se pudo guardar la capacitación. Por favor, intente nuevamente.",
    false,
    "No se pudo eliminar la capacitación. Por favor, intente nuevamente.")

  const Config: Crud.Config<Course, Draft, Payload, string> := Crud.Config(
    (r: Course) => r.trainingId, EditDraft, CreateDraft, true, true, Matches, "",
    Crud.Remote(PayloadOf, StatusIsSuccess, Crud.RemoveLocally, Crud.Awaited, false, Messages))

  type State = Crud.Snapshot<Course, Draft, string>

  /** An empty search term shows every cached record. */
  lemma EmptyTermShowsAll(s: State)
    requires s.query == ""
    ensures Crud.Visible(Config, s) == s.list
  {
    Crud.NoQueryShowsAll(Config, s);
  }

  /** Closing after any edit leaves the create defaults and no target. */
  lemma CloseResets(s: State, r: Course)
    ensures var t := Crud.Close(Config, Crud.OpenForEdit(Config, s, r));
            t.draft == Draft("", "", "", "", "", "active") && t.editing.None? && !t.modalOpen
  {
  }

  /** An accepted delete removes the pending `training_id` locally; no refetch is involved. */
  lemma DeleteIsLocal(s: State, reply: Crud.Ack, r1: Crud.Listing<Course>, r2: Crud.Listing<Course>)
    requires reply.Got? && reply.body.status == Text("success")
    ensures var t := Crud.ClickDelete(Config, s, reply, r1);
            t == Crud.ClickDelete(Config, s, reply, r2)
            && (forall x :: x in t.list <==> x in s.list && !(s.pending.Some? && x.trainingId == s.pending.value))
            && Subsequence(t.list, s.list)
  {
    var t := Crud.ClickDelete(Config, s, reply, r1);
    assert t.list == RemoveById(s.list, Config.idOf, s.pending);
    Crud.LocalRemoveExactly(Config, s);
  }

  /** A fetch that is refused or throws keeps the cached list. */
  lemma FailedFetchKeepsList(s: State, reply: Crud.Listing<Course>)
    requires !(reply.Got? && reply.body.status == Text("success"))
    ensures Crud.ApplyFetch(Config, s, reply).list == s.list
  {
  }
}
