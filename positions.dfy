/**
 * The positions screen (src/Positions.jsx): success is a truthy `status`,
 * every save or delete awaits a refetch, an `isLoading` flag brackets each
 * request, and the table shows a separately maintained filtered copy.
 */
module Positions {
  import opened Js
  import opened Http
  import opened Records
  import Crud

  /** A position as the API returns it; the optional fields may be null. */
  datatype Position = Position(
    positionId: int,
    name: string,
    riskLevel: Option<string>,
    minSalary: Option<Number>,
    maxSalary: Option<Number>,
    status: Option<string>)

  /** The modal's five text fields. */
  datatype Draft = Draft(name: string, riskLevel: string, minSalary: string, maxSalary: string, status: string)

  /** The body of a create or update; an empty salary field is sent as null. */
  datatype Payload = Payload(
    name: string,
    risk_level: string,
    min_salary: Option<Number>,
    max_salary: Option<Number>,
    status: string)

  /** A salary cell of the modal: its text when present, '' otherwise. */
  function SalaryText(n: Option<Number>): (t: string)
    ensures n.None? ==> t == ""
    ensures n.Some? ==> t == ToText(n.value)
  {
    match n
    case None => ""
    case Some(v) => ToText(v)
  }

  /** Opening for edit: a missing risk level becomes '', a missing status 'active'. */
  function EditDraft(r: Position): (d: Draft)
    ensures d.name == r.name
    ensures d.riskLevel == (if r.riskLevel.Some? then r.riskLevel.value else "")
    ensures Truthy(r.status) ==> d.status == r.status.value
    ensures !Truthy(r.status) ==> d.status == "active"
    ensures d.minSalary == SalaryText(r.minSalary) && d.maxSalary == SalaryText(r.maxSalary)
  {
    Draft(r.name, OrElse(r.riskLevel, ""), SalaryText(r.minSalary), SalaryText(r.maxSalary), OrElse(r.status, "active"))
  }

  /** Create mode and closing: empty fields and status 'active'. */
  const CreateDraft := Draft("", "", "", "", "active")

  /** A salary field of the payload: null for '', otherwise `parseFloat` of the text. */
  function SalaryOf(field: string): (n: Option<Number>)
    ensures n.None? <==> field == ""
    ensures n.Some? ==> ToText(n.value) == field
  {
    if field == "" then None else Some(ParseFloat(field))
  }

  function PayloadOf(d: Draft): (p: Payload)
    ensures p.name == d.name && p.risk_level == d.riskLevel && p.status == d.status
    ensures p.min_salary.None? <==> d.minSalary == ""
    ensures p.max_salary.None? <==> d.maxSalary == ""
  {
    Payload(d.name, d.riskLevel, SalaryOf(d.minSalary), SalaryOf(d.maxSalary), d.status)
  }

  /** A salary survives an edit-and-save unchanged, and a missing one stays null. */
  lemma SalaryRoundTrip(n: Option<Number>)
    requires n.Some? ==> n.value.text != ""
    ensures SalaryOf(SalaryText(n)) == n
  {
  }

  /** `filterPositions`: the name, or a risk level or status that is present, contains the term. */
  function Matches(r: Position, term: string): (b: bool)
    ensures b <==> OccursIgnoringCase(r.name, term)
                   || (r.riskLevel.Some? && r.riskLevel.value != "" && OccursIgnoringCase(r.riskLevel.value, term))
                   || (r.status.Some? && r.status.value != "" && OccursIgnoringCase(r.status.value, term))
    ensures term == "" ==> b
  {
    ContainsIgnoringCase(r.name, term)
    || (Truthy(r.riskLevel) && ContainsIgnoringCase(r.riskLevel.value, term))
    || (Truthy(r.status) && ContainsIgnoringCase(r.status.value, term))
  }

  const Messages := Crud.Texts(
    Some("Posiciones recuperadas correctamente."),
    Some("Error al recuperar las posiciones."),
    "No se pudieron cargar los puestos. Por favor, intente nuevamente.",
    "No se pudo guardar el puesto. Por favor, intente nuevamente.",
    true,
    "No se pudo eliminar el puesto. Por favor, intente nuevamente.")

  const Config: Crud.Config<Position, Draft, Payload, string> := Crud.Config(
    (r: Position) => r.positionId, EditDraft, CreateDraft, true, false, Matches, "",
    Crud.Remote(PayloadOf, StatusIsTruthy, Crud.RefetchList, Crud.Awaited, true, Messages))

  type State = Crud.Snapshot<Position, Draft, string>

  /**
   * The effect on `[positions, searchTerm]`: with a non-empty term the
   * filtered copy is `filterPositions`, otherwise the whole list.
   */
  function FilteredPositions(positions: seq<Position>, term: string): (rows: seq<Position>)
    ensures term == "" ==> rows == positions
    ensures term != "" ==> rows == Filter(positions, (r: Position) => Matches(r, term))
  {
    if term != "" then Filter(positions, (r: Position) => Matches(r, term)) else positions
  }

  /** The copy the effect maintains is always the generic filtered view of the cache. */
  lemma FilteredIsVisible(s: State)
    ensures FilteredPositions(s.list, s.query) == Crud.Visible(Config, s)
  {
    if s.query == "" {
      Crud.NoQueryShowsAll(Config, s);
    } else {
      Crud.VisibleIsFilterBy(Config, s, (r: Position) => Matches(r, s.query));
    }
  }

  /** A record with no risk level and no status is found by its name alone. */
  lemma AbsentFieldsNeverMatch(r: Position, term: string)
    requires r.riskLevel.None? && r.status.None?
    ensures Matches(r, term) <==> ContainsIgnoringCase(r.name, term)
  {
  }

  /** What the table area shows. */
  datatype View = Loading | NoRows | Table(rows: seq<Position>)

  function ViewOf(s: State): (v: View)
    ensures s.loading <==> v.Loading?
    ensures v.NoRows? <==> !s.loading && FilteredPositions(s.list, s.query) == []
    ensures v.Table? ==> v.rows == FilteredPositions(s.list, s.query) && v.rows != []
  {
    var rows := FilteredPositions(s.list, s.query);
    if s.loading then Loading else if rows == [] then NoRows else Table(rows)
  }

  /** `isLoading` is set while a request is in flight and cleared after it, whatever the outcome. */
  lemma LoadingBrackets(s: State, ack: Crud.Ack, listing: Crud.Listing<Position>)
    ensures Crud.InFlight(Config, s).loading
    ensures ViewOf(Crud.InFlight(Config, s)) == Loading
    ensures !Crud.ApplyFetch(Config, Crud.InFlight(Config, s), listing).loading
    ensures !Crud.AfterSubmit(Config, Crud.InFlight(Config, s), ack, listing).loading
    ensures !Crud.ClickDelete(Config, Crud.InFlight(Config, s), ack, listing).loading
  {
    Crud.HandlersSettle(Config, s, ack, listing);
  }

  /** A fetch with a falsy status or an exception keeps `positions` and shows an error. */
  lemma FailedFetchKeepsList(s: State, reply: Crud.Listing<Position>)
    requires !(reply.Got? && IsTruthy(reply.body.status))
    ensures Crud.ApplyFetch(Config, s, reply).list == s.list
    ensures reply.Got? ==>
              Crud.ApplyFetch(Config, s, reply).alert
                == Shown(Some(OrElse(reply.body.message, "Error al recuperar las posiciones.")), Failure)
  {
  }

  /** An accepted save awaits the refetch, then closes with the create defaults and a success alert. */
  lemma SaveOutcome(s: State, reply: Crud.Ack, refetch: Crud.Listing<Position>)
    requires reply.Got? && IsTruthy(reply.body.status)
    ensures var t := Crud.AfterSubmit(Config, s, reply, refetch);
            !t.modalOpen && t.editing.None? && t.draft == CreateDraft
            && t.alert == Shown(reply.body.message, Success) && !t.loading
            && t.list == (if refetch.Got? && IsTruthy(refetch.body.status) then refetch.body.data else s.list)
  {
  }

  /** A thrown save shows the server's message when it sent one, the generic text otherwise. */
  lemma ThrownSaveMessage(s: State, error: Option<ErrorBody>, refetch: Crud.Listing<Position>)
    ensures var t := Crud.AfterSubmit(Config, s, Threw(error), refetch);
            t.alert == Shown(Some(OrElse(ServerMessage(error), "No se pudo guardar el puesto. Por favor, intente nuevamente.")), Failure)
            && t.modalOpen == s.modalOpen && t.draft == s.draft
  {
  }

  /** Dismissing the dialog only clears the open flag; the draft and target stay. */
  lemma DismissKeepsDraft(s: State)
    ensures Crud.Dismiss(Config, s) == s.(modalOpen := false)
  {
  }
}
