/**
 * The employees screen (src/Employees.jsx): a page-local list with no API,
 * an id from the clock for new records, a candidate picker that fills the
 * document fields, and a search combined with a start-date range.
 */
module Employees {
  import opened Js
  import opened Http
  import opened Records
  import Crud

  datatype Employee = Employee(
    id: int,
    documentNumber: string,
    documentType: string,
    name: string,
    startDate: string,
    department: string,
    position: string,
    salary: Number,
    status: string)

  /** The nine form cells; the salary is kept as typed. */
  datatype Draft = Draft(
    selectedCandidate: string,
    documentNumber: string,
    documentType: string,
    name: string,
    startDateEmployee: string,
    department: string,
    position: string,
    salary: string,
    status: string)

  /** Opening for edit copies the record and clears the candidate picker. */
  function EditDraft(e: Employee): (d: Draft)
    ensures d.selectedCandidate == ""
    ensures d.documentNumber == e.documentNumber && d.documentType == e.documentType && d.name == e.name
    ensures d.startDateEmployee == e.startDate && d.department == e.department && d.position == e.position
    ensures d.salary == ToText(e.salary) && d.status == e.status
  {
    Draft("", e.documentNumber, e.documentType, e.name, e.startDate, e.department, e.position, ToText(e.salary), e.status)
  }

  /** `resetForm`: every cell '' and status 'Activo'. */
  const ResetForm := Draft("", "", "", "", "", "", "", "", "Activo")

  /** `newEmployee`: the draft under the given id, the salary through `parseFloat`. */
  function Build(id: int, d: Draft): (e: Employee)
    ensures e.id == id && e.startDate == d.startDateEmployee && e.salary == ParseFloat(d.salary)
    ensures e.documentNumber == d.documentNumber && e.documentType == d.documentType && e.name == d.name
    ensures e.department == d.department && e.position == d.position && e.status == d.status
  {
    Employee(id, d.documentNumber, d.documentType, d.name, d.startDateEmployee, d.department, d.position,
             ParseFloat(d.salary), d.status)
  }

  /** Editing a record and saving the draft untouched gives the record back. */
  lemma EditRoundTrip(e: Employee)
    ensures Build(e.id, EditDraft(e)) == e
  {
  }

  /** The search term and the from/to dates of the filter bar. */
  datatype Query = Query(term: string, from: string, to: string)

  /** Dates are compared as strings; an empty bound does not restrict. */
  predicate InRange(e: Employee, q: Query) {
    (q.from == "" || LexLessEq(q.from, e.startDate)) && (q.to == "" || LexLessEq(e.startDate, q.to))
  }

  /** `filteredEmployees`: the term in the name, position or department, and the start date in range. */
  function Matches(e: Employee, q: Query): (b: bool)
    ensures b <==> (OccursIgnoringCase(e.name, q.term) || OccursIgnoringCase(e.position, q.term)
                    || OccursIgnoringCase(e.department, q.term)) && InRange(e, q)
    ensures q == Query("", "", "") ==> b
  {
    (ContainsIgnoringCase(e.name, q.term) || ContainsIgnoringCase(e.position, q.term)
     || ContainsIgnoringCase(e.department, q.term))
    && InRange(e, q)
  }

  function EmployeeId(e: Employee): int {
    e.id
  }

  const Config: Crud.Config<Employee, Draft, (), Query> := Crud.Config(
    EmployeeId, EditDraft, ResetForm, true, true, Matches, Query("", "", ""), Crud.LocalOnly(Build))

  type State = Crud.Snapshot<Employee, Draft, Query>

  /** With no search term and no dates the whole list shows. */
  lemma NoQueryShowsAll(s: State)
    requires s.query == Query("", "", "")
    ensures Crud.Visible(Config, s) == s.list
  {
    Crud.NoQueryShowsAll(Config, s);
  }

  /** A from-date later than the to-date shows no record at all. */
  lemma InvertedRangeShowsNothing(s: State)
    requires s.query.from != "" && s.query.to != "" && !LexLessEq(s.query.from, s.query.to)
    ensures Crud.Visible(Config, s) == []
  {
    var ys := Crud.Visible(Config, s);
    if ys != [] {
      assert Matches(ys[0], s.query);
      LexTransitive(s.query.from, ys[0].startDate, s.query.to);
      assert false;
    }
  }

  /** Every record shown starts between the given dates. */
  lemma ShownWithinRange(s: State)
    ensures forall i :: 0 <= i < |Crud.Visible(Config, s)| ==>
              var e := Crud.Visible(Config, s)[i];
              (s.query.from != "" ==> LexLessEq(s.query.from, e.startDate))
              && (s.query.to != "" ==> LexLessEq(e.startDate, s.query.to))
  {
    var ys := Crud.Visible(Config, s);
    forall i | 0 <= i < |ys|
      ensures InRange(ys[i], s.query)
    {
      assert Config.matches(ys[i], s.query);
    }
  }

  /** Submit in edit mode replaces exactly the record with the editing id, which keeps its id. */
  lemma EditReplacesTarget(s: State)
    requires s.editing.Some?
    ensures var t := Crud.SubmitLocal(Config, s, 0);
            var id := s.editing.value.id;
            |t.list| == |s.list|
            && (forall i :: 0 <= i < |s.list| && s.list[i].id == id ==> t.list[i] == Build(id, s.draft))
            && (forall i :: 0 <= i < |s.list| && s.list[i].id != id ==> t.list[i] == s.list[i])
            && (forall i :: 0 <= i < |s.list| ==> t.list[i].id == s.list[i].id)
            && !t.modalOpen && t.editing.None? && t.draft == ResetForm
  {
    Crud.LocalEditReplacesTarget(Config, s);
  }

  /** Submit in create mode appends one record under the fresh id and keeps the others. */
  lemma CreateAppends(s: State, freshId: int)
    requires s.editing.None? && Crud.Unused(Config.idOf, s.list, freshId)
    ensures var t := Crud.SubmitLocal(Config, s, freshId);
            |t.list| == |s.list| + 1 && t.list[..|s.list|] == s.list
            && t.list[|s.list|] == Build(freshId, s.draft)
            && !t.modalOpen && t.draft == ResetForm
    ensures var t := Crud.SubmitLocal(Config, s, freshId);
            forall i :: 0 <= i < |t.list| && t.list[i].id == freshId ==> i == |s.list|
  {
    Crud.LocalCreateAppends(Config, s, freshId);
  }

  /** Delete drops every record with the pending id, in order, and closes the dialog. */
  lemma DeleteFilters(s: State)
    ensures var t := Crud.RemoveLocal(Config, s);
            (forall x :: x in t.list <==> x in s.list && !(s.pending.Some? && x.id == s.pending.value))
            && Subsequence(t.list, s.list) && !t.deleteOpen && t.pending.None?
  {
    Crud.LocalRemoveExactly(Config, s);
  }

  // ------------------------------------------------------- the candidate picker

  /** An entry of the picker. */
  datatype CandidateOption = CandidateOption(id: int, documentNumber: string, documentType: string, name: string)

  /** `candidates.find(c => c.id.toString() === key)` */
  function Find(options: seq<CandidateOption>, key: string): (r: Option<CandidateOption>)
    ensures r.Some? ==> r.value in options && IntText(r.value.id) == key
    ensures r.None? ==> forall i :: 0 <= i < |options| ==> IntText(options[i].id) != key
    ensures r.Some? ==> exists i :: 0 <= i < |options| && options[i] == r.value
                                   && forall j :: 0 <= j < i ==> IntText(options[j].id) != key
  {
    if options == [] then None
    else if IntText(options[0].id) == key then Some(options[0])
    else
      var r := Find(options[1..], key);
      if r.Some? then
        var i :| 0 <= i < |options[1..]| && options[1..][i] == r.value
                 && forall j :: 0 <= j < i ==> IntText(options[1..][j].id) != key;
        assert options[i + 1] == r.value;
        r
      else r
  }

  /** `handleCandidateChange`: a found candidate fills the three identity cells and the picker. */
  function ChangeCandidate(d: Draft, options: seq<CandidateOption>, key: string): (e: Draft)
    ensures Find(options, key).None? ==> e == d
    ensures Find(options, key).Some? ==>
              var c := Find(options, key).value;
              e == d.(selectedCandidate := key, documentNumber := c.documentNumber,
                      documentType := c.documentType, name := c.name)
  {
    match Find(options, key)
    case None => d
    case Some(c) =>
      d.(selectedCandidate := key, documentNumber := c.documentNumber, documentType := c.documentType, name := c.name)
  }

  /** Picking an option by its own key copies that option, the first with its id. */
  lemma PickCopiesOption(d: Draft, options: seq<CandidateOption>, i: nat)
    requires i < |options|
    requires forall j :: 0 <= j < |options| && j != i ==> options[j].id != options[i].id
    ensures var e := ChangeCandidate(d, options, IntText(options[i].id));
            e.documentNumber == options[i].documentNumber && e.documentType == options[i].documentType
            && e.name == options[i].name && e.selectedCandidate == IntText(options[i].id)
            && e.startDateEmployee == d.startDateEmployee && e.salary == d.salary
  {
    var key := IntText(options[i].id);
    var r := Find(options, key);
    var k :| 0 <= k < |options| && options[k] == r.value && forall j :: 0 <= j < k ==> IntText(options[j].id) != key;
    IntTextInjective(options[k].id, options[i].id);
  }

  /** Distinct ids have distinct decimal texts. */
  lemma IntTextInjective(a: int, b: int)
    requires IntText(a) == IntText(b)
    ensures a == b
  {
    IntTextRoundTrip(a);
    IntTextRoundTrip(b);
  }

  /** The page as a mounted object: the generic screen plus the picker's option list. */
  class EmployeesPage {
    const screen: Crud.Screen<Employee, Draft, (), Query>
    var candidates: seq<CandidateOption>

    /** The mount effect loads the employee and candidate lists it is given. */
    constructor (seed: seq<Employee>, options: seq<CandidateOption>)
      ensures screen.config == Config && fresh(screen) && candidates == options
      ensures screen.State() == Crud.Mount(Config).(list := seed)
    {
      screen := new Crud.Screen(Config);
      new;
      screen.list := seed;
      candidates := options;
    }

    method HandleCandidateChange(key: string)
      modifies screen
      ensures screen.State() == Crud.SetDraft(old(screen.State()), ChangeCandidate(old(screen.draft), candidates, key))
    {
      var found := Find(candidates, key);
      if found.Some? {
        var c := found.value;
        screen.draft := screen.draft.(selectedCandidate := key, documentNumber := c.documentNumber,
                                      documentType := c.documentType, name := c.name);
      }
    }
  }
}
