/**
 * The work-experience screen (src/WorkExperience.jsx): a page-local list
 * with no API, seven draft fields reset on every close, and a user-type
 * picker that clears the chosen name.
 */
module WorkExperience {
  import opened Js
  import opened Http
  import opened Records
  import Crud

  datatype Experience = Experience(
    id: int,
    userType: string,
    userName: string,
    institution: string,
    position: string,
    startDate: string,
    endDate: string,
    salary: Number)

  /** The seven form cells; the salary is kept as typed. */
  datatype Draft = Draft(
    userType: string,
    userName: string,
    institution: string,
    position: string,
    startDate: string,
    endDate: string,
    salary: string)

  /** Opening for edit copies the seven fields. */
  function EditDraft(e: Experience): (d: Draft)
    ensures d.userType == e.userType && d.userName == e.userName && d.institution == e.institution
    ensures d.position == e.position && d.startDate == e.startDate && d.endDate == e.endDate
    ensures d.salary == ToText(e.salary)
  {
    Draft(e.userType, e.userName, e.institution, e.position, e.startDate, e.endDate, ToText(e.salary))
  }

  /** `resetForm`: all seven cells ''. */
  const ResetForm := Draft("", "", "", "", "", "", "")

  /** `newExperience`: the draft under the given id, the salary through `parseFloat`. */
  function Build(id: int, d: Draft): (e: Experience)
    ensures e.id == id && e.salary == ParseFloat(d.salary)
    ensures e.userType == d.userType && e.userName == d.userName && e.institution == d.institution
    ensures e.position == d.position && e.startDate == d.startDate && e.endDate == d.endDate
  {
    Experience(id, d.userType, d.userName, d.institution, d.position, d.startDate, d.endDate, ParseFloat(d.salary))
  }

  /** Editing a record and saving the draft untouched gives the record back. */
  lemma EditRoundTrip(e: Experience)
    ensures Build(e.id, EditDraft(e)) == e
  {
  }

  /** `filteredExperiences`: the term in the institution, position or user name, ignoring case. */
  function Matches(e: Experience, term: string): (b: bool)
    ensures b <==> OccursIgnoringCase(e.institution, term) || OccursIgnoringCase(e.position, term) || OccursIgnoringCase(e.userName, term)
    ensures term == "" ==> b
  {
    ContainsIgnoringCase(e.institution, term) || ContainsIgnoringCase(e.position, term)
    || ContainsIgnoringCase(e.userName, term)
  }

  function ExperienceId(e: Experience): int {
    e.id
  }

  const Config: Crud.Config<Experience, Draft, (), string> := Crud.Config(
    ExperienceId, EditDraft, ResetForm, true, true, Matches, "", Crud.LocalOnly(Build))

  type State = Crud.Snapshot<Experience, Draft, string>

  /** The user-type picker: set the type and clear the name chosen for the old type. */
  function ChangeUserType(d: Draft, userType: string): (e: Draft)
    ensures e.userType == userType && e.userName == ""
    ensures e.(userType := d.userType, userName := d.userName) == d
  {
    d.(userType := userType, userName := "")
  }

  /** Whatever name was chosen and whatever type is picked, the screen's draft loses the name. */
  lemma TypeChangeClearsName(s: State, userType: string)
    ensures var t := Crud.SetDraft(s, ChangeUserType(s.draft, userType));
            t.draft.userName == "" && t.draft.userType == userType && t.list == s.list
            && t.draft.institution == s.draft.institution && t.draft.salary == s.draft.salary
  {
  }

  /** An empty search term shows every cached record. */
  lemma EmptyTermShowsAll(s: State)
    requires s.query == ""
    ensures Crud.Visible(Config, s) == s.list
  {
    Crud.NoQueryShowsAll(Config, s);
  }

  /** Closing, and dismissing the dialog, always end on the reset form with no target. */
  lemma CloseAlwaysResets(s: State)
    ensures Crud.Close(Config, s).draft == ResetForm && Crud.Close(Config, s).editing.None?
    ensures Crud.Dismiss(Config, s) == Crud.Close(Config, s)
  {
  }

  /** Submit in edit mode replaces the record with the editing id and keeps every other one. */
  lemma EditReplacesTarget(s: State)
    requires s.editing.Some?
    ensures var t := Crud.SubmitLocal(Config, s, 0);
            var id := s.editing.value.id;
            |t.list| == |s.list|
            && (forall i :: 0 <= i < |s.list| && s.list[i].id == id ==> t.list[i] == Build(id, s.draft))
            && (forall i :: 0 <= i < |s.list| && s.list[i].id != id ==> t.list[i] == s.list[i])
            && t.draft == ResetForm
  {
    Crud.LocalEditReplacesTarget(Config, s);
  }

  /** Submit in create mode appends one record under the fresh id. */
  lemma CreateAppends(s: State, freshId: int)
    requires s.editing.None? && Crud.Unused(Config.idOf, s.list, freshId)
    ensures var t := Crud.SubmitLocal(Config, s, freshId);
            t.list == s.list + [Build(freshId, s.draft)] && t.draft == ResetForm
    ensures var t := Crud.SubmitLocal(Config, s, freshId);
            forall i :: 0 <= i < |t.list| && t.list[i].id == freshId ==> i == |s.list|
  {
  }

  /** Delete drops the records with the pending id and keeps the others in order. */
  lemma DeleteFilters(s: State)
    ensures var t := Crud.RemoveLocal(Config, s);
            (forall x :: x in t.list <==> x in s.list && !(s.pending.Some? && x.id == s.pending.value))
            && Subsequence(t.list, s.list)
  {
    Crud.LocalRemoveExactly(Config, s);
  }
}
