# HR console: session gate, navigation, login form and CRUD screens

This project models the client-side logic of a React HR console. Recruiters
manage competencies, languages, training courses, positions, candidates,
employees and work experience. Candidates see their own entries.

The model covers four parts of the console:

- **The shell** (`src/App.jsx`). It holds the session: the user, the token, a `loading` flag and the token kept in session storage. `ProtectedRoute` decides what each route renders and where it redirects, from the session, the fixed role table and the requested location (module `Session`, class `Session.App`).
- **The dashboard's sidebar and the top bar** (`src/Dashboard.jsx`, `src/TopBar.jsx`). These are pure functions. One filters the seven navigation entries by role, one picks the default target, and others normalise the user payload and apply the display fallbacks (modules `Navigation`, `TopBar`, and `Identity` for the payload shape).
- **The login and registration form** (`src/Login.jsx`). Its state holds two modes, field errors, a general error and a success message. The request bodies and the outcome of each reply are pure functions, and the component is the class `Login.LoginForm`.
- **The seven management screens.** They follow one pattern, modelled once in module `Crud`:
  - state: a cached list, a search query, a draft, an editing target, the modal and delete-dialog flags, an id pending deletion, a single-slot alert and a loading flag;
  - operations: filter, open, close, submit, confirm-gated delete and fetch.

  Each screen module instantiates the pattern with its own record type, draft, payload, filter, messages and backend behaviour (`Competencies`, `Languages`, `Training`, `Positions`, `Candidates`, `Employees`, `WorkExperience`). The differences the code has are kept:
  - the success test is `status === 'success'` or plain truthiness;
  - a delete either refetches or filters locally;
  - a refetch is awaited before closing, or started after closing;
  - Positions keeps an `isLoading` flag around every request;
  - Employees and WorkExperience keep page-local lists with no API.

Every network request is an input to the model. A request either returns a body (`Got`) or throws, carrying the server's error body or nothing (`Threw`). A refetch triggered by a handler is a second input. Each handler is one atomic step.

Each stateful component is a class whose methods ensure that the new state equals a pure step function of the old state (`State() == Close(config, old(State()))`, and so on). The properties are proved about those step functions:

- round trips;
- what is kept and what changes;
- preserved order;
- the exact set of records a filter or a delete keeps;
- each error path.

JavaScript semantics are written out in module `Js`:
- `null`/`undefined` is `Option`;
- truthiness of strings;
- `||` against `??`;
- ASCII case mapping;
- `includes` as substring occurrence;
- string `<=` as code-point order on Dafny characters, which agrees with JavaScript's UTF-16 code-unit order on the ASCII date strings the screens compare;
- `toString` of integers, with its inverse.

Modules `Http` (reply, status, alert) and `Records` (filter, replace by id, update by id, remove by id) hold what the screens share.

Some of the code's behaviour is easy to misread; the model keeps it as written:

- Cancelling a delete only closes the dialog. The pending id stays until the next confirmation (`Crud.AskThenCancel`).
- The Eliminar and Confirmar buttons are the dialogs' Action buttons, which close their dialog right after running the handler. A refused delete therefore leaves the dialog closed with the id still pending (`Crud.ClickDelete`, `Candidates.ClickConfirm`).
- `ProtectedRoute` renders its children while its effect redirects a rejected role to `/`. Rendering depends only on `loading` and the token (`Session.Gate`).
- After an accepted save or delete, an awaited refetch's error alert is replaced at once by the success alert (`Crud.Saved`).
- The identity fetch stores any body it receives as the user and never checks for a role (`Session.FetchUser`).
- Employees and WorkExperience never call the API. Their lists are page-local (`Crud.SubmitLocal`, `Crud.RemoveLocal`).

## Model

| member | source | states |
|---|---|---|
| Session.Gate | src/App.jsx:71-89 | loading renders the placeholder; no token after loading renders nothing; children render exactly when loading is over and a token exists; the login redirect happens exactly when loading is over without a token and carries the location; the home redirect happens exactly when a token or loading holds and `user.data.user` has a role outside a given list; no list means no home redirect |
| Session.AllowedRolesFor | src/App.jsx:99-110 | the root route has no role list, every nested screen has one |
| Session.RouteTable | src/App.jsx:104-110 | candidates and work-experience admit recruiter or candidate; the other five admit recruiter only |
| Session.EveryScreenRouted | src/App.jsx:104-110 | every screen has exactly the rule at its position in the table |
| Session.FindRule | src/App.jsx:104-110 | the rule found belongs to the screen, and none is found only when no rule names it |
| Session.RootNeverRoleRedirects | src/App.jsx:78-82 | the root route never redirects home, whatever the user |
| Session.CandidateOnRecruiterScreen | src/App.jsx:78-82 | a candidate on a recruiter-only screen is redirected home while the children still render |
| Session.StorageText | src/App.jsx:51 | a present token is stored as itself; an undefined one as the text 'undefined' |
| Session.Login | src/App.jsx:47-52 | user, token and stored token become the arguments; loading is untouched |
| Session.Logout | src/App.jsx:54-69 | user, token and stored token are all cleared whatever the request's outcome |
| Session.LogoutIdempotent | src/App.jsx:54-69 | logging out twice equals logging out once |
| Session.LogoutRevokesAccess | src/App.jsx:54-69 | after a logout every protected route renders nothing and redirects to login |
| Session.FetchUser | src/App.jsx:30-45 | loading ends; any body becomes the user; a thrown request clears the session |
| Session.Startup | src/App.jsx:20-28 | with a stored token, the token is set and the identity fetch decides the user; without one, nothing but loading changes; loading always ends |
| Session.FailedResumeEndsAtLogin | src/App.jsx:20-44 | a failed identity fetch at startup ends on the login redirect |
| Session.LoginGrantsRoot | src/App.jsx:47-52 | after a login with a non-empty token the root route renders its children |
| Session.App.constructor | src/App.jsx:16-18 | no user, no token, loading, and the storage as the tab kept it |
| Session.App.HandleLogin | src/App.jsx:47-52 | the state becomes `Login` of the old state |
| Session.App.HandleLogout | src/App.jsx:54-69 | the state becomes `Logout` of the old state |
| Session.App.FetchUserData | src/App.jsx:30-45 | the state becomes `FetchUser` of the old state and the reply |
| Session.App.Start | src/App.jsx:20-28 | the state becomes `Startup` of the old state and the reply |
| Session.App.Decide | src/App.jsx:75-88 | the gate on the current state: the placeholder while loading; children exactly when loading is over and a token exists; the login redirect, carrying the location, exactly when loading is over without a token; the home redirect exactly when a token or loading holds and the role is rejected; nothing rendered once loading is over without a token |
| Identity.NestedUser | src/Dashboard.jsx:22 | `user.data.user` is present exactly when both levels are, and is then that profile |
| Navigation.UserData | src/Dashboard.jsx:22 | the nested profile when present, else the payload's own fields; nothing without a user |
| Navigation.EveryScreenListedOnce | src/Dashboard.jsx:11-19 | the sidebar lists each of the seven screens, none twice |
| Navigation.RoleOf | src/Dashboard.jsx:22-24 | the role of the normalised user, none without a user |
| Navigation.VisibleTo | src/Dashboard.jsx:24 | an 'all' entry is visible to anyone, a role entry to that role, and without a role only 'all' entries are |
| Navigation.VisibleNavItems | src/Dashboard.jsx:24 | at most the seven entries, each one from the table and visible to the role |
| Navigation.VisibleExactly | src/Dashboard.jsx:11-24 | an entry is visible exactly when it is for 'all' or the role, and the visible entries keep declaration order |
| Navigation.RecruiterSeesEverything | src/Dashboard.jsx:11-24 | a recruiter sees all seven entries |
| Navigation.EveryEntryIsSharedOrRecruiter | src/Dashboard.jsx:11-19 | every entry is for 'all' or for recruiters |
| Navigation.SharedEntries | src/Dashboard.jsx:16-18 | the 'all' entries are Candidatos and Experiencia Laboral, in that order |
| Navigation.OthersSeeSharedOnly | src/Dashboard.jsx:12-24 | any role but recruiter, including none, sees exactly those two entries |
| Navigation.FirstVisiblePath | src/Dashboard.jsx:25 | '' exactly when nothing is visible, otherwise the first item's path |
| Navigation.DefaultTargets | src/Dashboard.jsx:24-25 | the default is 'competencies' for a recruiter and 'candidates' for anyone else |
| Navigation.AutoNavigate | src/Dashboard.jsx:27-31 | a navigation happens exactly from `/` with a non-empty path, and goes to that path |
| Navigation.Dashboard | src/Dashboard.jsx:22-35 | renders exactly when the normalised user exists; its items are the role's visible entries; it navigates exactly from `/`, to the non-empty first path of those items |
| Navigation.UnknownRoleBounces | src/Dashboard.jsx:16-25 | a user with any role but recruiter or candidate is sent from `/` to 'candidates', whose gate sends them home |
| Navigation.GrantedNavItems | src/Dashboard.jsx:24 | corrected sidebar: exactly the visible entries whose route admits the user, in declaration order |
| Navigation.GrantedDefaultIsAdmitted | src/Dashboard.jsx:25-31 | with the corrected sidebar the default target never redirects home |
| Navigation.GrantedMatchesForIssuedRoles | src/Dashboard.jsx:24 | for recruiter and candidate the corrected sidebar equals the one as written |
| TopBar.DisplayName | src/TopBar.jsx:33 | name unless missing, then username unless missing, then 'Usuario'; an empty name is kept |
| Js.Initial | src/TopBar.jsx:34 | '' exactly for '', otherwise the first character upper-cased |
| Js.ContainsIgnoringCase | src/Competencies.jsx:58-59 | the left-to-right `includes` scan succeeds exactly when the lowered term occurs somewhere in the lowered text; an empty term always does |
| TopBar.BarFor | src/TopBar.jsx:33-63 | the display name as above; the initial is empty exactly when the name is, otherwise the first character upper-cased; a falsy role shows '-' and a falsy email 'Correo no disponible' |
| TopBar.View | src/TopBar.jsx:16-31 | the placeholder shows exactly when the user or its `data` is missing; the render throws exactly when `data` has no `user` |
| TopBar.TokenOnlyReplyCrashes | src/TopBar.jsx:16-33 | a stored reply with a token and no nested user makes the bar throw |
| TopBar.GuardedView | src/TopBar.jsx:16-31 | corrected guard: never throws; placeholder exactly when `user.data.user` is missing |
| TopBar.GuardAgreesWhenNoCrash | src/TopBar.jsx:16-31 | wherever the code as written does not throw, the corrected guard renders the same |
| Login.RegistrationOf | src/Login.jsx:89-97 | the fields as typed, `auth_type` 'local', `status` 'active', and `verificationToken` exactly for recruiters |
| Login.SubmitRequest | src/Login.jsx:60-100 | sign-in mode posts the credentials, registration mode the registration body |
| Login.GoogleRequestOf | src/Login.jsx:31-38 | role 'candidate', `auth_type` 'google', the other fields from the claims |
| Login.ClearMessages | src/Login.jsx:56-58 | errors, general error and success message are cleared and nothing else changes |
| Login.SignInOutcome | src/Login.jsx:73-85 | signs in exactly on `status === 'success'` with data, passing the body and its token; otherwise the server message or a fallback, with the thrown path preferring the error body's message |
| Login.RegisterOutcome | src/Login.jsx:106-120 | success switches to sign-in with cleared fields and the success text; a thrown error shows the field errors, else the server message, else the generic text |
| Login.Submit | src/Login.jsx:54-123 | messages are cleared first, then the outcome of the mode that posted is applied |
| Login.OneKindOfFeedback | src/Login.jsx:54-123 | after a submission at most one of field errors, general error and success message is shown |
| Login.EverySubmissionAnswers | src/Login.jsx:54-211 | a submission signs in, or shows a general error, the success notice or an alert under a rendered input; the one exception is a registration that throws an `errors` object with no rendered key, an empty one included (src/Login.jsx:114-115) |
| Login.UnrenderedErrorsAreSilent | src/Login.jsx:113-115 | that exception indeed leaves the form with no sign-in, no message and no alert |
| Login.TruthyStatusDoesNotSignIn | src/Login.jsx:73-77 | a truthy status other than 'success' does not sign in and shows the server's message |
| Login.RegistrationThenSignIn | src/Login.jsx:106-112 | a successful registration leaves sign-in mode with every field empty |
| Login.SignInOpensRoot | src/Login.jsx:73-75 | a sign-in with a non-empty token, passed to the shell's login, opens the root route |
| Login.Toggle | src/Login.jsx:240-245 | the mode flips and the messages clear; the typed fields stay |
| Login.ToggleTwice | src/Login.jsx:240-245 | two switches equal clearing the messages |
| Login.GoogleOutcome | src/Login.jsx:27-47 | signs in exactly when the reply has data, whatever its status; otherwise the Google failure text |
| Login.GoogleIgnoresStatus | src/Login.jsx:41 | a reply the sign-in form refuses still signs in through Google |
| Login.FieldError | src/Login.jsx:162-211 | a field's alert shows exactly when the field has an entry, even an empty one; it holds the first message, or no text for an empty list |
| Login.Edit | src/Login.jsx:155-210 | an input changes its own cell and nothing else |
| Login.LoginForm.constructor | src/Login.jsx:15-23 | the initial form |
| Login.LoginForm.Change | src/Login.jsx:155-210 | the state becomes `Edit` of the old state |
| Login.LoginForm.HandleSubmit | src/Login.jsx:54-123 | returns the request posted and the sign-in effect; the state becomes `Submit` of the old state and the reply |
| Login.LoginForm.HandleToggle | src/Login.jsx:240-245 | the state becomes `Toggle` of the old state |
| Login.LoginForm.HandleGoogleSuccess | src/Login.jsx:27-47 | returns the Google body posted; the state becomes `GoogleOutcome` of the old state |
| Login.LoginForm.HandleGoogleError | src/Login.jsx:49-52 | only the general error changes, to the Google failure text |
| Crud.Mount | src/Competencies.jsx:16-34 | an empty list, the empty query, the create draft, everything closed, no alert |
| Crud.Visible | src/Competencies.jsx:56-62 | no longer than the list; every row shown is cached and matches |
| Crud.VisibleExactly | src/Competencies.jsx:56-62 | a record is shown exactly when it is cached and matches, in list order |
| Crud.NoQueryShowsAll | src/Competencies.jsx:56-62 | where the matcher accepts every record under the empty query, that query shows the whole list |
| Crud.AllMatchShowsAll | src/Competencies.jsx:56-62 | a query every record matches shows the whole list |
| Crud.VisibleIsFilterBy | src/Positions.jsx:74-82 | any test agreeing with the matcher on the list gives the same view |
| Crud.OpenForEdit | src/Competencies.jsx:69-79 | the modal opens on the record's draft with the record as target; nothing else changes |
| Crud.OpenForCreate | src/Competencies.jsx:69-79 | the modal opens on the create draft with no target; nothing else changes |
| Crud.Close | src/Competencies.jsx:82-87 | the modal closes and the target clears; the draft resets exactly in screens whose close resets it |
| Crud.Dismiss | src/Positions.jsx:275 | dismissing closes the modal; in screens wired to the close handler it is the close handler |
| Crud.CloseIdempotent | src/Competencies.jsx:82-87 | closing twice equals closing once |
| Crud.OpenThenCloseForgets | src/Competencies.jsx:69-87 | where close resets, opening then closing leaves no trace of the opened record |
| Crud.CreateAfterEditIsFresh | src/Competencies.jsx:69-79 | opening for create after an edit equals opening for create directly |
| Crud.SetQuery | src/Competencies.jsx:177 | only the query changes |
| Crud.SetDraft | src/Competencies.jsx:246 | only the draft changes |
| Crud.AskDelete | src/Competencies.jsx:125-128 | only the pending id and the dialog flag change |
| Crud.CancelDelete | src/Competencies.jsx:257 | only the dialog flag changes |
| Crud.AskThenCancel | src/Competencies.jsx:125-128 | asking then cancelling keeps every record and leaves the id pending |
| Crud.InFlight | src/Positions.jsx:49 | loading is set where the screen tracks it and nothing else changes |
| Crud.Settled | src/Positions.jsx:69-71 | loading is cleared where the screen tracks it and nothing else changes |
| Crud.RefusedText | src/Positions.jsx:64 | a refused fetch shows the server message, or the screen's fallback where it has one |
| Crud.ApplyFetch | src/Competencies.jsx:36-54 | an accepted reply replaces the list and shows the screen's success text if it has one; a refused or thrown one keeps the list with an error alert carrying the right message; nothing else but loading changes |
| Crud.RefusedFetchKeepsCache | src/Competencies.jsx:45-53 | a refused fetch keeps the list and the records shown |
| Crud.SubmitRequest | src/Competencies.jsx:92-111 | a PUT by the target's id when editing, a POST otherwise, with the screen's payload |
| Crud.SaveThrownText | src/Positions.jsx:157 | the generic text, or the server's message first in screens that read it |
| Crud.FailureAlert | src/Competencies.jsx:117-121 | an error alert with the server message, or the thrown text |
| Crud.Saved | src/Competencies.jsx:112-116 | the modal closes with the reset draft and the refetch's list when accepted; an awaited refetch ends on the success alert, an un-awaited one on the alert that refetch leaves |
| Crud.AfterSubmit | src/Competencies.jsx:89-123 | an accepted save is `Saved` then settled; any other outcome changes only the alert, to the failure alert, and loading |
| Crud.Removed | src/Languages.jsx:137-143 | the dialog closes and the id clears; the list is filtered locally or refetched, with the alert as for a save |
| Crud.AfterRemove | src/Competencies.jsx:130-151 | `handleDelete` alone: an accepted delete is `Removed` then settled; any other outcome changes only the alert and loading |
| Crud.ClickDelete | src/Competencies.jsx:257-269 | the Eliminar button: the dialog always ends closed; an accepted delete is `AfterRemove`; otherwise only the flag, the alert (the failure alert) and loading change, so the id stays pending |
| Crud.AcceptedMeans | src/Competencies.jsx:45 | a thrown request is never accepted; a strict screen accepts exactly `status: 'success'`, a truthy screen exactly a truthy status |
| Crud.HandlersSettle | src/Positions.jsx:69-71 | where loading is tracked, every handler started in flight ends with loading cleared |
| Crud.SubmitLocal | src/Employees.jsx:92-111 | an edit replaces the target's id by the rebuilt record, a create appends one with the fresh id; then the close handler applies |
| Crud.RemoveLocal | src/Employees.jsx:118-122 | the list is filtered by the pending id, the dialog closes, the id clears; nothing else changes |
| Crud.LocalEditReplacesTarget | src/Employees.jsx:104 | same length; the target's id gets the rebuilt record; every other record and every id stays |
| Crud.LocalCreateAppends | src/Employees.jsx:108 | the old records form the prefix and the new one, with the fresh id, is last; no other record has the fresh id |
| Crud.LocalRemoveExactly | src/Employees.jsx:119 | exactly the records with another id are kept, in order; no pending id keeps all |
| Crud.Screen.constructor | src/Competencies.jsx:16-34 | the state is `Mount` of the screen's configuration |
| Crud.Screen.Rows | src/Competencies.jsx:56-62 | rows are cached records that match, every matching record is a row, and the rows keep list order |
| Crud.Screen.OpenModalFor | src/Competencies.jsx:69-79 | the state becomes `OpenForEdit` |
| Crud.Screen.OpenModal | src/Competencies.jsx:69-79 | the state becomes `OpenForCreate` |
| Crud.Screen.CloseModal | src/Competencies.jsx:82-87 | the state becomes `Close` |
| Crud.Screen.DismissModal | src/Positions.jsx:275 | the state becomes `Dismiss` |
| Crud.Screen.Search | src/Competencies.jsx:177 | the state becomes `SetQuery` |
| Crud.Screen.EditDraft | src/Competencies.jsx:246 | the state becomes `SetDraft` |
| Crud.Screen.ConfirmDelete | src/Competencies.jsx:125-128 | the state becomes `AskDelete` |
| Crud.Screen.CancelDeleteDialog | src/Competencies.jsx:257 | the state becomes `CancelDelete` |
| Crud.Screen.Begin | src/Positions.jsx:49 | the state becomes `InFlight` |
| Crud.Screen.Settle | src/Positions.jsx:69-71 | the state becomes `Settled` |
| Crud.Screen.Fetch | src/Competencies.jsx:36-54 | the state becomes `ApplyFetch` of the reply |
| Crud.Screen.Submit | src/Competencies.jsx:89-123 | returns `SubmitRequest`; the state becomes `AfterSubmit` of the reply and the refetch |
| Crud.Screen.Delete | src/Competencies.jsx:130-151 | returns the delete request for the pending id; the state becomes `ClickDelete` of the replies |
| Crud.Screen.SaveLocal | src/Employees.jsx:92-111 | the state becomes `SubmitLocal` with the fresh id |
| Crud.Screen.DeleteLocal | src/Employees.jsx:118-122 | the state becomes `RemoveLocal` |
| Records.Filter | src/Competencies.jsx:57-61 | no longer than the input; keeps a record exactly when it passes |
| Records.FilterIsSubsequence | src/Competencies.jsx:57-61 | filtering keeps the relative order |
| Records.FilterIdempotent | src/Competencies.jsx:57-61 | filtering twice equals filtering once |
| Records.UpdateById | src/Candidates.jsx:218-220 | same length; records with the id are updated and the others kept |
| Records.ReplaceById | src/Employees.jsx:104 | same length; records with the id are replaced and the others kept |
| Records.RemoveById | src/Languages.jsx:139 | keeps exactly the records whose id is not the pending one |
| Records.RemoveNothing | src/Languages.jsx:139 | a null pending id removes nothing |
| Records.RemoveAbsentId | src/Languages.jsx:139 | an id no record has removes nothing |
| Http.StrictTestIsStronger | src/Candidates.jsx:60 | a status passing `=== 'success'` is truthy, and `true` or 'error' separate the two tests |
| Http.ServerMessage | src/Positions.jsx:157 | no error body means no server message; a present one yields its own `message` |
| Http.IsTruthy | src/Positions.jsx:59 | a status is falsy exactly when it is absent, `false` or '' |
| Http.IsSuccess | src/Competencies.jsx:45 | passes exactly the text 'success', and whatever passes is also truthy |
| Competencies.EditDraft | src/Competencies.jsx:69-74 | edit copies `type` and `description` |
| Competencies.PayloadOf | src/Competencies.jsx:92 | the two fields, with `status` 'active' |
| Competencies.Matches | src/Competencies.jsx:56-62 | a record matches exactly when the term, ignoring case, occurs in its type or description; an empty term matches every record |
| Competencies.MatchesMeansOccurs | src/Competencies.jsx:56-62 | a record matches exactly when the lowered term occurs in the lowered type or description |
| Competencies.EmptyTermShowsAll | src/Competencies.jsx:56-62 | an empty term keeps every record |
| Competencies.SaveRequest | src/Competencies.jsx:92-111 | a PUT by `competence_id` when editing, a POST otherwise, always with status 'active' |
| Competencies.SaveOutcome | src/Competencies.jsx:112-122 | accepted: refetched list, closed modal, empty draft, success alert; otherwise modal, draft, target and list stay, with an error alert |
| Competencies.DeleteOutcome | src/Competencies.jsx:130-151 | the dialog closes on the click; accepted: refetched list, cleared id, success alert; otherwise list and pending id stay, with an error alert |
| Competencies.FailedFetchKeepsList | src/Competencies.jsx:45-53 | a refused or thrown fetch keeps the list and shows an error |
| Languages.EditDraft | src/Languages.jsx:68-71 | edit copies `name` and `status` |
| Languages.PayloadOf | src/Languages.jsx:90 | the body is the two fields |
| Languages.Matches | src/Languages.jsx:54-60 | a record matches exactly when the term, ignoring case, occurs in its name or status; an empty term matches every record |
| Languages.StatusLabel | src/Languages.jsx:153-159 | 'active' reads 'Activo', 'disabled' reads 'Deshabilitado', anything else unchanged |
| Languages.LabelsCollide | src/Languages.jsx:153-159 | the status 'active' and the status 'Activo' both show as 'Activo', and 'disabled' and 'Deshabilitado' both as 'Deshabilitado' |
| Languages.EmptyTermShowsAll | src/Languages.jsx:54-60 | an empty term keeps every record |
| Languages.DeleteIsLocal | src/Languages.jsx:137-143 | an accepted delete keeps exactly the records with another `language_id`, in order, whatever any refetch returns; the dialog closes with the server's message |
| Languages.FailedDeleteKeepsAll | src/Languages.jsx:144-150 | a refused or thrown delete keeps list and id, with an error alert; the dialog still closes on the click |
| Languages.SaveOutcome | src/Languages.jsx:110-116 | accepted: refetched list, closed modal, create draft, success alert; otherwise the modal stays over the draft |
| Languages.FailedFetchKeepsList | src/Languages.jsx:43-51 | a refused or thrown fetch keeps the list |
| Training.EditDraft | src/Training.jsx:72-82 | edit copies the six fields |
| Training.PayloadOf | src/Training.jsx:107 | `dateFrom` goes to `date_from`, `dateTo` to `date_to`, the rest one to one |
| Training.EditedPayloadMirrorsRecord | src/Training.jsx:72-107 | saving an unedited draft sends the record's own fields |
| Training.Matches | src/Training.jsx:58-65 | a record matches exactly when the term, ignoring case, occurs in its description, level or institution; an empty term matches every record |
| Training.EmptyTermShowsAll | src/Training.jsx:58-65 | an empty term keeps every record |
| Training.CloseResets | src/Training.jsx:93-102 | closing after an edit leaves the create defaults with status 'active' and no target |
| Training.DeleteIsLocal | src/Training.jsx:154-160 | an accepted delete keeps exactly the records with another `training_id`, in order, whatever any refetch returns |
| Training.FailedFetchKeepsList | src/Training.jsx:47-55 | a refused or thrown fetch keeps the list |
| Positions.SalaryText | src/Positions.jsx:94-95 | a missing salary shows '', a present one its text (a zero salary is not singled out) |
| Positions.EditDraft | src/Positions.jsx:89-96 | the name copied; a missing risk level becomes ''; a falsy status becomes 'active'; salaries as text |
| Positions.SalaryOf | src/Positions.jsx:125-126 | null exactly for '', otherwise the parsed number of the text |
| Positions.PayloadOf | src/Positions.jsx:122-128 | the text fields one to one; each salary is null exactly when its field is empty |
| Positions.SalaryRoundTrip | src/Positions.jsx:94-126 | editing and saving keeps a salary with non-empty text, and a missing one stays null (a zero salary is not singled out) |
| Positions.FilteredPositions | src/Positions.jsx:40-46 | the whole list for an empty term, the filter otherwise |
| Positions.FilteredIsVisible | src/Positions.jsx:40-82 | the table's copy always equals the records matching the term |
| Positions.Matches | src/Positions.jsx:76-80 | a record matches exactly when the term, ignoring case, occurs in its name, or in a risk level or status that is present and non-empty; an empty term matches every record |
| Positions.AbsentFieldsNeverMatch | src/Positions.jsx:76-80 | missing risk level and status take no part in the match |
| Positions.ViewOf | src/Positions.jsx:224-232 | 'Cargando...' exactly while loading, the empty text exactly when no row is left, otherwise the rows |
| Positions.LoadingBrackets | src/Positions.jsx:49-191 | loading is set while a request is in flight and cleared after fetch, submit and delete whatever the outcome |
| Positions.FailedFetchKeepsList | src/Positions.jsx:59-68 | a falsy or thrown fetch keeps the list; a refused one shows the server's message or 'Error al recuperar las posiciones.' |
| Positions.SaveOutcome | src/Positions.jsx:148-151 | an accepted save awaits the refetch, closes on the create defaults, shows the server's message and ends loading |
| Positions.ThrownSaveMessage | src/Positions.jsx:155-157 | a thrown save shows the error body's message, else the generic text, and keeps the modal |
| Positions.DismissKeepsDraft | src/Positions.jsx:275 | dismissing only clears the open flag |
| Candidates.EditForm | src/Candidates.jsx:110-124 | edit copies the ten fields |
| Candidates.SaveRequest | src/Candidates.jsx:153-168 | a PUT of the ten form fields by `candidate_id` when editing, a POST of them otherwise; an opened record saved untouched sends its own fields; create mode posts the create defaults |
| Candidates.Matches | src/Candidates.jsx:227-230 | a record matches exactly when the term, ignoring case, occurs in its name or desired position; an empty term matches every record |
| Candidates.AcceptedIffTruthy | src/Candidates.jsx:60 | accepted exactly on a truthy status, so 'error' is accepted and `false` is not |
| Candidates.EmptyTermShowsAll | src/Candidates.jsx:227-230 | an empty term keeps every record |
| Candidates.CloseKeepsForm | src/Candidates.jsx:143-146 | closing clears the flag and target and keeps the form |
| Candidates.SaveOutcome | src/Candidates.jsx:170-180 | accepted: closed modal and the refetch lands after the success alert, which a failing refetch replaces; otherwise the modal stays with the server message or the generic text |
| Candidates.DeleteOutcome | src/Candidates.jsx:188-209 | the dialog closes on the click; accepted: cleared id, refetched list; otherwise list and pending id stay |
| Candidates.FailedFetchKeepsList | src/Candidates.jsx:60-68 | a falsy or thrown fetch keeps the list; a refused one shows the server's message or 'Error al recuperar los candidatos.' |
| Candidates.Hire | src/Candidates.jsx:219 | only `status` changes, to 'hired' |
| Candidates.Select | src/Candidates.jsx:211-214 | only the selection and the dialog flag change |
| Candidates.HireSelected | src/Candidates.jsx:218-220 | the hired list keeps its length; with no selection the map throws exactly when the list is not empty |
| Candidates.Confirm | src/Candidates.jsx:216-225 | a throwing map changes nothing; otherwise the hired list, the dialog closed, no selection, the success alert |
| Candidates.ClickConfirm | src/Candidates.jsx:451 | the Confirmar button: the dialog always ends closed; a throwing map changes nothing else; otherwise `Confirm` |
| Candidates.CancelSelect | src/Candidates.jsx:441 | only the dialog flag changes |
| Candidates.SelectThenConfirmHires | src/Candidates.jsx:211-225 | exactly the records with the selected `candidate_id` become 'hired', every other record and the length stay, the dialog closes and the selection clears |
| Candidates.ConfirmIdempotentOnList | src/Candidates.jsx:216-225 | hiring the same candidate twice equals hiring once |
| Candidates.CandidatesPage.constructor | src/Candidates.jsx:18-29 | the mounted screen with no selection and the dialog closed |
| Candidates.CandidatesPage.SelectAsEmployee | src/Candidates.jsx:211-214 | the state becomes `Select` |
| Candidates.CandidatesPage.ConfirmSelectAsEmployee | src/Candidates.jsx:216-225 | the state becomes `ClickConfirm` |
| Candidates.CandidatesPage.CancelSelectDialog | src/Candidates.jsx:441 | the state becomes `CancelSelect` |
| Employees.EditDraft | src/Employees.jsx:55-66 | edit copies the record, clears the candidate picker and shows the salary as text |
| Employees.Build | src/Employees.jsx:92-103 | the draft under the given id, the salary parsed |
| Employees.EditRoundTrip | src/Employees.jsx:55-103 | saving an unedited draft gives the record back |
| Employees.Matches | src/Employees.jsx:134-141 | a record matches exactly when the term, ignoring case, occurs in its name, position or department and its start date lies within the given bounds; the empty query matches every record |
| Employees.NoQueryShowsAll | src/Employees.jsx:134-141 | no term and no dates keep every record |
| Employees.InvertedRangeShowsNothing | src/Employees.jsx:137-138 | a from-date after the to-date shows nothing |
| Employees.ShownWithinRange | src/Employees.jsx:137-138 | every record shown starts between the given dates, compared as strings |
| Employees.EditReplacesTarget | src/Employees.jsx:94-106 | exactly the records with the editing id are replaced and keep it; the others and their positions stay; the form resets |
| Employees.CreateAppends | src/Employees.jsx:95-108 | one record with the fresh id is appended after the untouched existing ones, and it is the only record with that id |
| Employees.DeleteFilters | src/Employees.jsx:118-122 | exactly the records with another id are kept, in order; the dialog closes and the id clears |
| Employees.Find | src/Employees.jsx:125 | the first option whose id text is the key, or none when no option has it |
| Employees.ChangeCandidate | src/Employees.jsx:124-132 | a found candidate sets the picker and copies document number, type and name; otherwise nothing changes |
| Employees.PickCopiesOption | src/Employees.jsx:124-132 | picking an option by its own key copies that option and leaves the other cells |
| Employees.IntTextInjective | src/Employees.jsx:125 | distinct ids have distinct texts |
| Employees.EmployeesPage.constructor | src/Employees.jsx:36-53 | the mounted screen holding the given employee and candidate lists |
| Employees.EmployeesPage.HandleCandidateChange | src/Employees.jsx:124-132 | the draft becomes `ChangeCandidate` of the old draft |
| WorkExperience.EditDraft | src/WorkExperience.jsx:50-59 | edit copies the seven fields, the salary as text |
| WorkExperience.Build | src/WorkExperience.jsx:83-94 | the draft under the given id, the salary parsed |
| WorkExperience.EditRoundTrip | src/WorkExperience.jsx:50-94 | saving an unedited draft gives the record back |
| WorkExperience.ChangeUserType | src/WorkExperience.jsx:201-204 | the type is set and the name cleared; nothing else changes |
| WorkExperience.TypeChangeClearsName | src/WorkExperience.jsx:201-204 | whatever was chosen, the screen's draft ends with the new type and no name, other cells and the list kept |
| WorkExperience.Matches | src/WorkExperience.jsx:114-118 | a record matches exactly when the term, ignoring case, occurs in its institution, position or user name; an empty term matches every record |
| WorkExperience.EmptyTermShowsAll | src/WorkExperience.jsx:114-118 | an empty term keeps every record |
| WorkExperience.CloseAlwaysResets | src/WorkExperience.jsx:67-81 | closing, and dismissing, always end on the reset form with no target |
| WorkExperience.EditReplacesTarget | src/WorkExperience.jsx:95-97 | exactly the records with the editing id are replaced; the others stay |
| WorkExperience.CreateAppends | src/WorkExperience.jsx:98-99 | the new record with the fresh id is appended, and it is the only record with that id |
| WorkExperience.DeleteFilters | src/WorkExperience.jsx:108-112 | exactly the records with another id are kept, in order |

## Left out

- HTTP transport, endpoints, headers and the bearer token sent with each request: every reply is an input value.
- Session.StorageText: one absent value stands for both null and undefined; a JSON-null token would be stored as 'null', not 'undefined'. Both texts are truthy, so nothing downstream differs.
- The five-second alert expiry (`setTimeout`): only the single-slot replacement done by `showAlert` is modelled.
- React scheduling: effects, re-renders and interleaving of asynchronous handlers are not modelled. Each handler is one atomic step, and an un-awaited refetch (src/Candidates.jsx:171, 198) lands right after its handler.
- The stale `useState(initialUser)` copy in the dashboard (src/Dashboard.jsx:7): the model reads the current user prop.
- JSX rendering, styling, icons and UI primitives: the only parts of a view modelled are what the placeholder, bar, gate and Positions table choose to show.
- PDF export in Employees (src/Employees.jsx:143-158): it goes through a foreign library.
- Google OAuth and `jwtDecode`: the decoded claims are an input.
- `formatCurrency`, `toFixed`, `toLocaleString` and the numeric meaning of `parseFloat`: a salary is an opaque `Number` that carries its text.
- Positions.EditDraft: does not model that a salary of 0 is falsy and shows as '', because salaries are opaque; only a missing salary shows ''.
- Positions.SalaryText: the same gap; a present salary of 0 shows its text in the model, while the code shows ''.
- Positions.SalaryRoundTrip: holds for a zero salary only because zero is not singled out; the code sends a zero salary back as null.
- Unicode case mapping in `toLowerCase`/`toUpperCase`: the model maps ASCII letters only.
- `console.log`/`console.error`.
- The hard-coded seed lists. The Employees page takes its mount-time lists as constructor arguments; WorkExperience mounts with an empty list, and its employee and candidate name lists are left out.
- Candidates' `fetchPositions` and `fetchCompetencies` (src/Candidates.jsx:71-103): they only fill select options.
- `Date.now()`: the fresh id is a parameter, required to be unused when creating.
- `getStatusLabel` lookups of inherited object keys such as 'constructor' (src/Languages.jsx:153-159): the map is taken as holding its two keys only.
- The alert-dialog UI component (`@/components/ui/alert-dialog`) is not part of this model. Its Action button is taken to close its dialog through `onOpenChange(false)` once its `onClick` has returned, as the underlying dialog primitive does (`Crud.ClickDelete`, `Candidates.ClickConfirm`).
- The Positions loading placeholder between `setIsLoading(true)` and the reply is a separate step (`Crud.InFlight`); intermediate renders are not modelled.

## Findings

| source | as written | input that shows it | evidently intended | confidence | as-written member | corrected member |
|---|---|---|---|---|---|---|
| src/Dashboard.jsx:16-25 | the sidebar shows 'candidates' to every role and makes it the default for any non-recruiter, while the route admits only recruiter and candidate (src/App.jsx:108) | a stored payload whose `data.user.role` is missing or e.g. 'admin', at `/` with a token | only entries whose route admits the user are shown and chosen as default | not executed; medium | Navigation.UnknownRoleBounces | Navigation.GrantedNavItems |
| src/TopBar.jsx:16-33 | the guard tests `user.data` only, then reads fields of `user.data.user` | a stored login reply `{ status: 'success', data: { token } }` with no nested user | the placeholder shows until `user.data.user` is present | not executed; medium | TopBar.TokenOnlyReplyCrashes | TopBar.GuardedView |
