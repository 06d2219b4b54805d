/**
 * The application shell (src/App.jsx): the session held in `user`, `token`
 * and `loading` plus the tab's stored token, the transitions that change it,
 * the route table, and the decision each protected route makes.
 */
module Session {
  import opened Js
  import opened Http
  import opened Identity

  // ---------------------------------------------------------------- the gate

  /** What a `ProtectedRoute` renders. */
  datatype Render = LoadingPlaceholder | Nothing | Children

  /** Where its effect navigates: nowhere, to `/login` (remembering the requested location), or to `/`. */
  datatype Redirect = Stay | ToLogin(from: string) | ToHome

  datatype Decision = Decision(render: Render, redirect: Redirect)

  /** `allowedRoles.includes(userRole)`; an undefined role is in no list. */
  predicate RoleIn(allowed: seq<string>, role: Option<string>) {
    role.Some? && role.value in allowed
  }

  /** The effect's role test: it needs `user.data.user`, a role list, and a role outside it. */
  predicate RoleRejected(user: Option<UserRecord>, allowed: Option<seq<string>>) {
    && user.Some?
    && NestedUser(user.value).Some?
    && allowed.Some?
    && !RoleIn(allowed.value, NestedUser(user.value).value.role)
  }

  /**
   * The decision of a `ProtectedRoute`: the effect's redirect and the
   * rendered element, as functions of the session, the route's role list
   * and the requested location. Both halves are computed independently, so
   * a role redirect goes together with rendering the children.
   */
  function Gate(loading: bool, token: Option<string>, user: Option<UserRecord>,
                allowed: Option<seq<string>>, location: string): (d: Decision)
    ensures loading ==> d.render == LoadingPlaceholder
    ensures !loading && !Truthy(token) ==> d.render == Nothing
    ensures d.render == Children <==> !loading && Truthy(token)
    ensures d.redirect.ToLogin? <==> !loading && !Truthy(token)
    ensures d.redirect.ToLogin? ==> d.redirect.from == location
    ensures d.redirect == ToHome <==> (loading || Truthy(token)) && RoleRejected(user, allowed)
    ensures allowed.None? ==> d.redirect != ToHome
  {
    var redirect :=
      if !loading && !Truthy(token) then ToLogin(location)
      else if user.Some? && NestedUser(user.value).Some? then
        (if allowed.Some? && !RoleIn(allowed.value, NestedUser(user.value).value.role) then ToHome else Stay)
      else Stay;
    var render :=
      if loading then LoadingPlaceholder
      else if !Truthy(token) then Nothing
      else Children;
    Decision(render, redirect)
  }

  // ----------------------------------------------------------- route table

  /** The seven management screens nested under `/`. */
  datatype Screen = Competencies | Languages | Training | Positions | Candidates | Employees | WorkExperience

  /** The path segment of each nested route. */
  function PathOf(sc: Screen): string {
    match sc
    case Competencies => "competencies"
    case Languages => "languages"
    case Training => "training"
    case Positions => "positions"
    case Candidates => "candidates"
    case Employees => "employees"
    case WorkExperience => "work-experience"
  }

  datatype RouteRule = RouteRule(screen: Screen, allowedRoles: seq<string>)

  const RecruiterOnly: seq<string> := ["recruiter"]
  const RecruiterOrCandidate: seq<string> := ["recruiter", "candidate"]

  /** The nested routes under `/`, in declaration order. */
  const ChildRoutes: seq<RouteRule> := [
    RouteRule(Competencies, RecruiterOnly),
    RouteRule(Languages, RecruiterOnly),
    RouteRule(Training, RecruiterOnly),
    RouteRule(Positions, RecruiterOnly),
    RouteRule(Candidates, RecruiterOrCandidate),
    RouteRule(Employees, RecruiterOnly),
    RouteRule(WorkExperience, RecruiterOrCandidate)
  ]

  /** The first rule for the given screen. */
  function FindRule(rules: seq<RouteRule>, sc: Screen): (r: Option<RouteRule>)
    ensures r.Some? ==> r.value in rules && r.value.screen == sc
    ensures r.None? ==> forall i :: 0 <= i < |rules| ==> rules[i].screen != sc
    decreases |rules|
  {
    if rules == [] then None
    else if rules[0].screen == sc then Some(rules[0])
    else FindRule(rules[1..], sc)
  }

  /** A screen whose first rule sits at position k is found there. */
  lemma {:induction false} FindRuleAt(rules: seq<RouteRule>, k: int, sc: Screen)
    requires 0 <= k < |rules| && rules[k].screen == sc
    requires forall j :: 0 <= j < k ==> rules[j].screen != sc
    ensures FindRule(rules, sc) == Some(rules[k])
    decreases k
  {
    if k > 0 {
      FindRuleAt(rules[1..], k - 1, sc);
    }
  }

  /** The position of each screen's rule: the table lists every screen once. */
  function Position(sc: Screen): int {
    match sc
    case Competencies => 0 case Languages => 1 case Training => 2 case Positions => 3
    case Candidates => 4 case Employees => 5 case WorkExperience => 6
  }

  /** Every screen has a rule in the table, found at its position. */
  lemma EveryScreenRouted(sc: Screen)
    ensures FindRule(ChildRoutes, sc) == Some(ChildRoutes[Position(sc)])
  {
    FindRuleAt(ChildRoutes, Position(sc), sc);
  }

  /**
   * The role list a `ProtectedRoute` is given: none on the root route
   * (`None`), the table's list on a nested route.
   */
  function AllowedRolesFor(sc: Option<Screen>): (r: Option<seq<string>>)
    ensures sc.None? <==> r.None?
  {
    match sc
    case None => None
    case Some(screen) =>
      EveryScreenRouted(screen);
      Some(FindRule(ChildRoutes, screen).value.allowedRoles)
  }

  /** The fixed table: five recruiter-only screens and two open to candidates too. */
  lemma RouteTable(sc: Screen)
    ensures sc in {Candidates, WorkExperience} ==> AllowedRolesFor(Some(sc)) == Some(["recruiter", "candidate"])
    ensures sc !in {Candidates, WorkExperience} ==> AllowedRolesFor(Some(sc)) == Some(["recruiter"])
  {
    EveryScreenRouted(sc);
  }

  /** The root route never sends anyone home, whatever the user's role. */
  lemma RootNeverRoleRedirects(loading: bool, token: Option<string>, user: Option<UserRecord>, location: string)
    ensures Gate(loading, token, user, AllowedRolesFor(None), location).redirect != ToHome
  {
  }

  /**
   * A signed-in candidate who opens a recruiter-only screen is sent home,
   * and in the same evaluation the route still renders its children.
   */
  lemma CandidateOnRecruiterScreen(token: string, u: UserRecord, p: Profile, location: string)
    requires token != ""
    requires NestedUser(u) == Some(p) && p.role == Some("candidate")
    ensures Gate(false, Some(token), Some(u), AllowedRolesFor(Some(Positions)), location)
         == Decision(Children, ToHome)
  {
    RouteTable(Positions);
  }

  // --------------------------------------------------------------- session

  /** A snapshot of the shell's session state and the tab's stored token. */
  datatype SessionState = SessionState(
    user: Option<UserRecord>,
    token: Option<string>,
    loading: bool,
    stored: Option<string>)

  /** The gate's decision in a given session state. */
  function GateIn(s: SessionState, allowed: Option<seq<string>>, location: string): Decision {
    Gate(s.loading, s.token, s.user, allowed, location)
  }

  /**
   * What `sessionStorage.setItem` keeps: the string form, so an undefined
   * token is stored as 'undefined'. Null is not told apart from undefined.
   */
  function StorageText(t: Option<string>): (r: string)
    ensures t.Some? ==> r == t.value
    ensures t.None? ==> r == "undefined"
  {
    match t
    case Some(v) => v
    case None => "undefined"
  }

  /** `handleLogin(userData, authToken)` */
  function Login(s: SessionState, u: UserRecord, t: Option<string>): (r: SessionState)
    ensures r.user == Some(u) && r.token == t && r.stored == Some(StorageText(t))
    ensures r.loading == s.loading
  {
    SessionState(Some(u), t, s.loading, Some(StorageText(t)))
  }

  /** `handleLogout`: whatever the logout request returns, the session is cleared. */
  function Logout(s: SessionState): (r: SessionState)
    ensures r.user.None? && r.token.None? && r.stored.None?
    ensures r.loading == s.loading
  {
    SessionState(None, None, s.loading, None)
  }

  /** `fetchUserData`: any body is accepted as the user; a thrown request logs out. */
  function FetchUser(s: SessionState, reply: Response<UserRecord>): (r: SessionState)
    ensures !r.loading
    ensures reply.Got? ==> r.user == Some(reply.body) && r.token == s.token && r.stored == s.stored
    ensures reply.Threw? ==> r.user.None? && r.token.None? && r.stored.None?
  {
    match reply
    case Got(body) => s.(user := Some(body), loading := false)
    case Threw(_) => Logout(s).(loading := false)
  }

  /** The mount effect: resume from a stored token, or stop loading at once. */
  function Startup(s: SessionState, reply: Response<UserRecord>): (r: SessionState)
    ensures !r.loading
    ensures Truthy(s.stored) && reply.Got? ==> r.token == s.stored && r.user == Some(reply.body)
    ensures Truthy(s.stored) && reply.Threw? ==> r.user.None? && r.token.None? && r.stored.None?
    ensures !Truthy(s.stored) ==> r.user == s.user && r.token == s.token && r.stored == s.stored
  {
    if Truthy(s.stored) then FetchUser(s.(token := s.stored), reply)
    else s.(loading := false)
  }

  /** Logging out twice is logging out once. */
  lemma LogoutIdempotent(s: SessionState)
    ensures Logout(Logout(s)) == Logout(s)
  {
  }

  /** After a logout, every protected route renders nothing and redirects to the login page. */
  lemma LogoutRevokesAccess(s: SessionState, allowed: Option<seq<string>>, location: string)
    requires !s.loading
    ensures GateIn(Logout(s), allowed, location) == Decision(Nothing, ToLogin(location))
  {
  }

  /** A failed identity fetch at startup ends on the login redirect. */
  lemma FailedResumeEndsAtLogin(s: SessionState, error: Option<ErrorBody>, allowed: Option<seq<string>>, location: string)
    requires Truthy(s.stored)
    ensures GateIn(Startup(s, Threw(error)), allowed, location) == Decision(Nothing, ToLogin(location))
  {
  }

  /** A login with a non-empty token lets the root route render, once loading is over. */
  lemma LoginGrantsRoot(s: SessionState, u: UserRecord, t: string, location: string)
    requires !s.loading && t != ""
    ensures GateIn(Login(s, u, Some(t)), AllowedRolesFor(None), location) == Decision(Children, Stay)
  {
  }

  /** The shell component: its three state cells and the tab's session storage. */
  class App {
    var user: Option<UserRecord>
    var token: Option<string>
    var loading: bool
    var stored: Option<string>

    function State(): SessionState
      reads this
    {
      SessionState(user, token, loading, stored)
    }

    /** First render: no user, no token, loading; the storage holds what the tab kept. */
    constructor (storage: Option<string>)
      ensures State() == SessionState(None, None, true, storage)
    {
      user := None;
      token := None;
      loading := true;
      stored := storage;
    }

    method HandleLogin(userData: UserRecord, authToken: Option<string>)
      modifies this
      ensures State() == Login(old(State()), userData, authToken)
    {
      user := Some(userData);
      token := authToken;
      stored := Some(StorageText(authToken));
    }

    /** The logout request's outcome is ignored: the `finally` block always clears. */
    method HandleLogout()
      modifies this
      ensures State() == Logout(old(State()))
    {
      user := None;
      token := None;
      stored := None;
    }

    method FetchUserData(reply: Response<UserRecord>)
      modifies this
      ensures State() == FetchUser(old(State()), reply)
    {
      match reply {
        case Got(body) =>
          user := Some(body);
        case Threw(_) =>
          HandleLogout();
      }
      loading := false;
    }

    /** The mount effect, given the identity endpoint's reply (unused without a stored token). */
    method Start(reply: Response<UserRecord>)
      modifies this
      ensures State() == Startup(old(State()), reply)
    {
      var storedToken := stored;
      if Truthy(storedToken) {
        token := storedToken;
        FetchUserData(reply);
      } else {
        loading := false;
      }
    }

    /** The decision of a `ProtectedRoute` in the current state. */
    function Decide(allowed: Option<seq<string>>, location: string): (d: Decision)
      reads this
      ensures loading ==> d.render == LoadingPlaceholder
      ensures d.render == Children <==> !loading && Truthy(token)
      ensures d.redirect.ToLogin? <==> !loading && !Truthy(token)
      ensures !loading && !Truthy(token) ==> d.render == Nothing
      ensures d.redirect.ToLogin? ==> d.redirect.from == location
      ensures d.redirect == ToHome <==> (loading || Truthy(token)) && RoleRejected(user, allowed)
    {
      Gate(loading, token, user, allowed, location)
    }
  }
}
