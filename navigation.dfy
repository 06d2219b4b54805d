/**
 * The dashboard (src/Dashboard.jsx): the ordered navigation table, the
 * normalised user, the items a role sees, and the default navigation from `/`.
 */
module Navigation {
  import opened Js
  import opened Identity
  import opened Records
  import opened Session

  /** One sidebar entry: its label, the screen it opens, and the role it is shown to. */
  datatype NavItem = NavItem(name: string, screen: Screen, role: Audience)

  /** The `role` field of an entry: the string 'all', or one role name. */
  datatype Audience = All | Role(name: string)

  /** The sidebar in declaration order; 'all' marks the entries shown to every role. */
  const NavItems: seq<NavItem> := [
    NavItem("Competencias", Competencies, Role("recruiter")),
    NavItem("Idiomas", Languages, Role("recruiter")),
    NavItem("Capacitaciones", Training, Role("recruiter")),
    NavItem("Puestos", Positions, Role("recruiter")),
    NavItem("Candidatos", Candidates, All),
    NavItem("Empleados", Employees, Role("recruiter")),
    NavItem("Experiencia Laboral", WorkExperience, All)
  ]

  /** The two entries marked 'all'. */
  const SharedItems: seq<NavItem> := [NavItems[4], NavItems[6]]

  /** `user?.data?.user || user`: the nested profile when present, else the payload's own fields. */
  function UserData(user: Option<UserRecord>): (p: Option<Profile>)
    ensures user.None? ==> p.None?
    ensures user.Some? && NestedUser(user.value).Some? ==> p == NestedUser(user.value)
    ensures user.Some? && NestedUser(user.value).None? ==> p == Some(user.value.own)
  {
    match user
    case None => None
    case Some(u) => if NestedUser(u).Some? then NestedUser(u) else Some(u.own)
  }

  /** `userData?.role` */
  function RoleOf(p: Option<Profile>): (role: Option<string>)
    ensures p.None? ==> role.None?
    ensures p.Some? ==> role == p.value.role
  {
    match p
    case Some(profile) => profile.role
    case None => None
  }

  /** `item.role === 'all' || userData?.role === item.role` */
  function VisibleTo(role: Option<string>, item: NavItem): (b: bool)
    ensures item.role.All? ==> b
    ensures role.None? ==> (b <==> item.role.All?)
    ensures item.role.Role? && role == Some(item.role.name) ==> b
  {
    item.role.All? || (role.Some? && role.value == item.role.name)
  }

  /** `navItems.filter(...)` */
  function VisibleNavItems(role: Option<string>): (items: seq<NavItem>)
    ensures |items| <= |NavItems|
    ensures forall i :: 0 <= i < |items| ==> items[i] in NavItems && VisibleTo(role, items[i])
  {
    Filter(NavItems, item => VisibleTo(role, item))
  }

  /** The visible items are exactly the entries for 'all' or the role, in declaration order. */
  lemma VisibleExactly(role: Option<string>)
    ensures forall i :: 0 <= i < |NavItems| && VisibleTo(role, NavItems[i]) ==> NavItems[i] in VisibleNavItems(role)
    ensures forall i :: 0 <= i < |VisibleNavItems(role)| ==> VisibleTo(role, VisibleNavItems(role)[i])
    ensures Subsequence(VisibleNavItems(role), NavItems)
  {
    FilterIsSubsequence(NavItems, item => VisibleTo(role, item));
  }

  /** A recruiter sees all seven entries. */
  lemma RecruiterSeesEverything()
    ensures VisibleNavItems(Some("recruiter")) == NavItems
  {
    EveryEntryIsSharedOrRecruiter();
    FilterKeepsAll(NavItems, item => VisibleTo(Some("recruiter"), item));
  }

  /** Every entry is shown to 'all' or to recruiters. */
  lemma EveryEntryIsSharedOrRecruiter()
    ensures forall i :: 0 <= i < |NavItems| ==> NavItems[i].role == All || NavItems[i].role == Role("recruiter")
  {
  }

  /** The 'all' entries are Candidatos and Experiencia Laboral. */
  lemma SharedEntries()
    ensures Filter(NavItems, (item: NavItem) => item.role.All?) == SharedItems
  {
    var keep := (item: NavItem) => item.role.All?;
    assert Filter(NavItems[7..], keep) == [];
    assert Filter(NavItems[6..], keep) == [NavItems[6]] by { assert NavItems[6..][1..] == NavItems[7..]; }
    assert Filter(NavItems[5..], keep) == [NavItems[6]] by { assert NavItems[5..][1..] == NavItems[6..]; }
    assert Filter(NavItems[4..], keep) == SharedItems by { assert NavItems[4..][1..] == NavItems[5..]; }
    assert Filter(NavItems[3..], keep) == SharedItems by { assert NavItems[3..][1..] == NavItems[4..]; }
    assert Filter(NavItems[2..], keep) == SharedItems by { assert NavItems[2..][1..] == NavItems[3..]; }
    assert Filter(NavItems[1..], keep) == SharedItems by { assert NavItems[1..][1..] == NavItems[2..]; }
    assert NavItems[0..] == NavItems;
  }

  /**
   * Every role other than 'recruiter' (a candidate, a missing role, an
   * unknown one) sees exactly the two 'all' entries.
   */
  lemma OthersSeeSharedOnly(role: Option<string>)
    requires role != Some("recruiter")
    ensures VisibleNavItems(role) == SharedItems
  {
    FilterAgrees(NavItems, item => VisibleTo(role, item), (item: NavItem) => item.role.All?);
    SharedEntries();
  }

  /** The sidebar lists each of the seven screens, and none twice. */
  lemma EveryScreenListedOnce(sc: Screen)
    ensures exists i :: 0 <= i < |NavItems| && NavItems[i].screen == sc
    ensures forall i, j :: 0 <= i < j < |NavItems| ==> NavItems[i].screen != NavItems[j].screen
  {
    match sc
    case Competencies => assert NavItems[0].screen == sc;
    case Languages => assert NavItems[1].screen == sc;
    case Training => assert NavItems[2].screen == sc;
    case Positions => assert NavItems[3].screen == sc;
    case Candidates => assert NavItems[4].screen == sc;
    case Employees => assert NavItems[5].screen == sc;
    case WorkExperience => assert NavItems[6].screen == sc;
  }

  /** `visibleNavItems.length > 0 ? visibleNavItems[0].path : ''` */
  function FirstVisiblePath(items: seq<NavItem>): (path: string)
    ensures items == [] <==> path == ""
    ensures items != [] ==> path == PathOf(items[0].screen)
  {
    if |items| > 0 then PathOf(items[0].screen) else ""
  }

  /** The default target: 'competencies' for a recruiter, 'candidates' for anyone else. */
  lemma DefaultTargets(role: Option<string>)
    ensures role == Some("recruiter") ==> FirstVisiblePath(VisibleNavItems(role)) == "competencies"
    ensures role != Some("recruiter") ==> FirstVisiblePath(VisibleNavItems(role)) == "candidates"
  {
    if role == Some("recruiter") {
      RecruiterSeesEverything();
    } else {
      OthersSeeSharedOnly(role);
    }
  }

  /** The effect: from exactly `/`, go to the first visible path if there is one. */
  function AutoNavigate(pathname: string, firstPath: string): (target: Option<string>)
    ensures target.Some? <==> pathname == "/" && firstPath != ""
    ensures target.Some? ==> target.value == firstPath
  {
    if pathname == "/" && firstPath != "" then Some(firstPath) else None
  }

  /** What the dashboard does for a user prop and a location. */
  datatype DashboardOutput = DashboardOutput(rendered: bool, items: seq<NavItem>, navigateTo: Option<string>)

  /**
   * The dashboard renders only when the normalised user exists; its effect runs
   * either way, so with this table it always leaves `/` for a screen.
   */
  function Dashboard(user: Option<UserRecord>, pathname: string): (o: DashboardOutput)
    ensures o.rendered <==> UserData(user).Some?
    ensures o.items == VisibleNavItems(RoleOf(UserData(user)))
    ensures o.navigateTo.Some? <==> pathname == "/"
    ensures o.navigateTo.Some? ==> o.navigateTo.value == FirstVisiblePath(o.items) && o.navigateTo.value != ""
  {
    var userData := UserData(user);
    var visible := VisibleNavItems(RoleOf(userData));
    DefaultTargets(RoleOf(userData));
    DashboardOutput(userData.Some?, visible, AutoNavigate(pathname, FirstVisiblePath(visible)))
  }

  // ------------------------------------------------- default target and gate

  /**
   * As written, the sidebar marks 'candidates' as shown to every role while
   * the route table lets only recruiters and candidates in. A user whose
   * `data.user` has any other role (or none) is sent from `/` to
   * 'candidates', whose gate sends them back to `/`.
   */
  lemma UnknownRoleBounces(token: string, u: UserRecord, p: Profile)
    requires token != ""
    requires NestedUser(u) == Some(p)
    requires p.role != Some("recruiter") && p.role != Some("candidate")
    ensures Dashboard(Some(u), "/").navigateTo == Some("candidates")
    ensures Gate(false, Some(token), Some(u), AllowedRolesFor(Some(Candidates)), "/candidates").redirect == ToHome
  {
    DefaultTargets(p.role);
    RouteTable(Candidates);
  }

  /** The gate of a screen's route does not send this user home. */
  predicate Admitted(user: Option<UserRecord>, item: NavItem) {
    !RoleRejected(user, AllowedRolesFor(Some(item.screen)))
  }

  /** Corrected sidebar: the visible entries whose route also admits the user. */
  function GrantedNavItems(user: Option<UserRecord>): (items: seq<NavItem>)
    ensures forall i :: 0 <= i < |items| ==> Admitted(user, items[i])
    ensures forall i :: 0 <= i < |NavItems| && VisibleTo(RoleOf(UserData(user)), NavItems[i]) && Admitted(user, NavItems[i]) ==>
              NavItems[i] in items
    ensures Subsequence(items, NavItems)
  {
    var visible := VisibleNavItems(RoleOf(UserData(user)));
    VisibleExactly(RoleOf(UserData(user)));
    FilterIsSubsequence(visible, item => Admitted(user, item));
    SubsequenceTransitive(Filter(visible, item => Admitted(user, item)), visible, NavItems);
    Filter(visible, item => Admitted(user, item))
  }

  lemma {:induction false} SubsequenceTransitive<R>(a: seq<R>, b: seq<R>, c: seq<R>)
    requires Subsequence(a, b) && Subsequence(b, c)
    ensures Subsequence(a, c)
    decreases |c|
  {
    if a != [] && b != [] && c != [] {
      if b[0] == c[0] && Subsequence(b[1..], c[1..]) {
        if a[0] == b[0] && Subsequence(a[1..], b[1..]) {
          SubsequenceTransitive(a[1..], b[1..], c[1..]);
        } else {
          SubsequenceTransitive(a, b[1..], c[1..]);
        }
      } else {
        SubsequenceTransitive(a, b, c[1..]);
      }
    }
  }

  /** With the corrected sidebar, the default target is never a route that sends the user home. */
  lemma GrantedDefaultIsAdmitted(user: Option<UserRecord>, token: Option<string>, loading: bool)
    requires GrantedNavItems(user) != []
    ensures var target := GrantedNavItems(user)[0].screen;
            Gate(loading, token, user, AllowedRolesFor(Some(target)), "/" + PathOf(target)).redirect != ToHome
  {
  }

  /** For the two roles the system issues, the correction changes nothing. */
  lemma GrantedMatchesForIssuedRoles(u: UserRecord, p: Profile)
    requires NestedUser(u) == Some(p)
    requires p.role == Some("recruiter") || p.role == Some("candidate")
    ensures GrantedNavItems(Some(u)) == VisibleNavItems(p.role)
  {
    var visible := VisibleNavItems(p.role);
    forall i | 0 <= i < |visible|
      ensures Admitted(Some(u), visible[i])
    {
      RouteTable(visible[i].screen);
      if p.role == Some("candidate") {
        OthersSeeSharedOnly(p.role);
      }
    }
    FilterKeepsAll(visible, item => Admitted(Some(u), item));
  }
}
