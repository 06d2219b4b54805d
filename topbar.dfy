/**
 * The top bar (src/TopBar.jsx): a loading placeholder until the user payload
 * has a `data` part, then the display name, initial, role and e-mail of
 * `user.data.user`.
 */
module TopBar {
  import opened Js
  import opened Identity

  /** What the bar shows; `Crash` is the render throwing a TypeError. */
  datatype TopBarView =
    | Placeholder
    | Crash
    | Bar(displayName: string, initial: string, roleLabel: string, emailLabel: string, picture: Option<string>)

  /** `name ?? username ?? 'Usuario'`: an empty name is kept, only a missing one falls through. */
  function DisplayName(p: Profile): (r: string)
    ensures p.name.Some? ==> r == p.name.value
    ensures p.name.None? && p.username.Some? ==> r == p.username.value
    ensures p.name.None? && p.username.None? ==> r == "Usuario"
  {
    Coalesce(p.name, Coalesce(p.username, "Usuario"))
  }

  /** The bar for a present profile; `role || '-'` and `email || 'Correo no disponible'`. */
  function BarFor(p: Profile): (v: TopBarView)
    ensures v.Bar?
    ensures v.displayName == DisplayName(p)
    ensures v.initial == "" <==> v.displayName == ""
    ensures v.displayName != "" ==> v.initial == [UpperChar(v.displayName[0])]
    ensures v.roleLabel == (if Truthy(p.role) then p.role.value else "-")
    ensures v.emailLabel == (if Truthy(p.email) then p.email.value else "Correo no disponible")
    ensures v.picture == p.picture
  {
    var name := DisplayName(p);
    Bar(name, Initial(name), OrElse(p.role, "-"), OrElse(p.email, "Correo no disponible"), p.picture)
  }

  /**
   * As written: the guard tests `user.data` only, and the body then reads
   * fields of `user.data.user`, which throws when `data` has no `user`.
   */
  function View(user: Option<UserRecord>): (v: TopBarView)
    ensures v.Placeholder? <==> user.None? || user.value.data.None?
    ensures v.Crash? <==> user.Some? && user.value.data.Some? && user.value.data.value.user.None?
    ensures v.Bar? ==> v == BarFor(NestedUser(user.value).value)
  {
    match user
    case None => Placeholder
    case Some(u) =>
      match u.data
      case None => Placeholder
      case Some(d) => if d.user.Some? then BarFor(d.user.value) else Crash
  }

  /**
   * The payload stored by a login whose reply carries a token but no user
   * (`{ status: 'success', data: { token } }`) makes the bar throw.
   */
  lemma TokenOnlyReplyCrashes(status: Http.Status, token: string)
    ensures View(Some(UserRecord(status, None, Some(AuthData(Some(token), None)), NoProfile))) == Crash
  {
  }

  /** Corrected guard: placeholder unless `user.data.user` is present, so the bar never throws. */
  function GuardedView(user: Option<UserRecord>): (v: TopBarView)
    ensures !v.Crash?
    ensures v.Placeholder? <==> user.None? || NestedUser(user.value).None?
    ensures v.Bar? ==> v == BarFor(NestedUser(user.value).value)
  {
    match user
    case None => Placeholder
    case Some(u) =>
      match NestedUser(u)
      case None => Placeholder
      case Some(p) => BarFor(p)
  }

  /** Wherever the code as written renders, the corrected guard renders the same thing. */
  lemma GuardAgreesWhenNoCrash(user: Option<UserRecord>)
    requires !View(user).Crash?
    ensures GuardedView(user) == View(user)
  {
  }
}
