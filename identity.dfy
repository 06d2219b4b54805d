/**
 * The shapes of the user payload the console keeps in its `user` state: the
 * body returned by the login, registration and identity endpoints,
 * `{ status, message, data: { token, user: { name, username, role, ... } } }`,
 * plus whatever profile fields a flattened payload carries at its top level.
 */
module Identity {
  import opened Js
  import opened Http

  /** A user profile; every field may be missing. */
  datatype Profile = Profile(
    name: Option<string>,
    username: Option<string>,
    role: Option<string>,
    email: Option<string>,
    picture: Option<string>)

  const NoProfile := Profile(None, None, None, None, None)

  /** `body.data`: the token and the nested user object, either may be missing. */
  datatype AuthData = AuthData(token: Option<string>, user: Option<Profile>)

  /**
   * A whole response body as stored in `user`: its envelope fields, its
   * optional `data`, and its own top-level profile fields (`own`), which
   * are read when a payload is flat.
   */
  datatype UserRecord = UserRecord(
    status: Status,
    message: Option<string>,
    data: Option<AuthData>,
    own: Profile)

  /** `user.data.user`, when both levels are present. */
  function NestedUser(u: UserRecord): (p: Option<Profile>)
    ensures p.Some? <==> u.data.Some? && u.data.value.user.Some?
    ensures p.Some? ==> p == u.data.value.user
  {
    match u.data
    case Some(d) => d.user
    case None => None
  }
}
