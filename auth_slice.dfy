/** The client's copy of the session: the Redux `auth` slice, filled from the
    answer to `login` and emptied on sign-out, with the two selectors the UI
    gates on. */
module AuthSlice {
  import opened Values
  import opened Auth

  /** The signed-in user as the client keeps it. */
  datatype Account = Account(id: Id, fullName: string, email: string)

  /** The payload of `setCredentials`: the fields of a `login` answer. The
      server answers a role of `null` for a user without one. */
  datatype Credentials = Credentials(token: string, user: Account, role: Option<RoleView>, permissions: seq<PermissionView>)

  /** The server's request context for the same role and permissions; the
      selectors decide as the server's predicates decide on it. */
  function Mirror(role: Option<RoleView>, permissions: seq<PermissionView>): (ctx: Context)
    ensures ctx.role == role && ctx.permissions == Entries(permissions)
  {
    Context(None, None, role, Entries(permissions))
  }

  class State {
    var token: Option<string>
    var user: Option<Account>
    var role: Option<RoleView>
    var permissions: seq<PermissionView>

    /** The initial state: signed out. */
    ghost predicate IsInitial()
      reads this
    {
      token.None? && user.None? && role.None? && permissions == []
    }

    constructor ()
      ensures IsInitial()
    {
      token := None;
      user := None;
      role := None;
      permissions := [];
    }

    /** `setCredentials`: all four fields are overwritten with the payload. */
    method SetCredentials(c: Credentials)
      modifies this
      ensures token == Some(c.token) && user == Some(c.user) && role == c.role && permissions == c.permissions
    {
      token := Some(c.token);
      user := Some(c.user);
      role := c.role;
      permissions := c.permissions;
    }

    /** `clearCredentials`: back to the initial state. */
    method ClearCredentials()
      modifies this
      ensures IsInitial()
    {
      token := None;
      user := None;
      role := None;
      permissions := [];
    }

    /** `selectIsAdmin`: the role's name is exactly "Admin", as on the server. */
    predicate SelectIsAdmin()
      reads this
      ensures SelectIsAdmin() <==> IsAdmin(Mirror(role, permissions))
      ensures SelectIsAdmin() ==> role.Some?
    {
      match role
      case None => false
      case Some(r) => r.name == Text(AdminRoleName)
    }

    /** `selectHasPermission(name)`: some stored permission carries exactly `name`. */
    predicate SelectHasPermission(name: string)
      reads this
      ensures SelectHasPermission(name) <==> HasPermission(Mirror(role, permissions), name)
      ensures SelectHasPermission(name) <==> Text(name) in Names(permissions)
    {
      GrantsIsMembership(permissions, name);
      exists i :: 0 <= i < |permissions| && permissions[i].name == Text(name)
    }
  }

  /** After `clearCredentials` the client grants nothing: not admin, and no permission by any name. */
  lemma ClearedGrantsNothing(s: State)
    requires s.IsInitial()
    ensures !s.SelectIsAdmin()
    ensures forall name :: !s.SelectHasPermission(name)
  {
  }

  /** After `setCredentials` with a login answer, the client decides exactly
      as the server decides for a request context carrying the same role and
      permissions (the context of the next request with the issued token). */
  lemma ClientMirrorsServer(s: State, c: Credentials, ctx: Context, name: string)
    requires s.role == c.role && s.permissions == c.permissions
    requires ctx.role == c.role && ctx.permissions == Entries(c.permissions)
    ensures s.SelectIsAdmin() <==> IsAdmin(ctx)
    ensures s.SelectHasPermission(name) <==> HasPermission(ctx, name)
  {
  }
}
