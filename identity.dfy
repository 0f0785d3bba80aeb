/** Building the request context: the bearer token, the revocation check, token
    verification, the user lookup and the role with its populated permissions. */
module Identity {
  import opened Values
  import opened Auth
  import opened Lifecycle
  import opened Tokens

  const Bearer: string := "Bearer "

  /** The token of an `Authorization` header: what follows a literal, case-sensitive "Bearer " prefix. */
  function BearerToken(header: Option<string>): (t: Option<string>)
    ensures t.Some? <==> header.Some? && Bearer <= header.value
    ensures t.Some? ==> header.value == Bearer + t.value
  {
    if header.Some? && Bearer <= header.value then
      assert header.value == Bearer + header.value[|Bearer|..];
      Some(header.value[|Bearer|..])
    else None
  }

  /** Prefixing a token and extracting it again gives the token back. */
  lemma BearerRoundTrip(token: string)
    ensures BearerToken(Some(Bearer + token)) == Some(token)
  {
    assert (Bearer + token)[|Bearer|..] == token;
  }

  /** `user.roleId` when it is set; the schema stores either an ObjectId or nothing. */
  function RoleIdOf(user: Rec): Option<Id> {
    match Field(user.fields, "roleId")
    case Ref(r) => Some(r)
    case _ => None
  }

  /** The role's permission ids (`populatedRole.permissions || []`). */
  function PermissionIdsOf(role: Rec): seq<Id> {
    match Field(role.fields, "permissions")
    case Refs(ids) => ids
    case _ => []
  }

  /** The names of the permissions among `ids` that exist in `perms`. */
  function FoundNames(ids: seq<Id>, perms: map<Id, Rec>): set<Value> {
    set j | 0 <= j < |ids| && ids[j] in perms :: Field(perms[ids[j]].fields, "name")
  }

  lemma NamesCons(head: PermissionView, rest: seq<PermissionView>)
    ensures Names([head] + rest) == {head.name} + Names(rest)
  {
    var all := [head] + rest;
    forall v | v in Names(rest) ensures v in Names(all) {
      var i :| 0 <= i < |rest| && rest[i].name == v;
      assert all[i + 1] == rest[i];
    }
    assert all[0] == head;
    forall v | v in Names(all) ensures v in {head.name} + Names(rest) {
      var i :| 0 <= i < |all| && all[i].name == v;
      if i > 0 {
        assert all[i] == rest[i - 1];
      }
    }
  }

  /** `.populate('permissions')`: each id that names an existing permission is
      replaced by that permission, in order; ids with no permission behind them
      are dropped. Soft-deleted permissions are not filtered out. */
  function Populate(ids: seq<Id>, perms: map<Id, Rec>): (r: seq<PermissionView>)
    ensures |r| <= |ids|
    ensures forall i :: 0 <= i < |r| ==>
      r[i].id in perms && r[i].name == Field(perms[r[i].id].fields, "name")
    ensures Names(r) == FoundNames(ids, perms)
  {
    if ids == [] then []
    else
      var rest := Populate(ids[1..], perms);
      assert forall j :: 1 <= j < |ids| ==> ids[j] == ids[1..][j - 1];
      if ids[0] in perms then
        var head := PermissionView(ids[0], Field(perms[ids[0]].fields, "name"));
        NamesCons(head, rest);
        assert FoundNames(ids, perms) == {head.name} + FoundNames(ids[1..], perms);
        [head] + rest
      else
        assert FoundNames(ids, perms) == FoundNames(ids[1..], perms);
        rest
  }

  /** The role of a user as the context and the login payload carry it: found by
      `user.roleId`, whether or not it is soft-deleted, with its permissions populated. */
  function ResolveRole(user: Rec, roles: map<Id, Rec>, perms: map<Id, Rec>): (r: Option<RoleView>)
    ensures r.None? <==> RoleIdOf(user).None? || RoleIdOf(user).value !in roles
    ensures r.Some? ==> RoleIdOf(user) == Some(r.value.id) && r.value.id in roles
    ensures r.Some? ==>
      var role := roles[r.value.id];
      r.value.name == Field(role.fields, "name") &&
      Names(r.value.permissions) == FoundNames(PermissionIdsOf(role), perms)
  {
    match RoleIdOf(user)
    case None => None
    case Some(rid) =>
      if rid !in roles then None
      else Some(RoleView(rid, Field(roles[rid].fields, "name"), Populate(PermissionIdsOf(roles[rid]), perms)))
  }

  /** The permission array that travels beside the role: the role's own permissions, or none. */
  function PermissionsOf(role: Option<RoleView>): seq<PermissionView> {
    if role.Some? then role.value.permissions else []
  }

  /** Why a request is refused before any resolver runs. */
  datatype ContextError = Blacklisted | InvalidOrExpired

  datatype Built = Ready(ctx: Context) | Rejected(error: ContextError)

  /** `createContext`. A missing, non-bearer or empty token gives the anonymous
      context. A revoked token is refused before it is verified and before any
      lookup. Every later failure (bad signature, expiry, unknown user) is
      reported the same way. A soft-deleted user still gets a context, and so
      does a user whose role is soft-deleted. */
  method CreateContext(header: Option<string>, revoked: Revocations, k: Signer,
                       users: map<Id, Rec>, roles: map<Id, Rec>, perms: map<Id, Rec>, now: Millis)
    returns (r: Built)
    ensures var t := BearerToken(header);
      (t.None? || t.value == "") ==> r == Ready(Context(None, t, None, Entries([])))
    ensures var t := BearerToken(header);
      r == Rejected(Blacklisted) <==> (t.Some? && t.value != "" && t.value in revoked.entries)
    ensures var t := BearerToken(header);
      r == Rejected(InvalidOrExpired) <==>
        (t.Some? && t.value != "" && t.value !in revoked.entries &&
         (Verify(k, t.value, now).None? || Verify(k, t.value, now).value.id !in users))
    ensures var t := BearerToken(header);
      (t.Some? && t.value != "" && t.value !in revoked.entries &&
       Verify(k, t.value, now).Some? && Verify(k, t.value, now).value.id in users) ==>
        var id := Verify(k, t.value, now).value.id;
        var role := ResolveRole(users[id], roles, perms);
        r == Ready(Context(Some(id), t, role, Entries(PermissionsOf(role))))
    ensures r.Ready? ==>
      r.ctx.token == BearerToken(header) && r.ctx.permissions == Entries(PermissionsOf(r.ctx.role))
    ensures r.Ready? && r.ctx.userId.Some? ==>
      var t := BearerToken(header);
      t.Some? && t.value !in revoked.entries &&
      Verify(k, t.value, now).Some? && Verify(k, t.value, now).value.id == r.ctx.userId.value &&
      r.ctx.userId.value in users && r.ctx.role == ResolveRole(users[r.ctx.userId.value], roles, perms)
  {
    var token := BearerToken(header);
    var userId: Option<Id> := None;
    var role: Option<RoleView> := None;
    var permissions: seq<PermissionView> := [];

    if token.Some? && token.value != "" {
      if revoked.IsRevoked(token.value) {
        return Rejected(Blacklisted);
      }
      var decoded := Verify(k, token.value, now);
      if decoded.None? {
        return Rejected(InvalidOrExpired);
      }
      userId := Some(decoded.value.id);
      if decoded.value.id !in users {
        return Rejected(InvalidOrExpired);
      }
      role := ResolveRole(users[decoded.value.id], roles, perms);
      if role.Some? {
        permissions := role.value.permissions;
      }
    }
    return Ready(Context(userId, token, role, Entries(permissions)));
  }

  /** Only the role decides: a context built for a user with no role, or with a
      role id that names no role, is neither admin nor holds any permission. */
  lemma RolelessUserIsPowerless(ctx: Context)
    requires ctx.role.None? && ctx.permissions == Entries(PermissionsOf(ctx.role))
    ensures !IsAdmin(ctx) && forall name :: !HasPermission(ctx, name)
  {
    NoRoleNoPower(ctx);
  }

  /** A context's permission test reads the role's permissions as stored: the
      caller holds `name` exactly when one of the role's permission ids names an
      existing permission called `name`. */
  lemma {:induction false} PermissionFromRole(user: Rec, roles: map<Id, Rec>, perms: map<Id, Rec>,
                                              ctx: Context, name: string)
    requires ctx.role == ResolveRole(user, roles, perms) && ctx.role.Some?
    requires ctx.permissions == Entries(PermissionsOf(ctx.role))
    ensures HasPermission(ctx, name) <==>
      exists j :: 0 <= j < |PermissionIdsOf(roles[ctx.role.value.id])| &&
        PermissionIdsOf(roles[ctx.role.value.id])[j] in perms &&
        Field(perms[PermissionIdsOf(roles[ctx.role.value.id])[j]].fields, "name") == Text(name)
  {
    GrantsIsMembership(ctx.role.value.permissions, name);
  }
}
