/** Signing in and out: `login` checks the credentials and issues a token,
    `logout` revokes the caller's token until it would have expired anyway. */
module Session {
  import opened Values
  import opened Auth
  import opened Lifecycle
  import opened Gate
  import opened Stores
  import opened Tokens
  import opened Identity
  import opened Users

  /** The answer to `login`: the token, the signed-in user, and their role and
      permissions resolved as the request context resolves them. */
  datatype Signin = Signin(token: string, userId: Id, user: Rec, role: Option<RoleView>, permissions: seq<PermissionView>)

  /** An active user registered under `email`. */
  predicate Registered(rows: map<Id, Rec>, email: string, id: Id) {
    id in rows && EmailOf(rows[id]) == Text(email) && Active(rows[id])
  }

  /** The record after a successful login: `lastLoginAt` set, nothing else changed. */
  function LoggedIn(r: Rec, now: Millis): (s: Rec)
    ensures Field(s.fields, "lastLoginAt") == Instant(now)
    ensures forall key :: key in r.fields && key != "lastLoginAt" ==> key in s.fields && s.fields[key] == r.fields[key]
    ensures s.fields.Keys == r.fields.Keys + {"lastLoginAt"}
    ensures s.createdBy == r.createdBy && s.updatedBy == r.updatedBy && s.deletedBy == r.deletedBy && s.deletedAt == r.deletedAt
  {
    r.(fields := r.fields["lastLoginAt" := Instant(now)])
  }

  /** `login`: the user is looked up by email (soft-deleted users are "not
      found"), the password is checked against the stored digest by `matches`
      (bcrypt's compare), `lastLoginAt` is recorded, and a fresh token is signed. */
  method Login(users: Store, roles: map<Id, Rec>, perms: map<Id, Rec>, k: Signer,
               email: string, password: string, matches: (string, Value) -> bool, now: Millis)
    returns (r: Outcome<Signin>)
    requires UsersValid(users)
    modifies users`rows
    ensures UsersValid(users) && Retains(old(users.rows), users.rows)
    ensures !r.Null?
    ensures r == Fail(UserNotFound) <==> forall id :: !Registered(old(users.rows), email, id)
    ensures r == Fail(InvalidCredentials) <==>
      exists id :: Registered(old(users.rows), email, id) &&
                   !matches(password, Field(old(users.rows)[id].fields, "passwordHash"))
    ensures r.Fail? ==> r.error in {UserNotFound, InvalidCredentials} && users.rows == old(users.rows)
    ensures r.Ok? ==>
      var id := r.value.userId;
      Registered(old(users.rows), email, id) &&
      matches(password, Field(old(users.rows)[id].fields, "passwordHash")) &&
      users.rows == old(users.rows)[id := LoggedIn(old(users.rows)[id], now)] &&
      r.value.user == users.rows[id] &&
      r.value.token == k.sign(Issue(id, now)) &&
      r.value.role == ResolveRole(users.rows[id], roles, perms) &&
      r.value.permissions == PermissionsOf(r.value.role)
  {
    if id :| id in users.rows && EmailOf(users.rows[id]) == Text(email) {
      if !Active(users.rows[id]) {
        assert forall j :: !Registered(users.rows, email, j);
        return Fail(UserNotFound);
      }
      assert Registered(users.rows, email, id);
      if !matches(password, Field(users.rows[id].fields, "passwordHash")) {
        return Fail(InvalidCredentials);
      }
      var user := users.Save(id, LoggedIn(users.rows[id], now).fields);
      assert EmailOf(user) == EmailOf(old(users.rows)[id]);
      var role := ResolveRole(user, roles, perms);
      return Ok(Signin(k.sign(Issue(id, now)), id, user, role, PermissionsOf(role)));
    }
    return Fail(UserNotFound);
  }

  /** `logout`: without a token there is nothing to revoke; otherwise the token
      must still verify and be stored once, with its expiry as the instant the
      entry may be purged. */
  method Logout(ctx: Context, revoked: Revocations, k: Signer, now: Millis) returns (ok: bool)
    modifies revoked
    ensures ctx.token.None? || ctx.token == Some("") ==> ok && revoked.entries == old(revoked.entries)
    ensures ctx.token.Some? && ctx.token != Some("") ==>
      var t := ctx.token.value;
      var v := Verify(k, t, now);
      (ok <==> v.Some? && t !in old(revoked.entries)) &&
      revoked.entries == (if ok then old(revoked.entries)[t := v.value.exp * 1000] else old(revoked.entries))
    ensures Tracks(k, old(revoked.entries)) ==> Tracks(k, revoked.entries)
    ensures old(revoked.entries).Keys <= revoked.entries.Keys
  {
    if ctx.token.None? || ctx.token == Some("") {
      return true;
    }
    var t := ctx.token.value;
    var v := Verify(k, t, now);
    if v.None? {
      return false;
    }
    ok := revoked.Add(t, v.value.exp * 1000);
  }
}
