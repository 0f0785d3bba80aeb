/** The user resource: the common gate with self-service clauses, public
    signup, and a record owner that may be missing. */
module Users {
  import opened Values
  import opened Auth
  import opened Lifecycle
  import opened Gate
  import opened Stores
  import opened Resources

  /** The user resolvers as written: the owner is read with `createdBy.toString()` before any other test. */
  const UserPolicy := Policy("READ_USER", "CREATE_USER", "UPDATE_USER", "DELETE_USER", Scoped, Throws, OwnerFirst)

  /** The gate of the user resolvers as written; `SignupUserLockedOut` shows what its owner read does to signed-up users. */
  lemma UsersGate()
    ensures NamedFor(UserPolicy, "USER")
    ensures UserPolicy.listing == Scoped && UserPolicy.denial == Throws && UserPolicy.ownerRead == OwnerFirst
  {
  }

  /** The same resolvers with the owner read as `createdBy?.toString()`, so that a missing owner owns nothing. */
  const IntendedUserPolicy := UserPolicy.(ownerRead := OptionalOwner)

  /** The arguments `updateUser` accepts besides `id`. */
  const UpdatableFields: set<string> := {"fullName", "roleId", "organizationId", "status", "mfaEnabled"}

  /** The arguments of `createUser`, all required by the schema. */
  datatype Signup = Signup(email: string, fullName: string, password: string, roleId: Id, organizationId: Id)

  function EmailOf(r: Rec): Value {
    Field(r.fields, "email")
  }

  /** The unique index on `email`. */
  ghost predicate EmailsUnique(rows: map<Id, Rec>) {
    forall a, b :: a in rows && b in rows && a != b ==> EmailOf(rows[a]) != EmailOf(rows[b]) || EmailOf(rows[a]) == Nil
  }

  /** The user collection's invariant. */
  ghost predicate UsersValid(s: Store)
    reads s
  {
    s.Valid() && EmailsUnique(s.rows)
  }

  /** `findOne({ email })` finds a record, soft-deleted or not. */
  predicate EmailTaken(rows: map<Id, Rec>, email: string)
    ensures !EmailTaken(rows, email) ==> forall k :: k in rows ==> EmailOf(rows[k]) != Text(email)
    ensures forall k :: k in rows && !Active(rows[k]) && EmailOf(rows[k]) == Text(email) ==> EmailTaken(rows, email)
  {
    exists k :: k in rows && EmailOf(rows[k]) == Text(email)
  }

  /** The fields `createUser` saves: the arguments, the password digest, and the schema's defaults. */
  function NewUserFields(args: Signup, digest: string): (r: Fields)
    ensures EmailOf(Created(r, None)) == Text(args.email)
    ensures Field(r, "passwordHash") == Text(digest) && Field(r, "roleId") == Ref(args.roleId)
    ensures Field(r, "status") == Text("invited") && Field(r, "mfaEnabled") == Flag(false)
    ensures "lastLoginAt" !in r
  {
    map["email" := Text(args.email), "fullName" := Text(args.fullName), "passwordHash" := Text(digest),
        "roleId" := Ref(args.roleId), "organizationId" := Ref(args.organizationId),
        "status" := Text("invited"), "mfaEnabled" := Flag(false)]
  }

  /** `user(id)`: `null` for a missing or soft-deleted record; an admin, an
      owner holding the read permission, or the user themself is answered with
      the record; anyone else is denied. */
  function UserGet(p: Policy, rows: map<Id, Rec>, ctx: Context, id: Id): (r: Outcome<Rec>)
    ensures ctx.userId.None? ==> r == Fail(NotAuthenticated)
    ensures r.Null? <==> ctx.userId.Some? && (id !in rows || !Active(rows[id]))
    ensures r.Ok? ==> id in rows && Active(rows[id]) && r.value == rows[id] &&
                      (Entitled(ctx, p.read, rows[id]) || IsSelf(ctx, id))
    ensures (ctx.userId.Some? && id in rows && Active(rows[id]) &&
             (rows[id].createdBy.Some? || p.ownerRead == OptionalOwner || IsAdmin(ctx))) ==>
      (r.Ok? <==> Entitled(ctx, p.read, rows[id]) || IsSelf(ctx, id))
    ensures r.Fail? ==> r.error in {NotAuthenticated, AccessDenied, MissingOwner}
    ensures r.Fail? && r.error == MissingOwner ==>
      id in rows && rows[id].createdBy.None? && !IsAdmin(ctx) &&
      (p.ownerRead == OwnerFirst || (p.ownerRead == PermissionFirst && HasPermission(ctx, p.read)))
    ensures ctx.userId.Some? && id in rows && Active(rows[id]) && r.Fail? && r.error != MissingOwner ==>
      r.error == AccessDenied
    ensures (ctx.userId.Some? && id in rows && Active(rows[id]) &&
             (rows[id].createdBy.Some? || p.ownerRead == OptionalOwner || IsAdmin(ctx)) && !r.Ok?) ==>
      r == Fail(AccessDenied)
    ensures (ctx.userId.Some? && id in rows && Active(rows[id]) && rows[id].createdBy.None? && !IsAdmin(ctx) &&
             (p.ownerRead == OwnerFirst || (p.ownerRead == PermissionFirst && HasPermission(ctx, p.read)))) ==>
      r == Fail(MissingOwner)
  {
    if ctx.userId.None? then Fail(NotAuthenticated)
    else if id !in rows || !Active(rows[id]) then Null
    else
      var a := Allows(ctx, p.read, rows[id].createdBy, p.ownerRead);
      if a.Fail? then Fail(a.error)
      else if a == Ok(true) || IsSelf(ctx, id) then Ok(rows[id])
      else Fail(AccessDenied)
  }

  /** `me`: the caller's own record, `null` once it is soft-deleted; no permission is needed. */
  function Me(rows: map<Id, Rec>, ctx: Context): (r: Outcome<Rec>)
    ensures ctx.userId.None? <==> r == Fail(NotAuthenticated)
    ensures r.Ok? ==> ctx.userId.value in rows && Active(rows[ctx.userId.value]) && r.value == rows[ctx.userId.value]
    ensures ctx.userId.Some? && ctx.userId.value in rows && Active(rows[ctx.userId.value]) ==> r.Ok?
    ensures ctx.userId.Some? && (ctx.userId.value !in rows || !Active(rows[ctx.userId.value])) ==> r == Null
  {
    if ctx.userId.None? then Fail(NotAuthenticated)
    else if ctx.userId.value !in rows || !Active(rows[ctx.userId.value]) then Null
    else Ok(rows[ctx.userId.value])
  }

  /** The checks of `createUser`: an anonymous caller signs up freely, a
      signed-in one needs admin or the create permission. On success, the
      `createdBy` to store: the caller, or nothing for a signup. */
  function SignupVerdict(p: Policy, ctx: Context): (r: Outcome<Option<Id>>)
    ensures !r.Null?
    ensures r.Ok? <==> ctx.userId.None? || IsAdmin(ctx) || HasPermission(ctx, p.create)
    ensures r.Ok? ==> r.value == ctx.userId
    ensures r.Fail? ==> r.error == AccessDenied
  {
    if ctx.userId.None? || IsAdmin(ctx) || HasPermission(ctx, p.create) then Ok(ctx.userId)
    else Fail(AccessDenied)
  }

  /** The self-service clause of `updateUser`: the caller edits their own record
      and supplies neither a (truthy) `roleId` nor an `organizationId`. */
  predicate SelfEdit(ctx: Context, id: Id, updates: Fields) {
    IsSelf(ctx, id) && !Supplied(updates, "roleId") && !Supplied(updates, "organizationId")
  }

  /** The checks of `updateUser`, in order: authentication, existence, admin,
      the update permission with ownership, then the self-service clause. */
  function UserUpdateVerdict(p: Policy, rows: map<Id, Rec>, ctx: Context, id: Id, updates: Fields): (r: Outcome<Id>)
    ensures !r.Null?
    ensures ctx.userId.None? ==> r == Fail(NotAuthenticated)
    ensures ctx.userId.Some? && (id !in rows || !Active(rows[id])) ==> r == Fail(NotFound)
    ensures r.Ok? ==> ctx.userId == Some(r.value) && id in rows && Active(rows[id]) &&
                      (Entitled(ctx, p.update, rows[id]) || SelfEdit(ctx, id, updates))
    ensures (ctx.userId.Some? && id in rows && Active(rows[id]) &&
             (rows[id].createdBy.Some? || p.ownerRead == OptionalOwner || IsAdmin(ctx))) ==>
      (r.Ok? <==> Entitled(ctx, p.update, rows[id]) || SelfEdit(ctx, id, updates))
    ensures r.Fail? && r.error == MissingOwner ==>
      id in rows && rows[id].createdBy.None? && !IsAdmin(ctx) &&
      (p.ownerRead == OwnerFirst || (p.ownerRead == PermissionFirst && HasPermission(ctx, p.update)))
    ensures ctx.userId.Some? && id in rows && Active(rows[id]) && r.Fail? && r.error != MissingOwner ==>
      r.error == AccessDenied
    ensures (ctx.userId.Some? && id in rows && Active(rows[id]) &&
             (rows[id].createdBy.Some? || p.ownerRead == OptionalOwner || IsAdmin(ctx)) && !r.Ok?) ==>
      r == Fail(AccessDenied)
    ensures (ctx.userId.Some? && id in rows && Active(rows[id]) && rows[id].createdBy.None? && !IsAdmin(ctx) &&
             (p.ownerRead == OwnerFirst || (p.ownerRead == PermissionFirst && HasPermission(ctx, p.update)))) ==>
      r == Fail(MissingOwner)
  {
    if ctx.userId.None? then Fail(NotAuthenticated)
    else if id !in rows || !Active(rows[id]) then Fail(NotFound)
    else
      var a := Allows(ctx, p.update, rows[id].createdBy, p.ownerRead);
      if a.Fail? then Fail(a.error)
      else if a == Ok(true) || SelfEdit(ctx, id, updates) then Ok(ctx.userId.value)
      else Fail(AccessDenied)
  }

  /** The checks of `deleteUser`: as for update, with self-deletion always allowed. */
  function UserDeleteVerdict(p: Policy, rows: map<Id, Rec>, ctx: Context, id: Id): (r: Outcome<Id>)
    ensures !r.Null?
    ensures ctx.userId.None? ==> r == Fail(NotAuthenticated)
    ensures ctx.userId.Some? && (id !in rows || !Active(rows[id])) ==> r == Fail(NotFound)
    ensures r.Ok? ==> ctx.userId == Some(r.value) && id in rows && Active(rows[id]) &&
                      (Entitled(ctx, p.delete, rows[id]) || IsSelf(ctx, id))
    ensures (ctx.userId.Some? && id in rows && Active(rows[id]) &&
             (rows[id].createdBy.Some? || p.ownerRead == OptionalOwner || IsAdmin(ctx))) ==>
      (r.Ok? <==> Entitled(ctx, p.delete, rows[id]) || IsSelf(ctx, id))
    ensures r.Fail? && r.error == MissingOwner ==>
      id in rows && rows[id].createdBy.None? && !IsAdmin(ctx) &&
      (p.ownerRead == OwnerFirst || (p.ownerRead == PermissionFirst && HasPermission(ctx, p.delete)))
    ensures ctx.userId.Some? && id in rows && Active(rows[id]) && r.Fail? && r.error != MissingOwner ==>
      r.error == AccessDenied
    ensures (ctx.userId.Some? && id in rows && Active(rows[id]) &&
             (rows[id].createdBy.Some? || p.ownerRead == OptionalOwner || IsAdmin(ctx)) && !r.Ok?) ==>
      r == Fail(AccessDenied)
    ensures (ctx.userId.Some? && id in rows && Active(rows[id]) && rows[id].createdBy.None? && !IsAdmin(ctx) &&
             (p.ownerRead == OwnerFirst || (p.ownerRead == PermissionFirst && HasPermission(ctx, p.delete)))) ==>
      r == Fail(MissingOwner)
  {
    if ctx.userId.None? then Fail(NotAuthenticated)
    else if id !in rows || !Active(rows[id]) then Fail(NotFound)
    else
      var a := Allows(ctx, p.delete, rows[id].createdBy, p.ownerRead);
      if a.Fail? then Fail(a.error)
      else if a == Ok(true) || IsSelf(ctx, id) then Ok(ctx.userId.value)
      else Fail(AccessDenied)
  }

  /** As written, a user who signed up (and so has no `createdBy`) cannot read,
      edit or delete their own record through these resolvers unless they are
      admin: the owner is dereferenced before the self clause is reached. */
  lemma SignupUserLockedOut(rows: map<Id, Rec>, ctx: Context, id: Id, updates: Fields)
    requires id in rows && Active(rows[id]) && rows[id].createdBy.None?
    requires ctx.userId == Some(id) && !IsAdmin(ctx)
    ensures UserGet(UserPolicy, rows, ctx, id) == Fail(MissingOwner)
    ensures UserUpdateVerdict(UserPolicy, rows, ctx, id, updates) == Fail(MissingOwner)
    ensures UserDeleteVerdict(UserPolicy, rows, ctx, id) == Fail(MissingOwner)
  {
  }

  /** With the owner read optionally, the self clauses do what they say for
      every user: read and delete one's own record, and edit it as long as
      neither role nor organization is supplied. */
  lemma SelfServiceIntended(rows: map<Id, Rec>, ctx: Context, id: Id, updates: Fields)
    requires id in rows && Active(rows[id]) && ctx.userId == Some(id)
    ensures UserGet(IntendedUserPolicy, rows, ctx, id) == Ok(rows[id])
    ensures UserDeleteVerdict(IntendedUserPolicy, rows, ctx, id) == Ok(id)
    ensures SelfEdit(ctx, id, updates) ==> UserUpdateVerdict(IntendedUserPolicy, rows, ctx, id, updates) == Ok(id)
    ensures !IsAdmin(ctx) && !HasPermission(ctx, UserPolicy.update) && Supplied(updates, "roleId") ==>
      UserUpdateVerdict(IntendedUserPolicy, rows, ctx, id, updates) == Fail(AccessDenied)
  {
  }

  /** `createUser`: the gate, then the email check (which also sees soft-deleted
      users), then the new record with `createdBy` the caller or nothing. */
  method CreateUser(users: Store, ctx: Context, args: Signup, digest: string) returns (r: Outcome<Id>)
    requires UsersValid(users)
    modifies users
    ensures UsersValid(users) && Retains(old(users.rows), users.rows)
    ensures var v := SignupVerdict(users.policy, ctx);
      (v.Fail? ==> r == Fail(v.error) && users.rows == old(users.rows)) &&
      (v.Ok? && EmailTaken(old(users.rows), args.email) ==> r == Fail(EmailInUse) && users.rows == old(users.rows)) &&
      (v.Ok? && !EmailTaken(old(users.rows), args.email) ==>
         r.Ok? && r.value !in old(users.rows) &&
         users.rows == old(users.rows)[r.value := Created(NewUserFields(args, digest), ctx.userId)])
  {
    var v := SignupVerdict(users.policy, ctx);
    if v.Fail? {
      return Fail(v.error);
    }
    if EmailTaken(users.rows, args.email) {
      return Fail(EmailInUse);
    }
    var id := users.Insert(NewUserFields(args, digest), v.value);
    return Ok(id);
  }

  /** `updateUser`: the accepted arguments are merged into the record with `updatedBy`. */
  method UpdateUser(users: Store, ctx: Context, id: Id, updates: Fields) returns (r: Outcome<Rec>)
    requires UsersValid(users) && updates.Keys <= UpdatableFields
    modifies users`rows
    ensures UsersValid(users) && Retains(old(users.rows), users.rows)
    ensures var v := UserUpdateVerdict(users.policy, old(users.rows), ctx, id, updates);
      (v.Fail? ==> r == Fail(v.error) && users.rows == old(users.rows)) &&
      (v.Ok? ==> users.rows == old(users.rows)[id := Revised(old(users.rows)[id],
                                 Merged(old(users.rows)[id].fields, updates), v.value)] &&
                 r == Ok(users.rows[id]))
  {
    var v := UserUpdateVerdict(users.policy, users.rows, ctx, id, updates);
    if v.Fail? {
      return Fail(v.error);
    }
    assert EmailOf(Revised(users.rows[id], Merged(users.rows[id].fields, updates), v.value)) == EmailOf(users.rows[id]);
    var rec := users.Revise(id, Merged(users.rows[id].fields, updates), v.value);
    return Ok(rec);
  }

  /** `deleteUser`: a soft delete answering `true`. */
  method DeleteUser(users: Store, ctx: Context, id: Id, now: Millis) returns (r: Outcome<bool>)
    requires UsersValid(users)
    modifies users`rows
    ensures UsersValid(users) && Retains(old(users.rows), users.rows)
    ensures var v := UserDeleteVerdict(users.policy, old(users.rows), ctx, id);
      (v.Fail? ==> r == Fail(v.error) && users.rows == old(users.rows)) &&
      (v.Ok? ==> users.rows == old(users.rows)[id := Retired(old(users.rows)[id], v.value, now)] && r == Ok(true))
  {
    var v := UserDeleteVerdict(users.policy, users.rows, ctx, id);
    if v.Fail? {
      return Fail(v.error);
    }
    users.Retire(id, v.value, now);
    return Ok(true);
  }
}
