/** The decisions every resource resolver makes before it reads or writes:
    authentication, existence, then admin bypass or permission plus ownership. */
module Gate {
  import opened Values
  import opened Auth
  import opened Lifecycle

  /** The errors a resolver throws. `MissingOwner` is the TypeError raised when a
      resolver calls `createdBy.toString()` on a record whose owner is null. */
  datatype Failure =
    | NotAuthenticated
    | NotFound
    | AccessDenied
    | MissingOwner
    | EmailInUse
    | UserNotFound
    | InvalidCredentials

  /** A resolver's answer: a value, `null`, or a thrown error. */
  datatype Outcome<+T> = Ok(value: T) | Null | Fail(error: Failure)

  /** Whether `list` filters by permission and ownership (`Scoped`) or returns every active row to any signed-in caller. */
  datatype Listing = Scoped | Unfiltered

  /** Whether a denied `get` throws 'Access denied' or answers `null`. */
  datatype Denial = Throws | ReturnsNull

  /** How a resolver reads the owner of a record:
      `OwnerFirst` evaluates `isSelf(ctx, r.createdBy.toString())` before the permission test,
      `PermissionFirst` evaluates it only after the permission test succeeded,
      `OptionalOwner` reads `r.createdBy?.toString()`, so a missing owner owns nothing. */
  datatype OwnerRead = OwnerFirst | PermissionFirst | OptionalOwner

  /** One resource's permission names and its deviations from the common shape. */
  datatype Policy = Policy(
    read: string, create: string, update: string, delete: string,
    listing: Listing, denial: Denial, ownerRead: OwnerRead)

  /** Admin bypass, else `perm` together with ownership of a record owned by `owner`. */
  function Allows(ctx: Context, perm: string, owner: Option<Id>, read: OwnerRead): (r: Outcome<bool>)
    ensures !r.Null?
    ensures IsAdmin(ctx) ==> r == Ok(true)
    ensures owner.Some? ==> r == Ok(IsAdmin(ctx) || (HasPermission(ctx, perm) && IsSelf(ctx, owner.value)))
    ensures r.Fail? <==> !IsAdmin(ctx) && owner.None? &&
                         (read == OwnerFirst || (read == PermissionFirst && HasPermission(ctx, perm)))
    ensures r.Fail? ==> r.error == MissingOwner
    ensures r.Ok? && owner.None? ==> r.value == IsAdmin(ctx)
  {
    if IsAdmin(ctx) then Ok(true)
    else match read
      case OwnerFirst =>
        if owner.None? then Fail(MissingOwner)
        else Ok(HasPermission(ctx, perm) && IsSelf(ctx, owner.value))
      case PermissionFirst =>
        if !HasPermission(ctx, perm) then Ok(false)
        else if owner.None? then Fail(MissingOwner)
        else Ok(IsSelf(ctx, owner.value))
      case OptionalOwner =>
        Ok(HasPermission(ctx, perm) && owner.Some? && IsSelf(ctx, owner.value))
  }

  /** The caller is admin, or holds `perm` and created the record. */
  predicate Entitled(ctx: Context, perm: string, r: Rec) {
    IsAdmin(ctx) || (HasPermission(ctx, perm) && r.createdBy == ctx.userId)
  }

  /** The `find` filter of a list query: active rows, and only those created by `owner` when one is given. */
  function ActiveRows(rows: map<Id, Rec>, owner: Option<Id>): (r: map<Id, Rec>)
    ensures forall i :: i in r ==>
      i in rows && r[i] == rows[i] && Active(rows[i]) && (owner.None? || rows[i].createdBy == owner)
    ensures forall i :: i in rows && Active(rows[i]) && (owner.None? || rows[i].createdBy == owner) ==> i in r
  {
    map i | i in rows && Active(rows[i]) && (owner.None? || rows[i].createdBy == owner) :: rows[i]
  }

  /** A `list` query: an admin (or anyone, for an unfiltered resource) sees every
      active row, a holder of the read permission the active rows they created,
      anyone else an empty list; soft-deleted rows are never listed. */
  function ListRows(p: Policy, rows: map<Id, Rec>, ctx: Context): (r: Outcome<map<Id, Rec>>)
    ensures !r.Null?
    ensures r.Fail? <==> ctx.userId.None?
    ensures r.Fail? ==> r.error == NotAuthenticated
    ensures r.Ok? ==> forall i :: i in r.value ==> i in rows && Active(rows[i]) && r.value[i] == rows[i]
    ensures r.Ok? && (IsAdmin(ctx) || p.listing == Unfiltered) ==>
      forall i :: i in rows && Active(rows[i]) ==> i in r.value
    ensures r.Ok? && p.listing == Scoped && !IsAdmin(ctx) ==>
      forall i :: i in r.value <==>
        i in rows && Active(rows[i]) && HasPermission(ctx, p.read) && rows[i].createdBy == ctx.userId
  {
    if ctx.userId.None? then Fail(NotAuthenticated)
    else if IsAdmin(ctx) || p.listing == Unfiltered then Ok(ActiveRows(rows, None))
    else if HasPermission(ctx, p.read) then Ok(ActiveRows(rows, ctx.userId))
    else Ok(map[])
  }

  /** The answer to a caller who is not allowed to see a record. */
  function Denied<T>(p: Policy): Outcome<T> {
    if p.denial == Throws then Fail(AccessDenied) else Null
  }

  /** A `get` query: `null` for a missing or soft-deleted record (even for an admin),
      the record for an admin or an owner holding the read permission, and
      otherwise the resource's denial. */
  function GetRow(p: Policy, rows: map<Id, Rec>, ctx: Context, id: Id): (r: Outcome<Rec>)
    ensures ctx.userId.None? ==> r == Fail(NotAuthenticated)
    ensures ctx.userId.Some? && (id !in rows || !Active(rows[id])) ==> r == Null
    ensures r.Ok? ==> id in rows && Active(rows[id]) && r.value == rows[id] && Entitled(ctx, p.read, rows[id])
    ensures ctx.userId.Some? && id in rows && Active(rows[id]) && Entitled(ctx, p.read, rows[id]) ==>
      r == Ok(rows[id])
    ensures (ctx.userId.Some? && id in rows && Active(rows[id]) && rows[id].createdBy.Some? &&
             !Entitled(ctx, p.read, rows[id])) ==>
      r == (if p.denial == Throws then Fail(AccessDenied) else Null)
    ensures (ctx.userId.Some? && id in rows && Active(rows[id]) && rows[id].createdBy.None? && !IsAdmin(ctx)) ==>
      r == (if p.ownerRead == OwnerFirst || (p.ownerRead == PermissionFirst && HasPermission(ctx, p.read))
            then Fail(MissingOwner)
            else if p.denial == Throws then Fail(AccessDenied) else Null)
    ensures r.Fail? ==> r.error in {NotAuthenticated, AccessDenied, MissingOwner}
    ensures r.Fail? && r.error == MissingOwner ==> id in rows && rows[id].createdBy.None?
  {
    if ctx.userId.None? then Fail(NotAuthenticated)
    else if id !in rows || !Active(rows[id]) then Null
    else
      var a := Allows(ctx, p.read, rows[id].createdBy, p.ownerRead);
      if a.Fail? then Fail(a.error)
      else if a == Ok(true) then Ok(rows[id])
      else Denied(p)
  }

  /** The checks of a `create` mutation; on success, the caller who becomes `createdBy`. */
  function CreateVerdict(p: Policy, ctx: Context): (r: Outcome<Id>)
    ensures !r.Null?
    ensures r.Ok? <==> ctx.userId.Some? && (IsAdmin(ctx) || HasPermission(ctx, p.create))
    ensures r.Ok? ==> ctx.userId == Some(r.value)
    ensures r.Fail? ==> r.error == (if ctx.userId.None? then NotAuthenticated else AccessDenied)
  {
    if ctx.userId.None? then Fail(NotAuthenticated)
    else if IsAdmin(ctx) || HasPermission(ctx, p.create) then Ok(ctx.userId.value)
    else Fail(AccessDenied)
  }

  /** The checks of an `update` or `delete` mutation under permission `perm`:
      existence is tested before any permission, so a missing or soft-deleted
      record is 'Not found' even for a caller without rights; on success, the
      caller who is stamped as `updatedBy` or `deletedBy`. */
  function MutationVerdict(p: Policy, rows: map<Id, Rec>, ctx: Context, id: Id, perm: string): (r: Outcome<Id>)
    ensures !r.Null?
    ensures ctx.userId.None? ==> r == Fail(NotAuthenticated)
    ensures ctx.userId.Some? && (id !in rows || !Active(rows[id])) ==> r == Fail(NotFound)
    ensures r.Ok? ==>
      ctx.userId == Some(r.value) && id in rows && Active(rows[id]) && Entitled(ctx, perm, rows[id])
    ensures ctx.userId.Some? && id in rows && Active(rows[id]) && Entitled(ctx, perm, rows[id]) ==> r.Ok?
    ensures (ctx.userId.Some? && id in rows && Active(rows[id]) && rows[id].createdBy.Some? &&
             !Entitled(ctx, perm, rows[id])) ==>
      r == Fail(AccessDenied)
    ensures (ctx.userId.Some? && id in rows && Active(rows[id]) && rows[id].createdBy.None? && !IsAdmin(ctx)) ==>
      r == (if p.ownerRead == OwnerFirst || (p.ownerRead == PermissionFirst && HasPermission(ctx, perm))
            then Fail(MissingOwner) else Fail(AccessDenied))
    ensures r.Fail? && r.error == MissingOwner ==> id in rows && rows[id].createdBy.None?
  {
    if ctx.userId.None? then Fail(NotAuthenticated)
    else if id !in rows || !Active(rows[id]) then Fail(NotFound)
    else
      var a := Allows(ctx, perm, rows[id].createdBy, p.ownerRead);
      if a.Fail? then Fail(a.error)
      else if a == Ok(true) then Ok(ctx.userId.value)
      else Fail(AccessDenied)
  }

  /** Every record a resource can hold has an owner (all creates stamp the
      caller), and for such records the three ways of reading the owner decide
      alike: the optional read and the permission-first order change nothing. */
  lemma OwnerReadsAgree(ctx: Context, perm: string, owner: Id)
    ensures Allows(ctx, perm, Some(owner), OwnerFirst) == Allows(ctx, perm, Some(owner), PermissionFirst)
    ensures Allows(ctx, perm, Some(owner), OwnerFirst) == Allows(ctx, perm, Some(owner), OptionalOwner)
  {
  }

  /** A soft-deleted record is gone for every caller, the admin included:
      it is never listed, `get` answers `null`, and mutations answer 'Not found'. */
  lemma DeletedIsInvisible(p: Policy, rows: map<Id, Rec>, ctx: Context, id: Id, perm: string)
    requires ctx.userId.Some? && id in rows && !Active(rows[id])
    ensures ListRows(p, rows, ctx).Ok? && id !in ListRows(p, rows, ctx).value
    ensures GetRow(p, rows, ctx, id) == Null
    ensures MutationVerdict(p, rows, ctx, id, perm) == Fail(NotFound)
  {
  }

  /** For a signed-in caller without the read permission, `list` answers an
      empty list while `get` on an owned record denies: an empty list is not an error. */
  lemma ListEmptyButGetDenied(p: Policy, rows: map<Id, Rec>, ctx: Context, id: Id)
    requires p.listing == Scoped && p.denial == Throws
    requires ctx.userId.Some? && !IsAdmin(ctx) && !HasPermission(ctx, p.read)
    requires id in rows && Active(rows[id]) && rows[id].createdBy.Some?
    ensures ListRows(p, rows, ctx) == Ok(map[])
    ensures GetRow(p, rows, ctx, id) == Fail(AccessDenied)
  {
  }
}
