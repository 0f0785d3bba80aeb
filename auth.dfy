/** The three policy predicates every resolver is built from (admin role,
    named permission, self), over the request context the server builds. */
module Auth {
  import opened Values

  /** A permission as it appears in the context: its id and its `name`. */
  datatype PermissionView = PermissionView(id: Id, name: Value)

  /** The caller's role, with its permissions populated. */
  datatype RoleView = RoleView(id: Id, name: Value, permissions: seq<PermissionView>)

  /** `context.permissions`: the server always puts an array here, but the
      predicate also guards against a missing value or one that is not an array. */
  datatype PermissionList = Absent | NotAnArray | Entries(items: seq<PermissionView>)

  /** The request context: anonymous when `userId` is `None`. */
  datatype Context = Context(
    userId: Option<Id>,
    token: Option<string>,
    role: Option<RoleView>,
    permissions: PermissionList)

  const AdminRoleName: string := "Admin"

  /** The role name is exactly "Admin" (case-sensitive); no role is never admin. */
  predicate IsAdmin(ctx: Context)
    ensures ctx.role.None? ==> !IsAdmin(ctx)
  {
    ctx.role.Some? && ctx.role.value.name == Text(AdminRoleName)
  }

  /** Some entry of `items` carries exactly `name`. */
  predicate Grants(items: seq<PermissionView>, name: string) {
    exists i :: 0 <= i < |items| && items[i].name == Text(name)
  }

  /** The context holds a permission entry named `name`; false when the list is absent or malformed. */
  predicate HasPermission(ctx: Context, name: string)
    ensures !ctx.permissions.Entries? ==> !HasPermission(ctx, name)
    ensures HasPermission(ctx, name) <==> ctx.permissions.Entries? && Text(name) in Names(ctx.permissions.items)
  {
    match ctx.permissions
    case Entries(items) => GrantsIsMembership(items, name); Grants(items, name)
    case _ => false
  }

  /** The caller is the user `target`. */
  predicate IsSelf(ctx: Context, target: Id)
    ensures IsSelf(ctx, target) ==> ctx.userId.Some? && ctx.userId.value == target
    ensures ctx.userId.None? ==> !IsSelf(ctx, target)
  {
    ctx.userId == Some(target)
  }

  /** The names carried by a permission list, regardless of order and repetition. */
  function Names(items: seq<PermissionView>): set<Value> {
    set i | 0 <= i < |items| :: items[i].name
  }

  /** `hasPermission` is membership of the name in the set of names. */
  lemma {:induction false} GrantsIsMembership(items: seq<PermissionView>, name: string)
    ensures Grants(items, name) <==> Text(name) in Names(items)
  {
    if Text(name) in Names(items) {
      var i :| 0 <= i < |items| && items[i].name == Text(name);
      assert Grants(items, name);
    }
  }

  /** Enlarging the set of names never revokes a permission: two lists whose
      names are ordered by inclusion decide every permission accordingly,
      so order and duplicates in the role's permission array do not matter. */
  lemma {:induction false} GrantsMonotone(a: seq<PermissionView>, b: seq<PermissionView>, name: string)
    requires Names(a) <= Names(b)
    ensures Grants(a, name) ==> Grants(b, name)
  {
    GrantsIsMembership(a, name);
    GrantsIsMembership(b, name);
  }

  /** With no role and an empty permission array, nothing is granted: the
      anonymous context and the context of a user without a role are powerless. */
  lemma NoRoleNoPower(ctx: Context)
    requires ctx.role.None? && ctx.permissions == Entries([])
    ensures !IsAdmin(ctx)
    ensures forall name :: !HasPermission(ctx, name)
  {
  }

  /** The admin test compares the exact string: a role named `n` is admin
      exactly when `n` is "Admin", so a role named "admin" is not admin. */
  lemma {:induction false} AdminIsCaseSensitive(ctx: Context, n: string)
    requires ctx.role.Some? && ctx.role.value.name == Text(n)
    ensures IsAdmin(ctx) <==> n == AdminRoleName
    ensures n == "admin" ==> !IsAdmin(ctx)
  {
    assert "admin"[0] != AdminRoleName[0];
  }
}
