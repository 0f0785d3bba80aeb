/** The resources that share the common gate, each with its policy, and the
    deviations some of them make from the common create and update shape. */
module Resources {
  import opened Values
  import opened Auth
  import opened Lifecycle
  import opened Gate
  import opened Stores
  import opened Identity

  const Violations := Policy("READ_VIOLATIONS", "CREATE_VIOLATIONS", "UPDATE_VIOLATIONS", "DELETE_VIOLATIONS",
                             Scoped, Throws, OwnerFirst)
  const RiskScores := Policy("READ_RISK_SCORES", "CREATE_RISK_SCORES", "UPDATE_RISK_SCORES", "DELETE_RISK_SCORES",
                             Scoped, Throws, OwnerFirst)
  const ComplianceRules := Policy("READ_COMPLIANCE_RULE", "CREATE_COMPLIANCE_RULE", "UPDATE_COMPLIANCE_RULE",
                                  "DELETE_COMPLIANCE_RULE", Scoped, Throws, PermissionFirst)
  const Integrations := Policy("READ_INTEGRATIONS", "CREATE_INTEGRATIONS", "UPDATE_INTEGRATIONS", "DELETE_INTEGRATIONS",
                               Scoped, Throws, OwnerFirst)
  const Tasks := Policy("READ_TASKS", "CREATE_TASKS", "UPDATE_TASKS", "DELETE_TASKS", Scoped, Throws, OwnerFirst)
  const Settings := Policy("READ_SETTINGS", "CREATE_SETTINGS", "UPDATE_SETTINGS", "DELETE_SETTINGS",
                           Scoped, Throws, OwnerFirst)
  /** The filtered branches of the organization list are commented out. */
  const Organizations := Policy("READ_ORGANIZATIONS", "CREATE_ORGANIZATIONS", "UPDATE_ORGANIZATIONS",
                                "DELETE_ORGANIZATIONS", Unfiltered, Throws, OwnerFirst)
  const Roles := Policy("READ_ROLES", "CREATE_ROLES", "UPDATE_ROLES", "DELETE_ROLES", Scoped, Throws, OwnerFirst)
  const Permissions := Policy("READ_PERMISSIONS", "CREATE_PERMISSIONS", "UPDATE_PERMISSIONS", "DELETE_PERMISSIONS",
                              Scoped, Throws, OwnerFirst)
  const Alerts := Policy("READ_ALERT", "CREATE_ALERT", "UPDATE_ALERT", "DELETE_ALERT",
                         Scoped, ReturnsNull, PermissionFirst)
  const AuditLogs := Policy("READ_AUDIT_LOG", "CREATE_AUDIT_LOG", "UPDATE_AUDIT_LOG", "DELETE_AUDIT_LOG",
                            Scoped, Throws, OptionalOwner)
  const Documents := Policy("READ_DOCUMENTS", "CREATE_DOCUMENTS", "UPDATE_DOCUMENTS", "DELETE_DOCUMENTS",
                            Scoped, Throws, OwnerFirst)

  /** The four permission names a resolver file tests: the action, an underscore, then the resource's noun. */
  predicate NamedFor(p: Policy, noun: string) {
    p.read == "READ_" + noun && p.create == "CREATE_" + noun &&
    p.update == "UPDATE_" + noun && p.delete == "DELETE_" + noun
  }

  /** The gate of the violation resolvers. */
  lemma ViolationsGate()
    ensures NamedFor(Violations, "VIOLATIONS")
    ensures Violations.listing == Scoped && Violations.denial == Throws && Violations.ownerRead == OwnerFirst
  {
  }

  /** The gate of the risk-score resolvers. */
  lemma RiskScoresGate()
    ensures NamedFor(RiskScores, "RISK_SCORES")
    ensures RiskScores.listing == Scoped && RiskScores.denial == Throws && RiskScores.ownerRead == OwnerFirst
  {
  }

  /** The gate of the compliance-rule resolvers, which read the owner only after the permission test. */
  lemma ComplianceRulesGate()
    ensures NamedFor(ComplianceRules, "COMPLIANCE_RULE")
    ensures ComplianceRules.listing == Scoped && ComplianceRules.denial == Throws && ComplianceRules.ownerRead == PermissionFirst
  {
  }

  /** The gate of the integration resolvers. */
  lemma IntegrationsGate()
    ensures NamedFor(Integrations, "INTEGRATIONS")
    ensures Integrations.listing == Scoped && Integrations.denial == Throws && Integrations.ownerRead == OwnerFirst
  {
  }

  /** The gate of the task resolvers. */
  lemma TasksGate()
    ensures NamedFor(Tasks, "TASKS")
    ensures Tasks.listing == Scoped && Tasks.denial == Throws && Tasks.ownerRead == OwnerFirst
  {
  }

  /** The gate of the setting resolvers. */
  lemma SettingsGate()
    ensures NamedFor(Settings, "SETTINGS")
    ensures Settings.listing == Scoped && Settings.denial == Throws && Settings.ownerRead == OwnerFirst
  {
  }

  /** The gate of the organization resolvers, whose list has its filters commented out. */
  lemma OrganizationsGate()
    ensures NamedFor(Organizations, "ORGANIZATIONS")
    ensures Organizations.listing == Unfiltered && Organizations.denial == Throws && Organizations.ownerRead == OwnerFirst
  {
  }

  /** The gate of the role resolvers. */
  lemma RolesGate()
    ensures NamedFor(Roles, "ROLES")
    ensures Roles.listing == Scoped && Roles.denial == Throws && Roles.ownerRead == OwnerFirst
  {
  }

  /** The gate of the permission resolvers. */
  lemma PermissionsGate()
    ensures NamedFor(Permissions, "PERMISSIONS")
    ensures Permissions.listing == Scoped && Permissions.denial == Throws && Permissions.ownerRead == OwnerFirst
  {
  }

  /** The gate of the alert resolvers, whose denied `get` answers `null`. */
  lemma AlertsGate()
    ensures NamedFor(Alerts, "ALERT")
    ensures Alerts.listing == Scoped && Alerts.denial == ReturnsNull && Alerts.ownerRead == PermissionFirst
  {
  }

  /** The gate of the audit-log resolvers, which read the owner with `?.`. */
  lemma AuditLogsGate()
    ensures NamedFor(AuditLogs, "AUDIT_LOG")
    ensures AuditLogs.listing == Scoped && AuditLogs.denial == Throws && AuditLogs.ownerRead == OptionalOwner
  {
  }

  /** The gate of the document resolvers. */
  lemma DocumentsGate()
    ensures NamedFor(Documents, "DOCUMENTS")
    ensures Documents.listing == Scoped && Documents.denial == Throws && Documents.ownerRead == OwnerFirst
  {
  }

  /** `{ ...input, updatedBy }` applied by `findByIdAndUpdate`: every supplied
      field is overwritten, every other field is kept. */
  function Merged(current: Fields, input: Fields): (r: Fields)
    ensures forall k :: k in r <==> k in current || k in input
    ensures forall k :: k in input ==> r[k] == input[k]
    ensures forall k :: k in current && k !in input ==> r[k] == current[k]
  {
    current + input
  }

  /** The generic update edit: merge the mutation's input into the record. */
  function MergeEdit(input: Fields): (e: (Id, Fields) -> Fields)
    ensures forall id, current :: e(id, current) == Merged(current, input)
  {
    (id: Id, current: Fields) => Merged(current, input)
  }

  /** The fields `updateViolation` writes: `status` and `resolutionNote` when
      supplied (an argument left out is `undefined` and not written), nothing else. */
  function ViolationChanges(status: Option<Value>, resolutionNote: Option<Value>): (r: Fields)
    ensures r.Keys <= {"status", "resolutionNote"}
    ensures ("status" in r <==> status.Some?) && (status.Some? ==> r["status"] == status.value)
    ensures ("resolutionNote" in r <==> resolutionNote.Some?) &&
            (resolutionNote.Some? ==> r["resolutionNote"] == resolutionNote.value)
  {
    (if status.Some? then map["status" := status.value] else map[]) +
    (if resolutionNote.Some? then map["resolutionNote" := resolutionNote.value] else map[])
  }

  /** `updateViolation` never changes a field other than its two arguments. */
  lemma ViolationUpdateKeepsOtherFields(current: Fields, status: Option<Value>, resolutionNote: Option<Value>, k: string)
    requires k in current && k != "status" && k != "resolutionNote"
    ensures Merged(current, ViolationChanges(status, resolutionNote))[k] == current[k]
  {
  }

  /** `new Date(input.calculatedAt)`: `null` becomes the epoch; other values are
      converted by the database layer and kept as supplied here. */
  function AsDate(v: Value): Value {
    if v == Nil then Instant(0) else v
  }

  /** The payload `createRiskScore` saves: the input with `calculatedAt` set to
      the supplied value when the argument is present at all, else to `now`. */
  function RiskScoreDraft(input: Fields, now: Millis): (r: Fields)
    ensures r.Keys == input.Keys + {"calculatedAt"}
    ensures "calculatedAt" !in input ==> r["calculatedAt"] == Instant(now)
    ensures "calculatedAt" in input && input["calculatedAt"] == Nil ==> r["calculatedAt"] == Instant(0)
    ensures "calculatedAt" in input && input["calculatedAt"] != Nil ==> r["calculatedAt"] == input["calculatedAt"]
    ensures forall k :: k in input && k != "calculatedAt" ==> r[k] == input[k]
  {
    input["calculatedAt" := if "calculatedAt" in input then AsDate(input["calculatedAt"]) else Instant(now)]
  }

  /** The payload `createAuditLog` saves: the input with `timestamp` kept when it
      is truthy and set to `now` otherwise (a missing, null or empty value). */
  function AuditLogDraft(input: Fields, now: Millis): (r: Fields)
    ensures r.Keys == input.Keys + {"timestamp"}
    ensures r["timestamp"] == if Supplied(input, "timestamp") then input["timestamp"] else Instant(now)
    ensures Truthy(r["timestamp"])
    ensures forall k :: k in input && k != "timestamp" ==> r[k] == input[k]
  {
    input["timestamp" := if Supplied(input, "timestamp") then input["timestamp"] else Instant(now)]
  }

  /** The two defaults test different things: an explicit `null` gives the
      risk score the epoch but the audit log the current time, and an empty
      string is replaced by the audit log. */
  lemma DefaultsDiffer(now: Millis)
    ensures RiskScoreDraft(map["calculatedAt" := Nil], now)["calculatedAt"] == Instant(0)
    ensures AuditLogDraft(map["timestamp" := Nil], now)["timestamp"] == Instant(now)
    ensures AuditLogDraft(map["timestamp" := Text("")], now)["timestamp"] == Instant(now)
  {
  }

  /** `Role.permissions`: the permissions whose id is in the role's id list,
      soft-deleted ones included; ids that name no permission contribute nothing. */
  function RolePermissions(ids: seq<Id>, perms: map<Id, Rec>): (r: map<Id, Rec>)
    ensures forall i :: i in r <==> i in perms && i in ids
    ensures forall i :: i in r ==> r[i] == perms[i]
  {
    map i | i in perms && i in ids :: perms[i]
  }

  /** `Role.permissions` shows exactly the names the request context grants:
      the names of the joined permissions are the names of the role's
      permission ids that name an existing permission. */
  lemma {:induction false} RolePermissionsMatchContext(ids: seq<Id>, perms: map<Id, Rec>)
    ensures var joined := RolePermissions(ids, perms);
      (set i | i in joined :: Field(joined[i].fields, "name")) == FoundNames(ids, perms)
  {
    var joined := RolePermissions(ids, perms);
    forall v | v in FoundNames(ids, perms) ensures v in (set i | i in joined :: Field(joined[i].fields, "name")) {
      var j :| 0 <= j < |ids| && ids[j] in perms && Field(perms[ids[j]].fields, "name") == v;
      assert ids[j] in joined;
    }
    forall v | v in (set i | i in joined :: Field(joined[i].fields, "name")) ensures v in FoundNames(ids, perms) {
      var i :| i in joined && Field(joined[i].fields, "name") == v;
      var j :| 0 <= j < |ids| && ids[j] == i;
      assert ids[j] in perms && Field(perms[ids[j]].fields, "name") == v;
    }
  }

  /** Organizations are listed to every signed-in caller, while reading one of
      them still needs admin or the read permission and ownership. */
  lemma OrganizationListIsUnfiltered(rows: map<Id, Rec>, ctx: Context, id: Id)
    requires ctx.userId.Some? && !IsAdmin(ctx) && !HasPermission(ctx, Organizations.read)
    requires id in rows && Active(rows[id]) && rows[id].createdBy.Some?
    ensures ListRows(Organizations, rows, ctx).Ok? && id in ListRows(Organizations, rows, ctx).value
    ensures GetRow(Organizations, rows, ctx, id) == Fail(AccessDenied)
  {
  }

  /** A caller who may not read an alert is answered `null`, exactly as for a
      missing alert; without the read permission this holds even for an alert
      with no owner, since the owner is read only after the permission test. */
  lemma DeniedAlertIsNull(rows: map<Id, Rec>, ctx: Context, id: Id)
    requires ctx.userId.Some? && id in rows && Active(rows[id])
    requires !Entitled(ctx, Alerts.read, rows[id])
    requires rows[id].createdBy.Some? || !HasPermission(ctx, Alerts.read)
    ensures GetRow(Alerts, rows, ctx, id) == Null
  {
  }

  /** An audit log without an owner is simply not owned: a non-admin is denied
      and never meets the error that the other resources raise on such records. */
  lemma OwnerlessAuditLogIsDenied(rows: map<Id, Rec>, ctx: Context, id: Id, perm: string)
    requires ctx.userId.Some? && !IsAdmin(ctx)
    requires id in rows && Active(rows[id]) && rows[id].createdBy.None?
    ensures GetRow(AuditLogs, rows, ctx, id) == Fail(AccessDenied)
    ensures MutationVerdict(AuditLogs, rows, ctx, id, perm) == Fail(AccessDenied)
    ensures MutationVerdict(Violations, rows, ctx, id, perm) == Fail(MissingOwner)
  {
  }

  /** `updateViolation`: the common update gate, writing only the two fields. */
  method UpdateViolation(s: Store, ctx: Context, id: Id, status: Option<Value>, resolutionNote: Option<Value>)
    returns (r: Outcome<Rec>)
    requires s.Valid() && s.policy == Violations
    modifies s`rows
    ensures s.Valid() && Retains(old(s.rows), s.rows)
    ensures var v := MutationVerdict(Violations, old(s.rows), ctx, id, Violations.update);
      (v.Fail? ==> r == Fail(v.error) && s.rows == old(s.rows)) &&
      (v.Ok? ==> s.rows == old(s.rows)[id := Revised(old(s.rows)[id],
                   Merged(old(s.rows)[id].fields, ViolationChanges(status, resolutionNote)), v.value)] &&
                 r == Ok(s.rows[id]))
  {
    r := s.Update(ctx, id, MergeEdit(ViolationChanges(status, resolutionNote)));
  }

  /** `createRiskScore`: the common create gate with the `calculatedAt` default. */
  method CreateRiskScore(s: Store, ctx: Context, input: Fields, now: Millis) returns (r: Outcome<Id>)
    requires s.Valid() && s.policy == RiskScores
    modifies s
    ensures s.Valid() && Retains(old(s.rows), s.rows)
    ensures var v := CreateVerdict(RiskScores, ctx);
      (v.Fail? ==> r == Fail(v.error) && s.rows == old(s.rows)) &&
      (v.Ok? ==> r.Ok? && r.value !in old(s.rows) &&
                 s.rows == old(s.rows)[r.value := Created(RiskScoreDraft(input, now), Some(v.value))])
  {
    r := s.Create(ctx, (caller: Id) => RiskScoreDraft(input, now));
  }

  /** `createAuditLog`: the common create gate with the `timestamp` default. */
  method CreateAuditLog(s: Store, ctx: Context, input: Fields, now: Millis) returns (r: Outcome<Id>)
    requires s.Valid() && s.policy == AuditLogs
    modifies s
    ensures s.Valid() && Retains(old(s.rows), s.rows)
    ensures var v := CreateVerdict(AuditLogs, ctx);
      (v.Fail? ==> r == Fail(v.error) && s.rows == old(s.rows)) &&
      (v.Ok? ==> r.Ok? && r.value !in old(s.rows) &&
                 s.rows == old(s.rows)[r.value := Created(AuditLogDraft(input, now), Some(v.value))])
  {
    r := s.Create(ctx, (caller: Id) => AuditLogDraft(input, now));
  }
}
