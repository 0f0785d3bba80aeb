# Session and authorization kernel of the FinSense API

A Dafny model of the part of the FinSense GraphQL API that decides **who the
caller is** and **what the caller may do**. It covers:

- the three policy predicates (`isAdmin`, `hasPermission`, `isSelf`);
- the per-request identity pipeline (`createContext`): bearer-token
  extraction, the revocation store, token verification, the user lookup, and
  role and permission resolution;
- the session lifecycle: `login` issues a seven-day token, `logout` revokes
  it until its expiry, and the database's TTL monitor purges revocations;
- the gate that every resource resolver repeats, stated once. `list`, `get`,
  `create`, `update` and `delete` run over a collection of records carrying
  `createdBy`, `updatedBy`, `deletedBy` and `deletedAt`. Each resource differs
  in its permission names and a few flags:
  - the organization list is unfiltered;
  - a denied alert `get` answers `null`;
  - an audit log's owner is read with `?.`;
  - compliance rules and alerts read the owner only after the permission test.
- the deviations specific to single resources:
  - users: self-service, public signup, unique emails;
  - documents: version bump on re-upload;
  - violations: the two-field update;
  - risk scores and audit logs: the default timestamps;
  - roles: the permission join.
- the client's Redux `auth` slice and its two selectors, which mirror the
  server's predicates.

## Layout

| file | module | contents |
|---|---|---|
| values.dfy | `Values` | `Option`, ids, the JavaScript-like field `Value` with truthiness, payload maps |
| auth.dfy | `Auth` | the request `Context`, `IsAdmin`, `HasPermission`, `IsSelf`, and lemmas about them |
| lifecycle.dfy | `Lifecycle` | the record `Rec`, its audit stamps, and the `Retains` relation between stores |
| gate.dfy | `Gate` | outcomes, resource `Policy`, and the pure decisions `Allows`, `ListRows`, `GetRow`, `CreateVerdict`, `MutationVerdict` |
| store.dfy | `Stores` | class `Store`: one collection, updated in place by the gated mutations |
| tokens.dfy | `Tokens` | token claims, issue and verification against the clock, class `Revocations` |
| identity.dfy | `Identity` | bearer extraction, permission population, role resolution, and the method `CreateContext` |
| resources.dfy | `Resources` | the policy of each resource, the merge of updates, the violation, risk-score, audit-log and role specifics |
| documents.dfy | `Documents` | document creation and versioned update |
| users.dfy | `Users` | user queries and mutations, signup, and unique emails |
| session.dfy | `Session` | `login` and `logout` |
| auth_slice.dfy | `AuthSlice` | the client `State` class and its selectors |

### Abstractions

- **Records.** A record is a payload `map<string, Value>` plus the audit fields.
  The GraphQL input types carry no audit field, so a payload never touches
  one. The store is a `map<Id, Rec>`. A counter stands in for the database's
  supply of fresh ObjectIds.
- **Errors.** A thrown error is `Fail(…)` over an error kind. The message
  strings are not modelled. Messages that differ only in wording share a
  kind: the alerts' 'Alert not found' is `NotFound`, like every other
  resolver's 'Not found'.
  `MissingOwner` is the TypeError thrown by `createdBy.toString()` when
  `createdBy` is null.
- **Tokens.** The token codec is a pair of functions, `sign` and `decode`,
  described only by the fact that a signature decodes to its claims. The
  clock is a millisecond parameter. The token library reads it in whole
  seconds (`now / 1000`).
- **Passwords.** bcrypt is a parameter: `CreateUser` receives the digest, and
  `Login` receives the comparison as a function.
- **Uploads.** File storage and hashing are left out. `updateDocument` and
  `createDocument` receive the stored file's digest and URL.
- **Relation joins.** Mongoose's `populate` and `find({_id: {$in: …}})` are
  modelled as functions over the referenced collection.

### Where the documented design and the code differ (the model follows the code)

- `login` distinguishes an unknown or soft-deleted email (`UserNotFound`) from
  a wrong password (`InvalidCredentials`).
- A revoked token is refused with its own message, not the collapsed
  'Invalid or expired token'.
- `createContext` does not check the user's `deletedAt`, and a soft-deleted
  role still resolves, with its permissions.
- The organization list ignores both admin status and `READ_ORGANIZATIONS`.
  The filtering branches are commented out.
- A re-uploaded document's `previousVersionId` is the document's own id. The
  update happens in place, so no earlier version is kept.
- A second `logout` with an already revoked token never reaches the
  resolver. The request context refuses the token first.
- Public signup stores the `roleId` the applicant chooses. No code restricts it.

## Model

| member | source | states |
|---|---|---|
| Auth.IsAdmin | apps/api/src/app/utils/auth.ts:1-3 | a role is present and its name is exactly the string "Admin"; without a role the caller is never admin |
| Auth.HasPermission | apps/api/src/app/utils/auth.ts:5-11 | false when the permission list is absent or not an array; otherwise true exactly when the name is among the entries' names |
| Auth.IsSelf | apps/api/src/app/utils/auth.ts:13-15 | the caller's id equals the target id; an anonymous caller is nobody |
| Auth.GrantsIsMembership | apps/api/src/app/utils/auth.ts:5-11 | the permission test holds exactly when the name is in the set of the entries' names |
| Auth.GrantsMonotone | apps/api/src/app/utils/auth.ts:9 | a list whose names include another's grants every permission the other grants, so order and duplicates do not matter and adding entries never revokes |
| Auth.NoRoleNoPower | apps/api/src/app/utils/auth.ts:1-11 | with no role and an empty permission array the caller is not admin and holds no permission |
| Auth.AdminIsCaseSensitive | apps/api/src/app/utils/auth.ts:1-3 | for every name, a role with that name is admin exactly when the name is "Admin"; in particular "admin" is not |
| Lifecycle.StampsKeepShape | apps/api/src/app/resolvers/document.resolver.ts:229-263 | creation, update and soft delete keep `deletedBy` and `deletedAt` paired; update keeps the owner and the deletion state; soft delete ends the active state and keeps payload and owner |
| Lifecycle.RetainsTransitive | apps/api/src/app/resolvers/document.resolver.ts:257-261 | no sequence of operations removes a record or revives a deleted one |
| Gate.Allows | apps/api/src/app/resolvers/document.resolver.ts:47-58 | admin passes; for an owned record the decision is admin or (permission and caller is owner); it throws exactly when a non-admin meets a null owner under the first-read or permission-first order (with the permission held) |
| Gate.ActiveRows | apps/api/src/app/resolvers/document.resolver.ts:32-35 | the `find` filter: exactly the stored rows without `deletedAt` (and created by the given owner, when one is given), unchanged |
| Gate.ListRows | apps/api/src/app/resolvers/document.resolver.ts:22-39 | anonymous callers are refused; only active stored rows are listed; admins, and every caller of an unfiltered resource, get all active rows; otherwise exactly the active rows the caller created, and only with the read permission |
| Gate.GetRow | apps/api/src/app/resolvers/document.resolver.ts:41-59 | anonymous callers are refused; a missing or soft-deleted record is `null`; a record is returned if and only if the caller is entitled; an owned record denied to the caller gives the resource's denial (error or `null`); for a non-admin on a record with a null owner, the owner error when the owner is read first (or after a granted permission), and otherwise the resource's denial; the owner error arises only for a null owner |
| Gate.CreateVerdict | apps/api/src/app/resolvers/document.resolver.ts:78-82 | creation succeeds exactly for a signed-in admin or holder of the create permission; the caller becomes the owner; otherwise 'Not authenticated' or 'Access denied' |
| Gate.MutationVerdict | apps/api/src/app/resolvers/document.resolver.ts:160-174 | 'Not found' for a missing or deleted record, before any permission check; success exactly for an entitled caller, who is the stamped actor; 'Access denied' for an owned record otherwise; for a non-admin on a record with a null owner, the owner error when the owner is read first (or after a granted permission), and otherwise 'Access denied' |
| Gate.OwnerReadsAgree | apps/api/src/app/resolvers/audit-log.resolver.ts:32-35 | for a record with an owner, the three ways of reading the owner decide alike |
| Gate.DeletedIsInvisible | apps/api/src/app/resolvers/document.resolver.ts:26-45 | a soft-deleted record is never listed, `get` answers `null` and mutations answer 'Not found', for every caller including admins |
| Gate.ListEmptyButGetDenied | apps/api/src/app/resolvers/document.resolver.ts:30-58 | without the read permission, `list` answers an empty list while `get` on an owned record throws |
| Stores.Store.Insert | apps/api/src/app/resolvers/violation.resolver.ts:59-64 | a record is added under a fresh id with its creator and no other stamps; the rest of the store is unchanged |
| Stores.Store.Save | apps/api/src/app/resolvers/user.resolver.ts:190-191 | the new payload is written into an active record; its audit fields are unchanged |
| Stores.Store.Revise | apps/api/src/app/resolvers/risk-score.resolver.ts:79-83 | only the targeted record changes: new payload and `updatedBy` |
| Stores.Store.Retire | apps/api/src/app/resolvers/risk-score.resolver.ts:110-114 | only the targeted record changes: `deletedBy` and `deletedAt` are set together |
| Stores.Store.Create | apps/api/src/app/resolvers/violation.resolver.ts:52-65 | a refused create changes nothing; an accepted one adds exactly one fresh record owned by the caller, whatever the input says |
| Stores.Store.Update | apps/api/src/app/resolvers/risk-score.resolver.ts:71-100 | a refused update changes nothing; an accepted one rewrites exactly that record with `updatedBy` the caller; the store stays well-formed and nothing deleted changes |
| Stores.Store.Delete | apps/api/src/app/resolvers/risk-score.resolver.ts:102-131 | a refused delete changes nothing; an accepted one stamps exactly that record and answers true; the record stays stored |
| Tokens.Issue | apps/api/src/app/resolvers/user.resolver.ts:11-12 | the claims carry the user id, the issue second of `now`, and an expiry seven days later |
| Tokens.Verify | apps/api/src/app/context.ts:24 | claims are returned exactly for a token that decodes and whose expiry second lies after the current second |
| Tokens.IssuedTokenLifetime | apps/api/src/app/resolvers/user.resolver.ts:11-12 | an issued token verifies, for its own user, exactly until the issue second plus seven days: always one second before seven days have passed, never after |
| Tokens.ExpiredNeverVerifies | apps/api/src/app/resolvers/user.resolver.ts:232-235 | once the instant `exp * 1000` is reached the token no longer verifies |
| Tokens.RevokedStaysRejected | apps/api/src/app/models/blacklisted-token.model.ts:8 | the TTL monitor never re-admits a revoked token: a purged token no longer verifies |
| Tokens.Revocations.IsRevoked | apps/api/src/app/context.ts:18 | the lookup by token finds an entry exactly when the token has been revoked and not yet purged |
| Tokens.Revocations.Add | apps/api/src/app/models/blacklisted-token.model.ts:3-6 | a token is stored with its expiry unless it is already present, in which case nothing changes and the insert fails |
| Tokens.Revocations.Sweep | apps/api/src/app/models/blacklisted-token.model.ts:8 | only expired entries are removed, and the others keep their expiry |
| Identity.BearerToken | apps/api/src/app/context.ts:10-11 | a token is extracted exactly when the header starts with "Bearer ", and the header is the prefix followed by the token |
| Identity.BearerRoundTrip | apps/api/src/app/context.ts:11 | extracting from "Bearer " plus a token gives the token back |
| Identity.Populate | apps/api/src/app/context.ts:33-35 | the populated list is no longer than the id list, every entry is an existing permission with its name, and its names are exactly the names of the ids that exist |
| Identity.ResolveRole | apps/api/src/app/context.ts:32-53 | no role exactly when the user has no role id or it names no role; otherwise that role's name and the names of its existing permissions |
| Identity.CreateContext | apps/api/src/app/context.ts:9-66 | no or empty token gives the anonymous context; a revoked token is refused first; 'Blacklisted' exactly for a revoked token; every later failure is reported as 'Invalid or expired', and exactly then; an unrevoked token that verifies for an existing user (soft-deleted or not) gives that user's id, its role and exactly the role's permissions |
| Identity.RolelessUserIsPowerless | apps/api/src/app/context.ts:13-37 | a context without a role is neither admin nor holds any permission |
| Identity.PermissionFromRole | apps/api/src/app/context.ts:43-51 | the context grants a name exactly when one of the stored role's permission ids names an existing permission by that name |
| Resources.ViolationsGate | apps/api/src/app/resolvers/violation.resolver.ts:20-130 | the permissions tested are `READ_`, `CREATE_`, `UPDATE_` and `DELETE_` followed by `VIOLATIONS`; listed by owner, a denied `get` throws, the owner is read with `createdBy.toString()` before the permission test |
| Resources.RiskScoresGate | apps/api/src/app/resolvers/risk-score.resolver.ts:19-130 | the permissions tested are `READ_`, `CREATE_`, `UPDATE_` and `DELETE_` followed by `RISK_SCORES`; listed by owner, a denied `get` throws, the owner is read before the permission test |
| Resources.ComplianceRulesGate | apps/api/src/app/resolvers/compliance-rule.resolver.ts:18-126 | the permissions tested are `READ_`, `CREATE_`, `UPDATE_` and `DELETE_` followed by `COMPLIANCE_RULE`; listed by owner, a denied `get` throws, the owner is read only after the permission test |
| Resources.IntegrationsGate | apps/api/src/app/resolvers/integration.resolver.ts:18-124 | the permissions tested are `READ_`, `CREATE_`, `UPDATE_` and `DELETE_` followed by `INTEGRATIONS`; listed by owner, a denied `get` throws, the owner is read before the permission test |
| Resources.TasksGate | apps/api/src/app/resolvers/task.resolver.ts:18-124 | the permissions tested are `READ_`, `CREATE_`, `UPDATE_` and `DELETE_` followed by `TASKS`; listed by owner, a denied `get` throws, the owner is read before the permission test |
| Resources.SettingsGate | apps/api/src/app/resolvers/setting.resolver.ts:18-124 | the permissions tested are `READ_`, `CREATE_`, `UPDATE_` and `DELETE_` followed by `SETTINGS`; listed by owner, a denied `get` throws, the owner is read before the permission test |
| Resources.OrganizationsGate | apps/api/src/app/resolvers/organization.resolver.ts:17-125 | the permissions tested are `READ_`, `CREATE_`, `UPDATE_` and `DELETE_` followed by `ORGANIZATIONS`; the list is unfiltered, a denied `get` throws, the owner is read before the permission test |
| Resources.RolesGate | apps/api/src/app/resolvers/role.resolver.ts:18-124 | the permissions tested are `READ_`, `CREATE_`, `UPDATE_` and `DELETE_` followed by `ROLES`; listed by owner, a denied `get` throws, the owner is read before the permission test |
| Resources.PermissionsGate | apps/api/src/app/resolvers/permission.resolvers.ts:17-123 | the permissions tested are `READ_`, `CREATE_`, `UPDATE_` and `DELETE_` followed by `PERMISSIONS`; listed by owner, a denied `get` throws, the owner is read before the permission test |
| Resources.AlertsGate | apps/api/src/app/resolvers/alert.resolver.ts:15-115 | the permissions tested are `READ_`, `CREATE_`, `UPDATE_` and `DELETE_` followed by `ALERT`; listed by owner, a denied `get` answers `null`, the owner is read only after the permission test |
| Resources.AuditLogsGate | apps/api/src/app/resolvers/audit-log.resolver.ts:16-91 | the permissions tested are `READ_`, `CREATE_`, `UPDATE_` and `DELETE_` followed by `AUDIT_LOG`; listed by owner, a denied `get` throws, the owner is read with `?.`, so a missing owner owns nothing |
| Resources.DocumentsGate | apps/api/src/app/resolvers/document.resolver.ts:31-253 | the permissions tested are `READ_`, `CREATE_`, `UPDATE_` and `DELETE_` followed by `DOCUMENTS`; listed by owner, a denied `get` throws, the owner is read before the permission test |
| Resources.MergeEdit | apps/api/src/app/resolvers/task.resolver.ts:73-76 | the generic update edit ignores the id and merges the mutation input over the stored fields |
| Resources.Merged | apps/api/src/app/resolvers/risk-score.resolver.ts:81 | every supplied field is overwritten, every other field is kept, and no field is invented |
| Resources.ViolationChanges | apps/api/src/app/resolvers/violation.resolver.ts:78-97 | only `status` and `resolutionNote` are written, each exactly when supplied |
| Resources.ViolationUpdateKeepsOtherFields | apps/api/src/app/resolvers/violation.resolver.ts:81 | an update of a violation keeps every other field |
| Resources.RiskScoreDraft | apps/api/src/app/resolvers/risk-score.resolver.ts:58-66 | `calculatedAt` is `now` when the argument is absent, the epoch when it is null, and the supplied date otherwise; the other fields are the input |
| Resources.AuditLogDraft | apps/api/src/app/resolvers/audit-log.resolver.ts:51-55 | `timestamp` is kept when truthy and is `now` otherwise, so it is always set; the other fields are the input |
| Resources.DefaultsDiffer | apps/api/src/app/resolvers/risk-score.resolver.ts:59-60 | the two defaults differ on `null` (the epoch against the current time); an empty timestamp is replaced by the audit-log default |
| Resources.RolePermissions | apps/api/src/app/resolvers/role.resolver.ts:129-133 | exactly the permissions whose id is in the role's id list |
| Resources.RolePermissionsMatchContext | apps/api/src/app/resolvers/role.resolver.ts:129-133 | the names of the permissions this field resolver returns are exactly the names the request context loads for the same role (apps/api/src/app/context.ts:33-51) |
| Resources.OrganizationListIsUnfiltered | apps/api/src/app/resolvers/organization.resolver.ts:8-46 | a caller without admin or permission sees every active organization listed but is denied each one by `get` |
| Resources.DeniedAlertIsNull | apps/api/src/app/resolvers/alert.resolver.ts:25-42 | a caller not entitled to an alert gets `null`, as for a missing one |
| Resources.OwnerlessAuditLogIsDenied | apps/api/src/app/resolvers/audit-log.resolver.ts:32-37 | an audit log without an owner is denied to non-admins without an error, while other resources throw on such a record |
| Resources.UpdateViolation | apps/api/src/app/resolvers/violation.resolver.ts:67-100 | the common update gate; on success the two fields are merged and `updatedBy` stamped, nothing else changes |
| Resources.CreateRiskScore | apps/api/src/app/resolvers/risk-score.resolver.ts:51-69 | the common create gate; on success a fresh record holds the input with the `calculatedAt` default |
| Resources.CreateAuditLog | apps/api/src/app/resolvers/audit-log.resolver.ts:45-58 | the common create gate; on success a fresh record holds the input with the `timestamp` default |
| Documents.DocumentDraft | apps/api/src/app/resolvers/document.resolver.ts:117-139 | a new document is uploaded by the caller, at version 1, with no previous version, the file's digest and URL, the placeholder summary and `Unclassified`; the only input fields stored are `organizationId`, `name`, `type` and `tags` |
| Documents.CreateDocument | apps/api/src/app/resolvers/document.resolver.ts:63-142 | a refused create changes nothing; an accepted one adds exactly one fresh record, owned by the caller, holding the document draft for the caller and the stored file |
| Documents.DocumentChanges | apps/api/src/app/resolvers/document.resolver.ts:176-227 | a simple field is written exactly when supplied; a file rewrites digest, URL, summary and classification, bumps the version and points `previousVersionId` at the record; nothing else is written |
| Documents.DocumentVersioning | apps/api/src/app/resolvers/document.resolver.ts:217-219 | with a file the version goes from n to n + 1; without one it stays and only supplied simple fields change |
| Documents.UpdateDocument | apps/api/src/app/resolvers/document.resolver.ts:144-238 | the update gate, then exactly those changes plus `updatedBy`; a refused update changes nothing |
| Users.UsersGate | apps/api/src/app/resolvers/user.resolver.ts:25-179 | the permissions tested are `READ_USER`, `CREATE_USER`, `UPDATE_USER` and `DELETE_USER`; listed by owner, a denied `get` throws, the owner is read with `createdBy.toString()` before any other test |
| Users.NewUserFields | apps/api/src/app/resolvers/user.resolver.ts:85-97 | a new user has the supplied email, chosen role and digest, status "invited", MFA off, and no last login |
| Users.EmailTaken | apps/api/src/app/resolvers/user.resolver.ts:81 | the email lookup finds a record exactly when some stored user has that email, a soft-deleted one included |
| Users.UserGet | apps/api/src/app/resolvers/user.resolver.ts:35-56 | `null` exactly for a missing or deleted user; returned if and only if the caller is entitled or is that user, barring the null-owner error, which needs a non-admin and a null owner and is raised whenever the owner is read first; any other refusal of a signed-in caller is 'Access denied' |
| Users.Me | apps/api/src/app/resolvers/user.resolver.ts:58-64 | refused exactly when anonymous; `null` exactly when the caller's record is missing or soft-deleted; otherwise the caller's own active record |
| Users.SignupVerdict | apps/api/src/app/resolvers/user.resolver.ts:68-79 | creation is allowed exactly for an anonymous caller, an admin or a holder of `CREATE_USER`; the owner is the caller or none |
| Users.UserUpdateVerdict | apps/api/src/app/resolvers/user.resolver.ts:104-141 | 'Not found' first; success exactly for an entitled caller or the user themself supplying neither role nor organization; the actor is the caller; the null-owner error for a non-admin on an ownerless user when the owner is read first, and 'Access denied' for every other refusal after the existence test |
| Users.UserDeleteVerdict | apps/api/src/app/resolvers/user.resolver.ts:143-180 | 'Not found' first; success exactly for an entitled caller or the user themself; the actor is the caller; the null-owner error for a non-admin on an ownerless user when the owner is read first, and 'Access denied' for every other refusal after the existence test |
| Users.SignupUserLockedOut | apps/api/src/app/resolvers/user.resolver.ts:120-131 | as written, a non-admin who signed up cannot read, update or delete their own record: each path throws on the null owner |
| Users.SelfServiceIntended | apps/api/src/app/resolvers/user.resolver.ts:46-53 | with the owner read optionally, every user can read and delete their own record and edit it without role or organization; supplying a role still needs rights |
| Users.CreateUser | apps/api/src/app/resolvers/user.resolver.ts:68-102 | refused callers and taken emails (soft-deleted users included) change nothing; otherwise one fresh user owned by the caller or by no one; emails stay unique |
| Users.UpdateUser | apps/api/src/app/resolvers/user.resolver.ts:104-141 | on success the arguments are merged and `updatedBy` stamped; a refusal changes nothing; emails stay unique |
| Users.DeleteUser | apps/api/src/app/resolvers/user.resolver.ts:143-180 | on success a soft delete answering true; a refusal changes nothing |
| Session.LoggedIn | apps/api/src/app/resolvers/user.resolver.ts:190 | only `lastLoginAt` changes, to the login instant; every other field and stamp stays |
| Session.Login | apps/api/src/app/resolvers/user.resolver.ts:182-225 | 'User not found' exactly when no active user has the email; 'Invalid credentials' exactly when one has and the password does not match; on success only its `lastLoginAt` changes and the answer carries a token for its id issued now, with the role and permissions the context would resolve |
| Session.Logout | apps/api/src/app/resolvers/user.resolver.ts:227-240 | true without a token; otherwise true exactly when the token verifies and was not yet revoked, and then it is revoked until `exp * 1000`; revocations keep tracking token expiry |
| AuthSlice.State.constructor | apps/finsense-ai/src/app/store/authSlice.ts:28-33 | the slice starts signed out |
| AuthSlice.State.SetCredentials | apps/finsense-ai/src/app/store/authSlice.ts:39-52 | all four fields take the payload's values |
| AuthSlice.State.ClearCredentials | apps/finsense-ai/src/app/store/authSlice.ts:53-58 | the slice is back in its initial state |
| AuthSlice.State.SelectIsAdmin | apps/finsense-ai/src/app/store/authSlice.ts:64-66 | true exactly when the server's admin test holds for the same role |
| AuthSlice.State.SelectHasPermission | apps/finsense-ai/src/app/store/authSlice.ts:68-72 | true exactly when the server's permission test holds for the same list, that is, when the name is among the stored names |
| AuthSlice.ClearedGrantsNothing | apps/finsense-ai/src/app/store/authSlice.ts:53-72 | after clearing, the client grants neither admin nor any permission |
| AuthSlice.ClientMirrorsServer | apps/finsense-ai/src/app/store/authSlice.ts:64-72 | after storing a login answer, the client decides exactly as the server does for a context with the same role and permissions |

The lists of all other resources (`users`, violations, risk scores, compliance
rules, integrations, tasks, settings, roles, permissions, alerts, audit logs)
are `Gate.ListRows` and their `get` queries are `Gate.GetRow`, both over the resource's
policy constant in `Resources`. Their plain create, update and delete
mutations are `Stores.Store.Create`, `Update` and `Delete` on a store built
with that policy. The update's edit is `Resources.MergeEdit` of the input,
without `id`. Each policy constant has a lemma in the table above
(`Resources.ViolationsGate` and its siblings, `Users.UsersGate`) stating its
permission names and its deviations from the common shape.

## Left out

- Wall clock, network, the HTTP server and GraphQL transport: the clock is a
  parameter. Other failures of the transport are not modelled.
- The HMAC secret and the token's wire format: the codec is abstract. The
  model assumes `decode(sign(c)) == c` and nothing else.
- bcrypt: hashing and comparison are parameters.
- File streaming, the upload directory, SHA-256 and the generated file name:
  the file's digest and URL are inputs.
- The exact error-message strings: errors are kinds.
- Mongoose casting, validation and invalid ObjectId strings.
  `findById` with a malformed id is not modelled.
- Schema-required fields other than email uniqueness are not enforced by the
  model.
- The relation resolvers (`organization`, `createdBy`, `uploadedBy` and so on)
  are left out. They are lookups that do not decide access.
- Timestamps (`createdAt`, `updatedAt`) set by the schema are left out.
- The database's own failures, such as a write that fails after the gate, are
  left out.
- Concurrency between requests: each operation is one atomic step.
- The React UI: it only re-calls the slice selectors.
- Documents.NextVersion: for a record whose stored version is not a number,
  the model gives a null version. JavaScript would give `NaN` or concatenate
  strings; no code path stores such a version.
- Resources.ViolationChanges: an argument left out of `updateViolation` is
  `undefined` in the update document. The model assumes Mongoose drops such
  keys, as it does by default from version 7 on. An older Mongoose without
  `omitUndefined` would store them as null.
- Resources.Merged: the same assumption for the update arguments of the other
  resources; an `undefined` argument counts as not supplied.
- Documents.DocumentChanges: the same assumption for `updateDocument`'s
  optional arguments.
- Resources.RiskScoreDraft: a supplied `calculatedAt` that `new Date` cannot
  parse (the empty string, say) gives an Invalid Date, and the save then
  fails in Mongoose's date cast. Casting is not modelled, so the draft keeps
  such a value and `Resources.DefaultsDiffer` states nothing about it.
- Identity.Populate: the contract states lengths, entries and the set of
  names, not the order of the entries. The permission test depends only on
  the set (`Auth.GrantsMonotone`).

## Findings

| source | as written | input that shows it | evidently intended | confidence | as-written member | corrected member |
|---|---|---|---|---|---|---|
| apps/api/src/app/resolvers/user.resolver.ts:47 | The non-admin paths of `user`, `updateUser` and `deleteUser` (lines 47, 120, 159) call `createdBy.toString()` before the self-service clauses. Signup stores `createdBy: null` (line 96). | A non-admin who signed up publicly asks for `user(id)` with their own id. `createdBy` is null, so the call throws a TypeError; the same happens for `updateUser` and `deleteUser`. | "Also allow looking up own record", "allow self to update only non-privileged fields" and "allow self-deletion" hold for every user. The owner is read as `createdBy?.toString()`, as the audit-log resolvers do. | medium, not executed | Users.SignupUserLockedOut (over `Users.UserPolicy`) | Users.SelfServiceIntended (over `Users.IntendedUserPolicy`) |

The user mutations read the owner policy from their store. A store built with
`Users.IntendedUserPolicy` gives the corrected behaviour. A store built with
`Users.UserPolicy` gives the behaviour as written.
