/** The audit fields every resource record carries and the three ways the
    resolvers stamp them: on creation, on update and on soft delete. */
module Lifecycle {
  import opened Values

  /** A stored record: its payload and its audit fields. A record is active
      while `deletedAt` is absent; soft delete sets it and nothing clears it. */
  datatype Rec = Rec(
    fields: Fields,
    createdBy: Option<Id>,
    updatedBy: Option<Id>,
    deletedBy: Option<Id>,
    deletedAt: Option<Millis>)

  predicate Active(r: Rec) {
    r.deletedAt.None?
  }

  /** The deletion stamps come together: a record is deleted by someone at some time or not at all. */
  predicate Stamped(r: Rec) {
    r.deletedAt.Some? <==> r.deletedBy.Some?
  }

  /** A new record saved with `createdBy` set by the resolver. */
  function Created(fields: Fields, actor: Option<Id>): Rec {
    Rec(fields, actor, None, None, None)
  }

  /** `findByIdAndUpdate` with a new payload and `updatedBy`. */
  function Revised(r: Rec, fields: Fields, actor: Id): Rec {
    r.(fields := fields, updatedBy := Some(actor))
  }

  /** Soft delete: `deletedBy` and `deletedAt` are set, the payload stays. */
  function Retired(r: Rec, actor: Id, now: Millis): Rec {
    r.(deletedBy := Some(actor), deletedAt := Some(now))
  }

  /** Every record of `before` is still in `after`, and a deleted record is untouched. */
  ghost predicate Retains(before: map<Id, Rec>, after: map<Id, Rec>) {
    (forall k :: k in before ==> k in after) &&
    (forall k :: k in before && !Active(before[k]) ==> after[k] == before[k])
  }

  /** The three stamps keep the deletion stamps paired, creation and update
      never touch ownership or deletion, and soft delete ends the active state
      for good while leaving payload and owner as they were. */
  lemma StampsKeepShape(r: Rec, fields: Fields, actor: Id, now: Millis)
    requires Stamped(r)
    ensures Stamped(Created(fields, Some(actor))) && Active(Created(fields, Some(actor)))
    ensures var u := Revised(r, fields, actor);
      Stamped(u) && u.createdBy == r.createdBy && u.deletedAt == r.deletedAt && (Active(u) <==> Active(r))
    ensures var d := Retired(r, actor, now);
      Stamped(d) && !Active(d) && d.fields == r.fields && d.createdBy == r.createdBy
  {
  }

  /** Records never return from deletion: retention composes over any sequence of operations. */
  lemma RetainsTransitive(a: map<Id, Rec>, b: map<Id, Rec>, c: map<Id, Rec>)
    requires Retains(a, b) && Retains(b, c)
    ensures Retains(a, c)
  {
  }
}
