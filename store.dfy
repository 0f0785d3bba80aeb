/** A resource collection and the create, update and soft-delete mutations the
    resolvers perform on it, each guarded by the decisions of `Gate`. */
module Stores {
  import opened Values
  import opened Auth
  import opened Lifecycle
  import opened Gate

  /** One resource's collection under its policy. `next` stands for the
      database's supply of fresh ObjectIds: every stored id is below it. */
  class Store {
    const policy: Policy
    var rows: map<Id, Rec>
    var next: Id

    ghost predicate Valid()
      reads this
    {
      (forall k :: k in rows ==> k < next) &&
      (forall k :: k in rows ==> Stamped(rows[k]))
    }

    constructor (policy: Policy)
      ensures Valid() && this.policy == policy && rows == map[]
    {
      this.policy := policy;
      rows := map[];
      next := 0;
    }

    /** Saves a new record under a fresh id (`new Model({...}).save()`). */
    method Insert(fields: Fields, actor: Option<Id>) returns (id: Id)
      requires Valid()
      modifies this
      ensures Valid() && Retains(old(rows), rows)
      ensures id !in old(rows) && rows == old(rows)[id := Created(fields, actor)]
    {
      id := next;
      rows := rows[id := Created(fields, actor)];
      next := next + 1;
    }

    /** Writes a new payload and `updatedBy` into an active record (`findByIdAndUpdate`, `new: true`). */
    method Revise(id: Id, fields: Fields, actor: Id) returns (rec: Rec)
      requires Valid() && id in rows && Active(rows[id])
      modifies this`rows
      ensures Valid() && Retains(old(rows), rows)
      ensures rows == old(rows)[id := Revised(old(rows)[id], fields, actor)] && rec == rows[id]
    {
      rec := Revised(rows[id], fields, actor);
      rows := rows[id := rec];
    }

    /** Writes a new payload into an active record and leaves its audit fields alone (`doc.save()`). */
    method Save(id: Id, fields: Fields) returns (rec: Rec)
      requires Valid() && id in rows && Active(rows[id])
      modifies this`rows
      ensures Valid() && Retains(old(rows), rows)
      ensures rows == old(rows)[id := old(rows)[id].(fields := fields)] && rec == rows[id]
    {
      rec := rows[id].(fields := fields);
      rows := rows[id := rec];
    }

    /** Stamps `deletedBy` and `deletedAt` on an active record; the record stays stored. */
    method Retire(id: Id, actor: Id, now: Millis)
      requires Valid() && id in rows && Active(rows[id])
      modifies this`rows
      ensures Valid() && Retains(old(rows), rows)
      ensures rows == old(rows)[id := Retired(old(rows)[id], actor, now)]
    {
      rows := rows[id := Retired(rows[id], actor, now)];
    }

    /** A `create` mutation: `build` gives the payload for the calling user, and
        the stored `createdBy` is always the caller, whatever the input says. */
    method Create(ctx: Context, build: Id -> Fields) returns (r: Outcome<Id>)
      requires Valid()
      modifies this
      ensures Valid() && Retains(old(rows), rows)
      ensures var v := CreateVerdict(policy, ctx);
        (v.Fail? ==> r == Fail(v.error) && rows == old(rows)) &&
        (v.Ok? ==> r.Ok? && r.value !in old(rows) &&
                   rows == old(rows)[r.value := Created(build(v.value), Some(v.value))])
    {
      var v := CreateVerdict(policy, ctx);
      if v.Fail? {
        return Fail(v.error);
      }
      var id := Insert(build(v.value), Some(v.value));
      return Ok(id);
    }

    /** An `update` mutation: `edit` computes the new payload from the record's
        id and its current payload; the audit fields other than `updatedBy` stay. */
    method Update(ctx: Context, id: Id, edit: (Id, Fields) -> Fields) returns (r: Outcome<Rec>)
      requires Valid()
      modifies this`rows
      ensures Valid() && Retains(old(rows), rows)
      ensures var v := MutationVerdict(policy, old(rows), ctx, id, policy.update);
        (v.Fail? ==> r == Fail(v.error) && rows == old(rows)) &&
        (v.Ok? ==> rows == old(rows)[id := Revised(old(rows)[id], edit(id, old(rows)[id].fields), v.value)] &&
                   r == Ok(rows[id]))
    {
      var v := MutationVerdict(policy, rows, ctx, id, policy.update);
      if v.Fail? {
        return Fail(v.error);
      }
      var rec := Revise(id, edit(id, rows[id].fields), v.value);
      return Ok(rec);
    }

    /** A `delete` mutation: a soft delete that answers `true`. */
    method Delete(ctx: Context, id: Id, now: Millis) returns (r: Outcome<bool>)
      requires Valid()
      modifies this`rows
      ensures Valid() && Retains(old(rows), rows)
      ensures var v := MutationVerdict(policy, old(rows), ctx, id, policy.delete);
        (v.Fail? ==> r == Fail(v.error) && rows == old(rows)) &&
        (v.Ok? ==> rows == old(rows)[id := Retired(old(rows)[id], v.value, now)] && r == Ok(true))
    {
      var v := MutationVerdict(policy, rows, ctx, id, policy.delete);
      if v.Fail? {
        return Fail(v.error);
      }
      Retire(id, v.value, now);
      return Ok(true);
    }
  }
}
