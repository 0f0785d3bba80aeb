/** Documents: the common gate, plus the payload of an upload and the
    version bump when an update brings a new file. */
module Documents {
  import opened Values
  import opened Auth
  import opened Lifecycle
  import opened Gate
  import opened Stores
  import opened Resources

  /** A file after the resolver has stored it: its SHA-256 digest and its URL.
      Streaming, hashing and naming the file happen outside the model. */
  datatype Upload = Upload(contentHash: string, storageUrl: string)

  /** The classification written with every upload: four flags, all false. */
  const Unclassified: Value := Blob(0)

  const FirstSummary: string := "AI-generated summary placeholder"
  const UpdatedSummary: string := "Updated AI summary placeholder"

  /** The fields `createDocument` saves for `caller`: the four simple fields
      of the input and nothing else of it, the uploader is the caller, the
      version is 1, there is no previous version, and the summary and
      classification are the fixed placeholders. */
  function DocumentDraft(input: Fields, upload: Upload, caller: Id): (r: Fields)
    ensures {"uploadedBy", "version", "previousVersionId", "contentHash", "aiSummary", "classification", "storageUrl"} <= r.Keys
    ensures r["uploadedBy"] == Ref(caller)
    ensures r["version"] == Number(1) && r["previousVersionId"] == Nil
    ensures r["contentHash"] == Text(upload.contentHash) && r["storageUrl"] == Text(upload.storageUrl)
    ensures r["aiSummary"] == Text(FirstSummary) && r["classification"] == Unclassified
    ensures forall k :: k in input && k in {"organizationId", "name", "type", "tags"} ==> k in r && r[k] == input[k]
    ensures forall k :: k in r ==> (k in input && k in {"organizationId", "name", "type", "tags"}) || k in {"uploadedBy", "contentHash", "aiSummary", "classification",
                                                        "version", "previousVersionId", "storageUrl"}
  {
    (map k | k in input && k in {"organizationId", "name", "type", "tags"} :: input[k]) +
    map["uploadedBy" := Ref(caller), "contentHash" := Text(upload.contentHash),
        "aiSummary" := Text(FirstSummary), "classification" := Unclassified,
        "version" := Number(1), "previousVersionId" := Nil, "storageUrl" := Text(upload.storageUrl)]
  }

  /** `createDocument`: admin or `CREATE_DOCUMENTS` is required before the file is handled. */
  method CreateDocument(docs: Store, ctx: Context, input: Fields, upload: Upload) returns (r: Outcome<Id>)
    requires docs.Valid() && docs.policy == Documents
    modifies docs
    ensures docs.Valid() && Retains(old(docs.rows), docs.rows)
    ensures var v := CreateVerdict(Documents, ctx);
      (v.Fail? ==> r == Fail(v.error) && docs.rows == old(docs.rows)) &&
      (v.Ok? ==> r.Ok? && r.value !in old(docs.rows) &&
                 docs.rows == old(docs.rows)[r.value := Created(DocumentDraft(input, upload, v.value), Some(v.value))])
  {
    r := docs.Create(ctx, (caller: Id) => DocumentDraft(input, upload, caller));
  }

  /** The arguments of `updateDocument`: each simple field is written when it is
      present at all (even as `null`); `file` is a new upload. */
  datatype DocumentEdit = DocumentEdit(name: Option<Value>, kind: Option<Value>, tags: Option<Value>, file: Option<Upload>)

  /** `existing.version + 1` on a numeric version. No code path stores any
      other kind of version; such a record is given a null one. */
  function NextVersion(v: Value): Value {
    if v.Number? then Number(v.n + 1) else Nil
  }

  /** The `updateFields` that `updateDocument` builds, apart from `updatedBy`. */
  function DocumentChanges(id: Id, current: Fields, edit: DocumentEdit): (r: Fields)
    ensures ("name" in r <==> edit.name.Some?) && ("type" in r <==> edit.kind.Some?) && ("tags" in r <==> edit.tags.Some?)
    ensures edit.name.Some? ==> r["name"] == edit.name.value
    ensures edit.kind.Some? ==> r["type"] == edit.kind.value
    ensures edit.tags.Some? ==> r["tags"] == edit.tags.value
    ensures edit.file.None? ==> r.Keys <= {"name", "type", "tags"}
    ensures edit.file.Some? ==>
      {"previousVersionId", "version", "contentHash", "aiSummary", "classification", "storageUrl"} <= r.Keys &&
      r["previousVersionId"] == Ref(id) && r["version"] == NextVersion(Field(current, "version")) &&
      r["contentHash"] == Text(edit.file.value.contentHash) && r["storageUrl"] == Text(edit.file.value.storageUrl) &&
      r["aiSummary"] == Text(UpdatedSummary) && r["classification"] == Unclassified
    ensures r.Keys <= {"name", "type", "tags", "previousVersionId", "version", "contentHash", "aiSummary",
                       "classification", "storageUrl"}
  {
    var simple := SimpleChanges(edit);
    if edit.file.None? then simple else simple + UploadChanges(id, current, edit.file.value)
  }

  /** The simple fields of an edit that are present. */
  function SimpleChanges(edit: DocumentEdit): Fields {
    var withName: Fields := if edit.name.Some? then map["name" := edit.name.value] else map[];
    var withType := if edit.kind.Some? then withName["type" := edit.kind.value] else withName;
    if edit.tags.Some? then withType["tags" := edit.tags.value] else withType
  }

  /** The fields a new file rewrites. */
  function UploadChanges(id: Id, current: Fields, file: Upload): Fields {
    map["previousVersionId" := Ref(id), "version" := NextVersion(Field(current, "version")),
        "contentHash" := Text(file.contentHash), "aiSummary" := Text(UpdatedSummary),
        "classification" := Unclassified, "storageUrl" := Text(file.storageUrl)]
  }

  /** A new file moves the version from n to n + 1 and points `previousVersionId`
      at the record itself (the update is in place, so the earlier content is
      not kept); without a file the version stays and only the supplied simple
      fields change. */
  lemma DocumentVersioning(id: Id, current: Fields, edit: DocumentEdit, n: int)
    requires Field(current, "version") == Number(n)
    ensures var after := Merged(current, DocumentChanges(id, current, edit));
      (edit.file.Some? ==> after["version"] == Number(n + 1) && after["previousVersionId"] == Ref(id)) &&
      (edit.file.None? ==> Field(after, "version") == Number(n) &&
                           forall k :: k in current && k !in {"name", "type", "tags"} ==> after[k] == current[k])
  {
  }

  /** `updateDocument`: the common update gate, then the changes built field by field. */
  method UpdateDocument(docs: Store, ctx: Context, id: Id, edit: DocumentEdit) returns (r: Outcome<Rec>)
    requires docs.Valid() && docs.policy == Documents
    modifies docs`rows
    ensures docs.Valid() && Retains(old(docs.rows), docs.rows)
    ensures var v := MutationVerdict(Documents, old(docs.rows), ctx, id, Documents.update);
      (v.Fail? ==> r == Fail(v.error) && docs.rows == old(docs.rows)) &&
      (v.Ok? ==> var before := old(docs.rows)[id];
                 docs.rows == old(docs.rows)[id := Revised(before,
                                 Merged(before.fields, DocumentChanges(id, before.fields, edit)), v.value)] &&
                 r == Ok(docs.rows[id]))
  {
    var v := MutationVerdict(Documents, docs.rows, ctx, id, Documents.update);
    if v.Fail? {
      return Fail(v.error);
    }
    var existing := docs.rows[id];
    var changes: Fields := map[];
    if edit.name.Some? {
      changes := changes["name" := edit.name.value];
    }
    if edit.kind.Some? {
      changes := changes["type" := edit.kind.value];
    }
    if edit.tags.Some? {
      changes := changes["tags" := edit.tags.value];
    }
    assert changes == SimpleChanges(edit);
    if edit.file.Some? {
      changes := changes + UploadChanges(id, existing.fields, edit.file.value);
    }
    var rec := docs.Revise(id, Merged(existing.fields, changes), v.value);
    return Ok(rec);
  }
}
