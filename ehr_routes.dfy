/** The EHR routes (`ehrRoutes.js`) over a store of records keyed by id: create,
    list, read, partial update with its whitelist, and delete, with the status
    each answers. */
module EhrRoutes {
  import Json
  import opened Wrappers

  /** The fields a PATCH may set. */
  const AllowedUpdates: seq<string> := ["patientId", "doctorId", "date", "diagnosis", "treatment", "notes"]

  datatype Body =
    | NoBody
    | Document(ehr: Json.Object)
    | Documents(ehrs: seq<Json.Object>)
    | ErrorMessage(error: string)
    | ValidationFailure
    | DuplicateKey

  datatype Reply = Reply(status: int, body: Body)

  /** `updates.every(update => allowedUpdates.includes(update))`. */
  function IsValidOperation(updates: seq<string>): (ok: bool)
    ensures ok <==> forall u :: u in updates ==> u in AllowedUpdates
  {
    if updates == [] then true
    else
      var rest := IsValidOperation(updates[1..]);
      assert forall u :: u in updates <==> u == updates[0] || u in updates[1..];
      updates[0] in AllowedUpdates && rest
  }

  /** An empty body passes the whitelist, and so does any body whose keys are
      all allowed; one key outside it fails the whole request. */
  lemma WhitelistCases(updates: seq<string>, bad: string)
    ensures IsValidOperation([])
    ensures bad !in AllowedUpdates && bad in updates ==> !IsValidOperation(updates)
  {
  }

  /** A field the schema requires is present, not `null`, and for a string
      field not empty. */
  predicate Present(doc: Json.Object, key: string) {
    key in doc && doc[key] != Json.Null && doc[key] != Json.Str("")
  }

  /** What `save` checks: patient, doctor, diagnosis and treatment are
      required. */
  predicate Saveable(doc: Json.Object) {
    Present(doc, "patientId") && Present(doc, "doctorId") && Present(doc, "diagnosis") && Present(doc, "treatment")
  }

  /** The paths of the EHR schema (`models/EHR.js`), with the `_id` that
      Mongoose adds to every schema. */
  const SchemaPaths: set<string> := {"_id", "patientId", "doctorId", "date", "diagnosis", "treatment", "notes"}

  predicate IsHexDigit(c: char) {
    '0' <= c <= '9' || 'a' <= c <= 'f' || 'A' <= c <= 'F'
  }

  /** The text of an ObjectId: 24 hexadecimal digits. */
  predicate IsObjectIdText(s: string) {
    |s| == 24 && forall i :: 0 <= i < |s| ==> IsHexDigit(s[i])
  }

  /** The id `new EHR(body)` takes: the body's `_id` when it is an ObjectId's
      text, the freshly generated one when the body has no `_id`, and None
      when the body's `_id` cannot be cast to an ObjectId. */
  function CreateKey(body: Json.Object, generated: string): (key: Option<string>)
    ensures "_id" !in body ==> key == Some(generated)
    ensures "_id" in body && body["_id"].Str? && IsObjectIdText(body["_id"].s) ==> key == Some(body["_id"].s)
    ensures key.None? <==> "_id" in body && !(body["_id"].Str? && IsObjectIdText(body["_id"].s))
  {
    if "_id" !in body then Some(generated)
    else match body["_id"]
      case Str(s) => if IsObjectIdText(s) then Some(s) else None
      case _ => None
  }

  /** The document `save` stores: the body's schema fields under that id. */
  function Stored(body: Json.Object, key: string): (doc: Json.Object)
    ensures doc.Keys == body.Keys * SchemaPaths + {"_id"}
    ensures doc["_id"] == Json.Str(key)
    ensures forall k :: k in doc && k != "_id" ==> doc[k] == body[k]
  {
    Strict(body)["_id" := Json.Str(key)]
  }

  /** `new EHR(body)` under the schema's default strict mode: the fields of the
      body that are schema paths, and nothing else. */
  function Strict(body: Json.Object): (doc: Json.Object)
    ensures doc.Keys == body.Keys * SchemaPaths
    ensures forall k :: k in doc ==> doc[k] == body[k]
  {
    map k | k in body.Keys * SchemaPaths :: body[k]
  }

  /** Dropping the unknown fields twice drops nothing more. */
  lemma StrictIdempotent(body: Json.Object)
    ensures Strict(Strict(body)) == Strict(body)
  {
  }

  /** The fields `save` requires are schema paths, so dropping the others
      does not change whether a body can be saved. */
  lemma StrictSaveable(body: Json.Object)
    ensures Saveable(Strict(body)) <==> Saveable(body)
  {
  }

  /** The PATCH whitelist is exactly the schema, so a body it accepts loses
      nothing. */
  lemma StrictKeepsWhitelisted(body: Json.Object)
    requires forall k :: k in body ==> k in AllowedUpdates
    ensures Strict(body) == body
  {
  }

  /** `updates.forEach(update => ehr[update] = req.body[update])`: each
      listed field of the body is copied onto the record, in list order. */
  method AssignFields(doc: Json.Object, body: Json.Object, updates: seq<string>) returns (ehr: Json.Object)
    requires forall u :: u in updates <==> u in body
    ensures ehr == doc + body
  {
    ehr := doc;
    for i := 0 to |updates|
      invariant PartlyAssigned(ehr, doc, body, updates[..i])
    {
      PartlyAssignedStep(ehr, doc, body, updates[..i], updates[i]);
      assert updates[..i + 1] == updates[..i] + [updates[i]];
      ehr := ehr[updates[i] := body[updates[i]]];
    }
    assert updates[..|updates|] == updates;
    PartlyAssignedAll(ehr, doc, body, updates);
  }

  /** `ehr` is `doc` with the fields in `done` copied from `body`. */
  ghost predicate PartlyAssigned(ehr: Json.Object, doc: Json.Object, body: Json.Object, done: seq<string>) {
    (forall k :: k in done ==> k in body) &&
    (forall k :: k in ehr <==> k in doc || k in done) &&
    (forall k :: k in done ==> ehr[k] == body[k]) &&
    (forall k :: k in doc && k !in done ==> ehr[k] == doc[k])
  }

  lemma PartlyAssignedStep(ehr: Json.Object, doc: Json.Object, body: Json.Object, done: seq<string>, k: string)
    requires PartlyAssigned(ehr, doc, body, done) && k in body
    ensures PartlyAssigned(ehr[k := body[k]], doc, body, done + [k])
  {
  }

  lemma PartlyAssignedAll(ehr: Json.Object, doc: Json.Object, body: Json.Object, done: seq<string>)
    requires PartlyAssigned(ehr, doc, body, done)
    requires forall u :: u in done <==> u in body
    ensures ehr == doc + body
  {
    assert ehr.Keys == (doc + body).Keys;
  }

  class EhrStore {
    var records: map<string, Json.Object>

    constructor ()
      ensures records == map[]
    {
      records := map[];
    }

    /** POST `/`: the schema fields of the body under the body's `_id`, or
        under the fresh `id` when the body has none, answered with 201. A
        body the schema refuses (a missing required field, an `_id` that is
        not an ObjectId) is answered with 400, and so is an `_id` already in
        use; then nothing is stored. */
    method Create(body: Json.Object, id: string) returns (reply: Reply)
      requires id !in records
      modifies this
      ensures !Saveable(body) || CreateKey(body, id).None? ==>
                records == old(records) && reply == Reply(400, ValidationFailure)
      ensures Saveable(body) && CreateKey(body, id).Some? && CreateKey(body, id).value in old(records) ==>
                records == old(records) && reply == Reply(400, DuplicateKey)
      ensures Saveable(body) && CreateKey(body, id).Some? && CreateKey(body, id).value !in old(records) ==>
                var key := CreateKey(body, id).value;
                records == old(records)[key := Stored(body, key)] && reply == Reply(201, Document(Stored(body, key)))
      ensures "_id" !in body && Saveable(body) ==> reply.status == 201 && records == old(records)[id := Stored(body, id)]
    {
      var key := CreateKey(body, id);
      if !Saveable(body) || key.None? {
        return Reply(400, ValidationFailure);
      }
      if key.value in records {
        return Reply(400, DuplicateKey);
      }
      var ehr := Stored(body, key.value);
      records := records[key.value := ehr];
      reply := Reply(201, Document(ehr));
    }

    /** GET `/`: every stored record once. */
    method ReadAll() returns (reply: Reply)
      ensures reply.status == 200 && reply.body.Documents?
      ensures |reply.body.ehrs| == |records|
      ensures forall id :: id in records ==> records[id] in reply.body.ehrs
      ensures forall e :: e in reply.body.ehrs ==> exists id :: id in records && records[id] == e
    {
      var ehrs: seq<Json.Object> := [];
      var todo := records.Keys;
      while todo != {}
        invariant todo <= records.Keys
        invariant |ehrs| + |todo| == |records|
        invariant forall id :: id in records && id !in todo ==> records[id] in ehrs
        invariant forall e :: e in ehrs ==> exists id :: id in records && records[id] == e
        decreases |todo|
      {
        var id :| id in todo;
        ehrs := ehrs + [records[id]];
        todo := todo - {id};
      }
      reply := Reply(200, Documents(ehrs));
    }

    /** GET `/:id`. */
    method Read(id: string) returns (reply: Reply)
      ensures id in records ==> reply == Reply(200, Document(records[id]))
      ensures id !in records ==> reply == Reply(404, NoBody)
    {
      if id !in records {
        return Reply(404, NoBody);
      }
      reply := Reply(200, Document(records[id]));
    }

    /** PATCH `/:id`: refuse a body with a key outside the whitelist, answer
        404 for an unknown id, otherwise copy every field of the body onto the
        record and save it, keeping the stored record when the result fails
        the schema. */
    method Update(id: string, body: Json.Object, updates: seq<string>) returns (reply: Reply)
      requires forall u :: u in updates <==> u in body
      modifies this
      ensures !IsValidOperation(updates) ==> records == old(records) && reply == Reply(400, ErrorMessage("Invalid updates!"))
      ensures IsValidOperation(updates) && id !in old(records) ==> records == old(records) && reply == Reply(404, NoBody)
      ensures IsValidOperation(updates) && id in old(records) ==>
                if Saveable(old(records[id]) + body)
                then records == old(records)[id := old(records[id]) + body] && reply == Reply(200, Document(records[id]))
                else records == old(records) && reply == Reply(400, ValidationFailure)
    {
      if !IsValidOperation(updates) {
        return Reply(400, ErrorMessage("Invalid updates!"));
      }
      if id !in records {
        return Reply(404, NoBody);
      }
      var ehr := AssignFields(records[id], body, updates);
      if Saveable(ehr) {
        records := records[id := ehr];
        reply := Reply(200, Document(ehr));
      } else {
        reply := Reply(400, ValidationFailure);
      }
    }

    /** DELETE `/:id`: the removed record, or 404. */
    method Delete(id: string) returns (reply: Reply)
      modifies this
      ensures id in old(records) ==> records == old(records) - {id} && reply == Reply(200, Document(old(records[id])))
      ensures id !in old(records) ==> records == old(records) && reply == Reply(404, NoBody)
    {
      if id !in records {
        return Reply(404, NoBody);
      }
      reply := Reply(200, Document(records[id]));
      records := records - {id};
    }
  }

  /** An accepted update sets every field of the body and keeps every other
      field of the record. */
  lemma UpdateFields(ehr: Json.Object, body: Json.Object)
    ensures forall k :: k in body ==> (ehr + body)[k] == body[k]
    ensures forall k :: k in ehr && k !in body ==> (ehr + body)[k] == ehr[k]
    ensures (ehr + body).Keys == ehr.Keys + body.Keys
  {
  }
}
