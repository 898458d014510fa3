/** The lead handlers of the user controller over an abstract lead
    collection: create (stamping the owner), list (the query of
    `LeadQuery`), and get, update and delete by id, each of which answers
    "Lead not found" with 404 when the id is not in the collection. */
module LeadController {
  import opened Wrappers
  import opened ErrorMiddleware
  import opened DbErrors
  import opened LeadModel
  import opened LeadQuery

  /** The `:id` route parameter: an ObjectId, or text that is not one. */
  datatype IdParam = ObjectId(id: LeadId) | Malformed(raw: string)

  /** The body of a successful `GET /leads`. */
  datatype ListResponse = ListResponse(data: seq<Lead>, page: int, limit: int, total: nat, totalPages: int)

  const LeadNotFound: ErrorShape := AppError("Lead not found", 404)

  /** The position of the lead with the given id. */
  function IndexOf(docs: seq<Lead>, id: LeadId): (r: Option<nat>)
    ensures r.Some? ==> r.value < |docs| && docs[r.value].id == id
    ensures r.None? ==> forall i :: 0 <= i < |docs| ==> docs[i].id != id
  {
    if docs == [] then None
    else if docs[0].id == id then Some(0)
    else match IndexOf(docs[1..], id)
      case Some(k) => Some(k + 1)
      case None => None
  }

  /** Some lead other than `except` already holds `email`. */
  predicate EmailTaken(docs: seq<Lead>, email: string, except: Option<LeadId>) {
    exists i :: 0 <= i < |docs| && EmailOf(docs[i].doc) == email && Some(docs[i].id) != except
  }

  /** The document `Lead.create({ ...req.body, createdBy: req.user._id })`
      builds: the owner written last, over any `createdBy` of the body, then
      the setters and the defaults. */
  function NewDoc(body: LeadDoc, owner: UserId): (d: LeadDoc)
    ensures d.createdBy == Some(owner)
  {
    WithDefaults(Lowercased(body.(createdBy := Some(owner))))
  }

  /** Ids are unique, increasing and below `nextId`, every lead is
      stored-valid, and the unique index on `email` holds. */
  ghost predicate WellFormed(docs: seq<Lead>, nextId: LeadId) {
    && (forall i :: 0 <= i < |docs| ==> docs[i].id < nextId && Stored(docs[i].doc))
    && (forall i, j :: 0 <= i < j < |docs| ==> docs[i].id < docs[j].id)
    && (forall i, j :: 0 <= i < j < |docs| ==> EmailOf(docs[i].doc) != EmailOf(docs[j].doc))
  }

  class LeadStore {
    /** The collection, in insertion order. */
    var docs: seq<Lead>
    /** The next id to hand out; ids only grow. */
    var nextId: LeadId

    /** Ids are unique and increasing, every lead is stored-valid, and the
        unique index on `email` holds. */
    ghost predicate Valid()
      reads this
    {
      WellFormed(docs, nextId)
    }

    constructor ()
      ensures Valid() && docs == [] && nextId == 0
    {
      docs := [];
      nextId := 0;
    }

    /** POST /leads. */
    method CreateLead(body: LeadDoc, owner: UserId, now: int) returns (r: Result<Lead, ErrorShape>)
      requires Valid()
      modifies this
      ensures Valid()
      ensures var d := NewDoc(body, owner);
        && (CreateErrors(d) != [] ==> r == Err(ValidationFailure("Lead validation failed", PathNames(CreateErrors(d)))))
        && (CreateErrors(d) == [] && EmailTaken(old(docs), EmailOf(d), None) ==> r == Err(DuplicateKey("email")))
        && (r.Ok? <==> CreateErrors(d) == [] && !EmailTaken(old(docs), EmailOf(d), None))
        && (r.Ok? ==> r.value == Lead(old(nextId), d, now, now))
      ensures r.Ok? ==> r.value.doc.createdBy == Some(owner)
      ensures r.Ok? ==> docs == old(docs) + [r.value] && nextId == old(nextId) + 1
      ensures r.Err? ==> docs == old(docs) && nextId == old(nextId)
    {
      var d := NewDoc(body, owner);
      var errs := CreateErrors(d);
      if errs != [] {
        return Err(ValidationFailure("Lead validation failed", PathNames(errs)));
      }
      if EmailTaken(docs, EmailOf(d), None) {
        return Err(DuplicateKey("email"));
      }
      NewDocStored(body.(createdBy := Some(owner)));
      var lead := Lead(nextId, d, now, now);
      docs := docs + [lead];
      nextId := nextId + 1;
      r := Ok(lead);
    }

    /** GET /leads: the page of the requester's leads the query string asks
        for, with the paging figures. The database rejects a negative skip. */
    method GetLeads(owner: UserId, params: ListParams) returns (r: Result<ListResponse, ErrorShape>)
      requires Valid()
      ensures var page := PageParam(params.page);
        var limit := LimitParam(params.limit);
        var matching := Select(docs, RequestedQuery(owner, params.q, params.status, params.source));
        && (r.Ok? <==> Skip(page, limit) >= 0)
        && (r.Err? ==> r.error == NegativeSkip(Skip(page, limit)))
        && (r.Ok? ==> r.value == ListResponse(
              Window(SortNewestFirst(matching), Skip(page, limit), limit),
              page, limit, |matching|, TotalPages(|matching|, limit)))
    {
      var page := PageParam(params.page);
      var limit := LimitParam(params.limit);
      var query := BuildQuery(owner, params.q, params.status, params.source);
      var matching := Select(docs, query);
      var total := |matching|;
      var skip := Skip(page, limit);
      if skip < 0 {
        return Err(NegativeSkip(skip));
      }
      var data := Window(SortNewestFirst(matching), skip, limit);
      r := Ok(ListResponse(data, page, limit, total, TotalPages(total, limit)));
    }

    /** GET /leads/:id. The lookup is by id alone, whoever owns the lead. */
    method GetLeadById(param: IdParam) returns (r: Result<Lead, ErrorShape>)
      requires Valid()
      ensures param.Malformed? ==> r == Err(CastFailure("_id"))
      ensures param.ObjectId? ==> (r.Ok? <==> exists i :: 0 <= i < |docs| && docs[i].id == param.id)
      ensures param.ObjectId? && r.Err? ==> r.error == LeadNotFound
      ensures r.Ok? ==> r.value in docs && r.value.id == param.id
    {
      if param.Malformed? {
        return Err(CastFailure("_id"));
      }
      var k := IndexOf(docs, param.id);
      if k.None? {
        return Err(LeadNotFound);
      }
      r := Ok(docs[k.value]);
    }

    /** PUT /leads/:id with `runValidators`: the body's paths are lower-cased
        and checked by the update validators, then set on the lead, whose
        `updated_at` becomes `now`. The body may set `createdBy`. */
    method UpdateLead(param: IdParam, patch: LeadDoc, now: int) returns (r: Result<Lead, ErrorShape>)
      requires Valid()
      modifies this
      ensures Valid() && nextId == old(nextId)
      ensures param.Malformed? ==> r == Err(CastFailure("_id"))
      ensures param.ObjectId? && UpdateErrors(Lowercased(patch)) != []
        ==> r == Err(ValidationFailure("Validation failed", PathNames(UpdateErrors(Lowercased(patch)))))
      ensures param.ObjectId? && UpdateErrors(Lowercased(patch)) == [] && IndexOf(old(docs), param.id).None?
        ==> r == Err(LeadNotFound)
      ensures param.ObjectId? && UpdateErrors(Lowercased(patch)) == [] && IndexOf(old(docs), param.id).Some?
        ==> var k := IndexOf(old(docs), param.id).value;
            var merged := Merge(old(docs)[k].doc, Lowercased(patch));
            if EmailTaken(old(docs), EmailOf(merged), Some(param.id)) then r == Err(DuplicateKey("email"))
            else r == Ok(Lead(param.id, merged, old(docs)[k].created_at, now)) && docs == old(docs)[k := r.value]
      ensures r.Err? ==> docs == old(docs)
    {
      if param.Malformed? {
        return Err(CastFailure("_id"));
      }
      var p := Lowercased(patch);
      var errs := UpdateErrors(p);
      if errs != [] {
        return Err(ValidationFailure("Validation failed", PathNames(errs)));
      }
      var k := IndexOf(docs, param.id);
      if k.None? {
        return Err(LeadNotFound);
      }
      var current := docs[k.value];
      var merged := Merge(current.doc, p);
      if EmailTaken(docs, EmailOf(merged), Some(param.id)) {
        return Err(DuplicateKey("email"));
      }
      MergeKeepsStored(current.doc, patch);
      var updated := Lead(param.id, merged, current.created_at, now);
      docs := docs[k.value := updated];
      r := Ok(updated);
    }

    /** DELETE /leads/:id. */
    method DeleteLead(param: IdParam) returns (r: Result<Lead, ErrorShape>)
      requires Valid()
      modifies this
      ensures Valid() && nextId == old(nextId)
      ensures param.Malformed? ==> r == Err(CastFailure("_id"))
      ensures param.ObjectId? && IndexOf(old(docs), param.id).None? ==> r == Err(LeadNotFound)
      ensures param.ObjectId? && IndexOf(old(docs), param.id).Some?
        ==> var k := IndexOf(old(docs), param.id).value;
            r == Ok(old(docs)[k]) && docs == old(docs)[..k] + old(docs)[k + 1..]
      ensures r.Err? ==> docs == old(docs)
      ensures r.Ok? ==> |docs| == |old(docs)| - 1 && forall x :: x in docs <==> x in old(docs) && x.id != param.id
    {
      if param.Malformed? {
        return Err(CastFailure("_id"));
      }
      var k := IndexOf(docs, param.id);
      if k.None? {
        return Err(LeadNotFound);
      }
      var removed := docs[k.value];
      DeleteKeepsWellFormed(docs, nextId, k.value);
      DeleteRemovesId(docs, nextId, k.value);
      docs := docs[..k.value] + docs[k.value + 1..];
      r := Ok(removed);
    }
  }

  lemma RemoveAtIndexes(docs: seq<Lead>, k: nat)
    requires k < |docs|
    ensures var rest := docs[..k] + docs[k + 1..];
      && |rest| == |docs| - 1
      && (forall i :: 0 <= i < |rest| ==> rest[i] == docs[if i < k then i else i + 1])
  {
  }

  /** Removing one lead keeps the collection well formed. */
  lemma DeleteKeepsWellFormed(docs: seq<Lead>, nextId: LeadId, k: nat)
    requires k < |docs| && WellFormed(docs, nextId)
    ensures WellFormed(docs[..k] + docs[k + 1..], nextId)
  {
    var rest := docs[..k] + docs[k + 1..];
    RemoveAtIndexes(docs, k);
    forall i | 0 <= i < |rest| ensures rest[i].id < nextId && Stored(rest[i].doc) {
      assert rest[i] == docs[if i < k then i else i + 1];
    }
    forall i, j | 0 <= i < j < |rest|
      ensures rest[i].id < rest[j].id && EmailOf(rest[i].doc) != EmailOf(rest[j].doc)
    {
      var i' := if i < k then i else i + 1;
      var j' := if j < k then j else j + 1;
      assert rest[i] == docs[i'] && rest[j] == docs[j'] && i' < j';
    }
  }

  /** Removing the lead at `k` removes exactly the lead with its id. */
  lemma DeleteRemovesId(docs: seq<Lead>, nextId: LeadId, k: nat)
    requires k < |docs| && WellFormed(docs, nextId)
    ensures forall x :: x in docs[..k] + docs[k + 1..] <==> x in docs && x.id != docs[k].id
  {
    var rest := docs[..k] + docs[k + 1..];
    RemoveAtIndexes(docs, k);
    forall x | x in docs && x.id != docs[k].id ensures x in rest {
      var i :| 0 <= i < |docs| && docs[i] == x;
      assert i != k;
      if i < k { assert rest[i] == x; } else { assert rest[i - 1] == x; }
    }
    forall x | x in rest ensures x in docs && x.id != docs[k].id {
      var i :| 0 <= i < |rest| && rest[i] == x;
      var i' := if i < k then i else i + 1;
      assert x == docs[i'] && i' != k;
    }
  }

  /** A lead just created can be read back by its id, equal to what the
      create returned. */
  method CreateThenGet(store: LeadStore, body: LeadDoc, owner: UserId, now: int) returns (created: Result<Lead, ErrorShape>, fetched: Result<Lead, ErrorShape>)
    requires store.Valid()
    modifies store
    ensures store.Valid()
    ensures created.Ok? ==> fetched == created
  {
    created := store.CreateLead(body, owner, now);
    if created.Ok? {
      fetched := store.GetLeadById(ObjectId(created.value.id));
      assert store.docs[|store.docs| - 1] == created.value;
      assert fetched.Ok?;
    } else {
      fetched := created;
    }
  }

  /** A missing lead reaches the client as 404 "Lead not found". */
  method NotFoundReply() returns (reply: Reply)
    ensures reply == Reply(404, false, "Lead not found")
  {
    reply := HandleError(LeadNotFound);
  }
}
