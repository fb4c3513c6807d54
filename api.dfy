/**
 * The HTTP handlers: one create and one list endpoint per record kind. A
 * create handler stores the validated record in the collection named after its
 * kind; a list handler fetches a collection, optionally filtered on one field,
 * and rewrites each document's internal `_id` into a public text `id`.
 */
module Api {
  import opened Schemas
  import opened Database
  import SchemaProperties

  // ---------------------------------------------------------------------------
  // Collection names
  // ---------------------------------------------------------------------------

  function LowerChar(c: char): char
  {
    if 'A' <= c <= 'Z' then (c as int - 'A' as int + 'a' as int) as char else c
  }

  function Lowercase(s: string): (r: string)
    ensures |r| == |s|
    ensures forall i :: 0 <= i < |s| ==> r[i] == LowerChar(s[i])
  {
    seq(|s|, i requires 0 <= i < |s| => LowerChar(s[i]))
  }

  /** Each record kind is stored in the collection named by the lowercase of its class name. */
  function CollectionName(k: Kind): (name: string)
    ensures name == Lowercase(KindName(k))
  {
    match k
    case ProviderKind => "provider"
    case ServiceKind => "service"
    case ServiceRequestKind => "servicerequest"
    case ReviewKind => "review"
  }

  // ---------------------------------------------------------------------------
  // Query filters
  // ---------------------------------------------------------------------------

  /**
   * `{field: param} if param else None`: a missing or empty query parameter
   * gives no filter, any other text the one-entry equality filter.
   */
  function QueryFilter(field: string, param: Option<string>): (filt: Option<Doc>)
    ensures filt.None? <==> param.None? || param.value == ""
    ensures filt.Some? ==> filt.value == map[field := Str(param.value)]
  {
    if param.Some? && param.value != "" then Some(map[field := Str(param.value)]) else None
  }

  /** The filter built from a query parameter keeps exactly the documents holding that text. */
  lemma QueryFilterMatches(field: string, param: Option<string>, d: Doc)
    ensures Matches(d, QueryFilter(field, param)) <==>
      param.None? || param.value == "" || (field in d && d[field] == Str(param.value))
  {
    if param.Some? && param.value != "" {
      assert field in QueryFilter(field, param).value;
    }
  }

  // ---------------------------------------------------------------------------
  // The `_id` to `id` projection
  // ---------------------------------------------------------------------------

  /** One listed document after `i["id"] = str(i.pop("_id"))`. */
  function PublicView(d: Doc): (r: Doc)
    requires HasObjectId(d)
    ensures ID_KEY !in r
    ensures "id" in r && r["id"] == Str(IdOf(d))
    ensures forall k :: k != ID_KEY && k != "id" ==> (k in r <==> k in d)
    ensures forall k :: k in d && k != ID_KEY && k != "id" ==> r[k] == d[k]
  {
    (d - {ID_KEY})["id" := Str(IdOf(d))]
  }

  predicate AllHaveIds(docs: seq<Doc>)
  {
    forall d :: d in docs ==> HasObjectId(d)
  }

  function PublicViews(docs: seq<Doc>): (r: seq<Doc>)
    requires AllHaveIds(docs)
    ensures |r| == |docs|
    ensures forall i :: 0 <= i < |docs| ==> r[i] == PublicView(docs[i])
  {
    seq(|docs|, i requires 0 <= i < |docs| => PublicView(docs[i]))
  }

  /**
   * The loop of the list handlers, `for i in items: i["id"] = str(i.pop("_id"))`:
   * rewrites each document in place, keeping their number and order.
   */
  method ProjectIds(docs: array<Doc>)
    requires AllHaveIds(docs[..])
    modifies docs
    ensures docs[..] == PublicViews(old(docs[..]))
  {
    ghost var found := docs[..];
    var i := 0;
    while i < docs.Length
      invariant 0 <= i <= docs.Length
      invariant forall j :: 0 <= j < i ==> docs[j] == PublicView(found[j])
      invariant forall j :: i <= j < docs.Length ==> docs[j] == found[j]
    {
      assert found[i] in found;
      var d := docs[i];
      var id := d[ID_KEY];
      d := d - {ID_KEY};
      d := d["id" := Str(id.hex)];
      docs[i] := d;
      i := i + 1;
    }
  }

  /**
   * The body shared by the four list handlers: fetch the matching documents
   * and project each one's `_id` into `id`.
   */
  method ListDocuments(store: Store, coll: string, filt: Option<Doc>) returns (items: seq<Doc>)
    requires store.Valid()
    ensures AllHaveIds(store.Find(coll, filt))
    ensures items == PublicViews(store.Find(coll, filt))
    ensures forall d: Doc :: d in items ==> ID_KEY !in d && "id" in d && d["id"].Str?
  {
    var found := store.Find(coll, filt);
    var docs := new Doc[|found|](i requires 0 <= i < |found| => found[i]);
    assert docs[..] == found;
    ProjectIds(docs);
    items := docs[..];
  }

  // ---------------------------------------------------------------------------
  // List handlers
  // ---------------------------------------------------------------------------

  /** GET /providers: every stored provider, with no filter. */
  method ListProviders(store: Store) returns (items: seq<Doc>)
    requires store.Valid()
    ensures AllHaveIds(store.Documents(CollectionName(ProviderKind)))
    ensures items == PublicViews(store.Documents(CollectionName(ProviderKind)))
  {
    items := ListDocuments(store, CollectionName(ProviderKind), None);
  }

  /** GET /services: every stored service, with no filter. */
  method ListServices(store: Store) returns (items: seq<Doc>)
    requires store.Valid()
    ensures AllHaveIds(store.Documents(CollectionName(ServiceKind)))
    ensures items == PublicViews(store.Documents(CollectionName(ServiceKind)))
  {
    items := ListDocuments(store, CollectionName(ServiceKind), None);
  }

  /** GET /requests?status=..: the stored requests, narrowed to one status when one is given. */
  method ListRequests(store: Store, status: Option<string>) returns (items: seq<Doc>)
    requires store.Valid()
    ensures AllHaveIds(store.Find(CollectionName(ServiceRequestKind), QueryFilter("status", status)))
    ensures items == PublicViews(store.Find(CollectionName(ServiceRequestKind), QueryFilter("status", status)))
    ensures status.None? || status.value == "" ==>
      items == PublicViews(store.Documents(CollectionName(ServiceRequestKind)))
    ensures status.Some? && status.value != "" ==>
      forall d :: d in items ==> "status" in d && d["status"] == Str(status.value)
  {
    var filt := QueryFilter("status", status);
    items := ListDocuments(store, CollectionName(ServiceRequestKind), filt);
    ListedFieldHolds(store, CollectionName(ServiceRequestKind), "status", status, items);
  }

  /** GET /reviews?provider_id=..: the stored reviews, narrowed to one provider when one is given. */
  method ListReviews(store: Store, providerId: Option<string>) returns (items: seq<Doc>)
    requires store.Valid()
    ensures AllHaveIds(store.Find(CollectionName(ReviewKind), QueryFilter("provider_id", providerId)))
    ensures items == PublicViews(store.Find(CollectionName(ReviewKind), QueryFilter("provider_id", providerId)))
    ensures providerId.None? || providerId.value == "" ==>
      items == PublicViews(store.Documents(CollectionName(ReviewKind)))
    ensures providerId.Some? && providerId.value != "" ==>
      forall d :: d in items ==> "provider_id" in d && d["provider_id"] == Str(providerId.value)
  {
    var filt := QueryFilter("provider_id", providerId);
    items := ListDocuments(store, CollectionName(ReviewKind), filt);
    ListedFieldHolds(store, CollectionName(ReviewKind), "provider_id", providerId, items);
  }

  /** A filtered listing holds the filter's text under the filtered field, which the projection keeps. */
  lemma ListedFieldHolds(store: Store, coll: string, field: string, param: Option<string>, items: seq<Doc>)
    requires store.Valid()
    requires field != ID_KEY && field != "id"
    requires AllHaveIds(store.Find(coll, QueryFilter(field, param)))
    requires items == PublicViews(store.Find(coll, QueryFilter(field, param)))
    ensures param.Some? && param.value != "" ==>
      forall d :: d in items ==> field in d && d[field] == Str(param.value)
  {
    var found := store.Find(coll, QueryFilter(field, param));
    forall d | d in items
      ensures param.Some? && param.value != "" ==> field in d && d[field] == Str(param.value)
    {
      var i :| 0 <= i < |items| && items[i] == d;
      assert found[i] in found;
      QueryFilterMatches(field, param, found[i]);
    }
  }

  // ---------------------------------------------------------------------------
  // Create handlers
  // ---------------------------------------------------------------------------

  /**
   * The body shared by the four create handlers: store the record's fields in
   * its kind's collection under the fresh object id `oid`, and answer with that
   * id. The store issues `oid`; it is a parameter here.
   */
  method CreateRecord(store: Store, rec: Record, oid: string) returns (resp: map<string, string>)
    requires store.Valid()
    requires oid !in store.issued
    modifies store
    ensures store.Valid()
    ensures resp == map["id" := oid]
    ensures store.issued == old(store.issued) + {oid}
    ensures store.collections == old(store.collections)[CollectionName(KindOf(rec)) :=
      old(store.Documents(CollectionName(KindOf(rec)))) + [WithId(Dump(rec), oid)]]
  {
    SchemaProperties.DumpHasNoIdentifiers(rec);
    var id := store.CreateDocument(CollectionName(KindOf(rec)), Dump(rec), oid);
    resp := map["id" := id];
  }

  /** POST /providers, once the body has validated as a Provider. */
  method CreateProvider(store: Store, provider: Provider, oid: string) returns (resp: map<string, string>)
    requires store.Valid()
    requires oid !in store.issued
    modifies store
    ensures store.Valid()
    ensures resp == map["id" := oid]
    ensures store.issued == old(store.issued) + {oid}
    ensures store.collections == old(store.collections)[CollectionName(ProviderKind) :=
      old(store.Documents(CollectionName(ProviderKind))) + [WithId(Dump(ProviderRecord(provider)), oid)]]
  {
    resp := CreateRecord(store, ProviderRecord(provider), oid);
  }

  /** POST /services, once the body has validated as a Service. */
  method CreateService(store: Store, service: Service, oid: string) returns (resp: map<string, string>)
    requires store.Valid()
    requires oid !in store.issued
    modifies store
    ensures store.Valid()
    ensures resp == map["id" := oid]
    ensures store.issued == old(store.issued) + {oid}
    ensures store.collections == old(store.collections)[CollectionName(ServiceKind) :=
      old(store.Documents(CollectionName(ServiceKind))) + [WithId(Dump(ServiceRecord(service)), oid)]]
  {
    resp := CreateRecord(store, ServiceRecord(service), oid);
  }

  /** POST /requests, once the body has validated as a ServiceRequest. */
  method CreateRequest(store: Store, request: ServiceRequest, oid: string) returns (resp: map<string, string>)
    requires store.Valid()
    requires oid !in store.issued
    modifies store
    ensures store.Valid()
    ensures resp == map["id" := oid]
    ensures store.issued == old(store.issued) + {oid}
    ensures store.collections == old(store.collections)[CollectionName(ServiceRequestKind) :=
      old(store.Documents(CollectionName(ServiceRequestKind))) + [WithId(Dump(ServiceRequestRecord(request)), oid)]]
  {
    resp := CreateRecord(store, ServiceRequestRecord(request), oid);
  }

  /** POST /reviews, once the body has validated as a Review. */
  method CreateReview(store: Store, review: Review, oid: string) returns (resp: map<string, string>)
    requires store.Valid()
    requires oid !in store.issued
    modifies store
    ensures store.Valid()
    ensures resp == map["id" := oid]
    ensures store.issued == old(store.issued) + {oid}
    ensures store.collections == old(store.collections)[CollectionName(ReviewKind) :=
      old(store.Documents(CollectionName(ReviewKind))) + [WithId(Dump(ReviewRecord(review)), oid)]]
  {
    resp := CreateRecord(store, ReviewRecord(review), oid);
  }

  /** What a POST answers: the new id, or the field errors of a body that failed validation. */
  datatype Response = Created(id: string) | Unprocessable(errors: seq<FieldError>)

  /**
   * A POST to the endpoint of kind `k`: the body is validated first, and only a
   * valid body reaches the create handler; an invalid one leaves the store as it was.
   */
  method Post(store: Store, k: Kind, body: Payload, isEmail: string -> bool, oid: string) returns (resp: Response)
    requires store.Valid()
    requires oid !in store.issued
    modifies store
    ensures store.Valid()
    ensures Validate(k, body, isEmail).Err? ==>
      resp == Unprocessable(Validate(k, body, isEmail).errors) && unchanged(store)
    ensures Validate(k, body, isEmail).Ok? ==>
      && resp == Created(oid)
      && store.issued == old(store.issued) + {oid}
      && Constraints(Validate(k, body, isEmail).value, isEmail)
      && store.collections == old(store.collections)[CollectionName(k) :=
           old(store.Documents(CollectionName(k))) + [WithId(Dump(Validate(k, body, isEmail).value), oid)]]
  {
    var r := Validate(k, body, isEmail);
    if r.Err? {
      resp := Unprocessable(r.errors);
    } else {
      var created := CreateRecord(store, r.value, oid);
      resp := Created(created["id"]);
    }
  }

  // ---------------------------------------------------------------------------
  // Listing after creating
  // ---------------------------------------------------------------------------

  /** How many listed documents carry the public id `id`. */
  function CountWithId(items: seq<Doc>, id: string): (n: nat)
    ensures n <= |items|
  {
    if items == [] then 0
    else
      var last := items[|items| - 1];
      CountWithId(items[..|items| - 1], id) + if "id" in last && last["id"] == Str(id) then 1 else 0
  }

  lemma {:induction false} NoneListedWithId(docs: seq<Doc>, id: string)
    requires AllHaveIds(docs)
    requires forall d :: d in docs ==> IdOf(d) != id
    ensures CountWithId(PublicViews(docs), id) == 0
  {
    if docs != [] {
      var n := |docs| - 1;
      assert PublicViews(docs)[..n] == PublicViews(docs[..n]);
      assert docs[n] in docs;
      assert forall d :: d in docs[..n] ==> d in docs;
      NoneListedWithId(docs[..n], id);
    }
  }

  /** Storing a document and projecting it again gives back its fields plus its id. */
  lemma ViewOfStored(data: Doc, oid: string)
    requires ID_KEY !in data
    ensures PublicView(WithId(data, oid)) == data["id" := Str(oid)]
  {
    assert WithId(data, oid) - {ID_KEY} == data;
  }

  /**
   * A document stored under a fresh id is listed afterwards exactly once, as
   * its stored fields plus that id and without the internal `_id`.
   */
  lemma StoredListedOnce(docs: seq<Doc>, issued: set<string>, data: Doc, oid: string)
    requires WellStored(docs, issued)
    requires oid !in issued
    requires ID_KEY !in data
    ensures AllHaveIds(docs + [WithId(data, oid)])
    ensures var listed := PublicViews(docs + [WithId(data, oid)]);
      && CountWithId(listed, oid) == 1
      && data["id" := Str(oid)] in listed
      && listed[|listed| - 1] == data["id" := Str(oid)]
  {
    var stored := docs + [WithId(data, oid)];
    assert forall d :: d in stored ==> d in docs || d == WithId(data, oid);
    var listed := PublicViews(stored);
    assert listed[..|docs|] == PublicViews(docs);
    NoneListedWithId(docs, oid);
    ViewOfStored(data, oid);
  }

  /** The same for a created record: listing its kind shows it once, as its fields plus its id. */
  lemma CreatedListedOnce(docs: seq<Doc>, issued: set<string>, rec: Record, oid: string)
    requires WellStored(docs, issued)
    requires oid !in issued
    ensures AllHaveIds(docs + [WithId(Dump(rec), oid)])
    ensures var listed := PublicViews(docs + [WithId(Dump(rec), oid)]);
      && CountWithId(listed, oid) == 1
      && Dump(rec)["id" := Str(oid)] in listed
      && listed[|listed| - 1] == Dump(rec)["id" := Str(oid)]
  {
    SchemaProperties.DumpHasNoIdentifiers(rec);
    StoredListedOnce(docs, issued, Dump(rec), oid);
  }

  /** The ids of one listing are pairwise distinct. */
  lemma ListedIdsDistinct(docs: seq<Doc>, issued: set<string>)
    requires WellStored(docs, issued)
    ensures AllHaveIds(docs)
    ensures forall i, j :: 0 <= i < j < |docs| ==> PublicViews(docs)[i]["id"] != PublicViews(docs)[j]["id"]
  {
    forall i, j | 0 <= i < j < |docs|
      ensures PublicViews(docs)[i]["id"] != PublicViews(docs)[j]["id"]
    {
      assert docs[i] in docs && docs[j] in docs;
    }
  }
}
