# Garden Services API — a verified model

The Garden Services API is a small CRUD service over four record kinds:
providers, services, service requests and reviews. A create endpoint
validates its JSON body against the kind's schema. It stores the record in
the collection named after the kind and answers with the new document's id.
A list endpoint fetches that collection and rewrites each document's internal
`_id` into a public text `id`. The requests and reviews endpoints can narrow
the listing by one query parameter.

The model has four modules, one per file:

- `schemas.dfy` (`Schemas`) models the four schemas.
  - A raw JSON body is a `Payload`, a map from keys to `Value`s.
  - One checker function models each declared field shape: required text,
    text or flag with a default, optional text, e-mail, list, date, number
    or integer, and a bounded integer.
  - Each kind has a validator, `ValidateProvider`, `ValidateService`,
    `ValidateRequest` or `ValidateReview`. It returns the typed record, or
    every field's error.
  - `Dump` writes a record back out as a document.
- `schema_properties.dfy` (`SchemaProperties`) proves what the schemas
  promise:
  - the range bounds, at their exact boundaries;
  - the required fields and the defaults;
  - that each field is checked on its own;
  - that a record's stored form validates back to the same record.
- `database.dfy` (`Database`) is the document store that the handlers call.
  Its `Store` class holds the collections and the ids issued so far.
  - `CreateDocument` appends a document under a fresh object id.
  - `Find` returns the documents that match an optional equality filter.
- `api.dfy` (`Api`) models the handlers:
  - the kind-to-collection mapping;
  - the query-parameter filter, where an empty string means no filter
    because of Python truthiness;
  - the in-place `_id` to `id` loop, as a method over an array;
  - the four list handlers and the four create handlers;
  - a `Post` that validates a body before it creates anything.

Four things of the running system become parameters:

- The e-mail format check is a predicate parameter `isEmail`.
- The fresh object id is a parameter `oid`, and the store requires that it
  was not issued before.
- The store itself is passed to the handlers.
- A query parameter is an `Option<string>`.

## Model

| member | source | states |
|---|---|---|
| Schemas.RequiredText | schemas.py:14 | a required `str` field is accepted exactly when present as text, and kept as given; otherwise it is reported missing when absent and of the wrong type when present |
| Schemas.TextOrDefault | schemas.py:39 | a `str` field with a default takes the default when absent; a present one is accepted exactly when it is text, kept unchanged, and is otherwise a wrong-type error |
| Schemas.FlagOrDefault | schemas.py:19 | a `bool` field with a default takes the default when absent; a present one is accepted exactly when it is a boolean, kept as given, and is otherwise a wrong-type error |
| Schemas.OptionalText | schemas.py:16 | an `Optional[str]` field is accepted exactly when absent, null or text; it gives None for absent or null and Some(the text) for text; anything else is a wrong-type error |
| Schemas.RequiredEmail | schemas.py:33 | a required `EmailStr` is accepted exactly when present as text passing the e-mail check, and kept as given; otherwise it is missing, not an e-mail, or of the wrong type |
| Schemas.OptionalEmail | schemas.py:15 | an `Optional[EmailStr]` is accepted exactly when absent, null, or text passing the e-mail check; it gives None or Some(the text); a failing text is not an e-mail, anything else of the wrong type |
| Schemas.TextValues | schemas.py:17 | a list of texts written as JSON values is all text and reads back as the same list |
| Schemas.OptionalTextList | schemas.py:17 | an `Optional[List[str]]` is accepted exactly when absent, null, or a list of texts; it gives None or Some(exactly that list); anything else is a wrong-type error |
| Schemas.OptionalDate | schemas.py:37 | an `Optional[date]` is accepted exactly when absent, null or a date; it gives None or Some(that date); anything else is a wrong-type error |
| Schemas.RangeError | schemas.py:18 | a number gets no range error exactly when it lies within the `ge`/`le` bounds; below the lower bound it gets `GreaterThanEqual`, otherwise `LessThanEqual` |
| Schemas.OptionalNumber | schemas.py:18 | an `Optional[float]` with bounds is accepted exactly when absent, null, or a number (an integer included) within the bounds; it gives None or Some(that number); a number out of bounds gets its range error, anything else a wrong-type error |
| Schemas.OptionalInteger | schemas.py:27 | an `Optional[int]` with a lower bound is accepted exactly when absent, null, or an integer within the bound; it gives None or Some(that integer); an integer out of bounds gets its range error, anything else a wrong-type error |
| Schemas.RequiredInteger | schemas.py:44 | a required bounded `int` is accepted exactly when it is an integer within the bounds, and kept as given; otherwise it is missing, gets its range error, or is of the wrong type |
| Schemas.ValidateProvider | schemas.py:13-19 | a valid Provider is exactly the record the body's fields read as (`ProviderOf`): each given value, None for an absent or null optional field, `is_active` true when absent; it meets the e-mail check and has a rating in [0, 5]; without `name` it fails with a missing-name error |
| Schemas.ValidateService | schemas.py:22-28 | a valid Service is exactly the record the body's fields read as (`ServiceOf`): each given value, None for an absent or null optional field, `is_active` true when absent; its price and duration are not negative; without `title` it fails |
| Schemas.ValidateRequest | schemas.py:31-39 | a valid ServiceRequest is exactly the record the body's fields read as (`RequestOf`): each given value, None for an absent or null optional field, status "pending" when absent; it meets the e-mail check |
| Schemas.ValidateReview | schemas.py:42-46 | a valid Review is exactly the record the body's fields read as (`ReviewOf`), with an integer rating in [1, 5]; without `provider_id` or `rating` it fails with a missing error |
| Schemas.Validate | schemas.py:13-46 | a body validated as kind k gives exactly the record of kind k its fields read as (`RecordOf`), meeting that kind's constraints, or a non-empty list of errors |
| Schemas.ErrorsAt | schemas.py:13-46 | the errors reported against one field are exactly the errors carrying that field's name |
| Schemas.ErrorsAtConcat | schemas.py:13-46 | the errors against one field in a joined error list are those of the first part followed by those of the second |
| SchemaProperties.ProviderRoundTrip | schemas.py:13-19 | a Provider meeting its constraints validates back to itself from its stored form |
| SchemaProperties.ServiceRoundTrip | schemas.py:22-28 | a Service meeting its constraints validates back to itself from its stored form |
| SchemaProperties.RequestRoundTrip | schemas.py:31-39 | a ServiceRequest meeting its constraints validates back to itself from its stored form |
| SchemaProperties.ReviewRoundTrip | schemas.py:42-46 | a Review meeting its constraints validates back to itself from its stored form |
| SchemaProperties.RoundTrip | schemas.py:13-46 | a record's stored form validates back to the record if and only if the record meets its schema's constraints |
| Schemas.Dump | main.py:64 | the document `create_document` stores for a record holds every declared field of its kind, and neither `_id` nor `id` |
| SchemaProperties.ProviderReadBack | schemas.py:13-19 | reading a Provider's stored form back field by field gives the same Provider, for any values |
| SchemaProperties.ServiceReadBack | schemas.py:22-28 | reading a Service's stored form back field by field gives the same Service, for any values |
| SchemaProperties.RequestReadBack | schemas.py:31-39 | reading a ServiceRequest's stored form back field by field gives the same ServiceRequest, for any values |
| SchemaProperties.ReviewReadBack | schemas.py:42-46 | reading a Review's stored form back field by field gives the same Review, for any values |
| SchemaProperties.ReadBack | schemas.py:13-46 | the stored form of any record reads back as that record |
| SchemaProperties.DumpHasNoIdentifiers | schemas.py:13-46 | a record's stored form has exactly the declared fields of its kind, and neither `_id` nor `id` |
| SchemaProperties.TaggedErrorsAt | schemas.py:13-46 | errors that all name one field are all reported against that field and none against any other |
| SchemaProperties.ProviderErrorsAt | schemas.py:13-19 | the Provider errors against field f are exactly what f's own checker reports |
| SchemaProperties.ServiceErrorsAt | schemas.py:22-28 | the Service errors against field f are exactly what f's own checker reports |
| SchemaProperties.RequestErrorsAt | schemas.py:31-39 | the ServiceRequest errors against field f are exactly what f's own checker reports |
| SchemaProperties.ReviewErrorsAt | schemas.py:42-46 | the Review errors against field f are exactly what f's own checker reports |
| SchemaProperties.ProviderFieldErrorsLocal | schemas.py:13-19 | what a Provider field's checker reports depends only on the payload's entry for that field |
| SchemaProperties.ServiceFieldErrorsLocal | schemas.py:22-28 | what a Service field's checker reports depends only on the payload's entry for that field |
| SchemaProperties.RequestFieldErrorsLocal | schemas.py:31-39 | what a ServiceRequest field's checker reports depends only on the payload's entry for that field |
| SchemaProperties.ReviewFieldErrorsLocal | schemas.py:42-46 | what a Review field's checker reports depends only on the payload's entry for that field |
| SchemaProperties.FieldLocal | schemas.py:13-46 | two bodies that agree on field f get the same errors against f, whatever their other fields hold |
| SchemaProperties.ProviderRatingBounds | schemas.py:18 | `rating` passes exactly when it is absent, null, or a number in [0, 5]; an integer or real below 0 makes the body fail with `GreaterThanEqual(0)`, above 5 with `LessThanEqual(5)` |
| SchemaProperties.ProviderDefaults | schemas.py:15-19 | in a valid Provider each optional field is None exactly when it was absent or null, and an absent `is_active` is true |
| SchemaProperties.ServicePriceNonNegative | schemas.py:25 | `base_price` passes exactly when it is absent, null, or a number of at least 0; a negative one makes the body fail |
| SchemaProperties.ServiceDurationNonNegative | schemas.py:27 | `duration_estimate_min` passes exactly when it is absent, null, or an integer of at least 0; a negative one makes the body fail |
| SchemaProperties.RequestRequiredFields | schemas.py:32-36 | each of `customer_name`, `customer_email`, `address` and `service_title`, when absent, is reported missing |
| SchemaProperties.RequestStatusFree | schemas.py:39 | an absent status becomes "pending"; any text status passes and is kept unchanged, with no check against the documented values |
| SchemaProperties.ReviewRatingBounds | schemas.py:44 | `rating` passes exactly when it is an integer in [1, 5]; 0 fails with `GreaterThanEqual(1)` and 6 with `LessThanEqual(5)` |
| SchemaProperties.ReviewProviderIdUnchecked | schemas.py:43 | any text `provider_id` passes and is kept as given; no provider is looked up |
| Database.WithId | main.py:64 | a document stored under `oid` carries `oid` as its object id, and every other key of the data unchanged |
| Database.Matching | main.py:101 | the documents that match a filter, each as often as it is stored and nothing else; with no filter, all of them |
| Database.MatchingIsSubset | main.py:101 | a document is in a filtered listing exactly when it is stored and matches the filter |
| Database.Store.constructor | main.py:8 | the store that stands in for `database.py` (imported here) starts with no collections and no issued ids, and is valid |
| Database.Store.Documents | main.py:70 | a collection that was never written to is empty; in a valid store every document has an issued object id, and no id appears twice |
| Database.Store.Find | main.py:101 | `get_documents` returns the stored documents of the collection that match the filter; with no filter, all of them |
| Database.Store.CreateDocument | main.py:64 | `create_document` appends the data under the fresh id, records that id as issued, returns it, and keeps the store valid |
| Api.CollectionName | schemas.py:4-5 | each kind's collection is named by the lowercase of its class name |
| Api.QueryFilter | main.py:100 | a missing or empty query parameter gives no filter; any other text gives exactly the one-entry filter on the field |
| Api.QueryFilterMatches | main.py:116 | the filter built from a query parameter keeps a document exactly when the parameter is missing or empty, or the document holds that text under the field |
| Api.PublicView | main.py:72 | a listed document has no `_id`, has `id` equal to the text of its former object id, and keeps every other key and value |
| Api.PublicViews | main.py:71-72 | the projected listing has the same number of documents as the stored one, each projected in place |
| Api.ProjectIds | main.py:71-72 | the in-place loop leaves each array slot holding the projection of the document that was there, in the same order |
| Api.ListDocuments | main.py:85-88 | a listing is the projection of exactly the matching stored documents; no listed document has `_id` and each has a text `id` |
| Api.ListProviders | main.py:68-73 | GET /providers lists every stored provider, unfiltered and projected |
| Api.ListServices | main.py:83-88 | GET /services lists every stored service, unfiltered and projected |
| Api.ListRequests | main.py:98-104 | GET /requests lists the requests matching the status filter; a missing or empty status lists them all, and any other status lists only requests with that status |
| Api.ListReviews | main.py:114-120 | GET /reviews lists the reviews matching the provider filter; a missing or empty `provider_id` lists them all, and any other lists only reviews with that provider id |
| Api.ListedFieldHolds | main.py:115-120 | every document of a listing filtered on a field holds the filter's text under that field after projection |
| Api.CreateRecord | main.py:64-65 | a create stores the record's fields in its kind's collection under the fresh id and answers `{"id": oid}` |
| Api.CreateProvider | main.py:62-65 | POST /providers appends the provider to the "provider" collection under the fresh id and answers with that id |
| Api.CreateService | main.py:77-80 | POST /services appends the service to the "service" collection under the fresh id and answers with that id |
| Api.CreateRequest | main.py:92-95 | POST /requests appends the request to the "servicerequest" collection under the fresh id and answers with that id |
| Api.CreateReview | main.py:108-111 | POST /reviews appends the review to the "review" collection under the fresh id and answers with that id |
| Api.Post | main.py:62-65 | a body failing validation is answered with its errors and leaves the store unchanged; a valid one is stored in its kind's collection under the fresh id, which is then issued, and answered with that id |
| Api.ViewOfStored | main.py:72 | storing a document and then projecting it gives back its fields plus `id` |
| Api.StoredListedOnce | main.py:70-73 | after a document is stored under a fresh id, the listing shows exactly one document with that id: the stored fields plus the id |
| Api.CreatedListedOnce | main.py:64-73 | a created record is listed exactly once afterwards, as its stored fields plus its new id, with no `_id` |
| Api.ListedIdsDistinct | main.py:70-73 | the `id`s within one listing are pairwise distinct |

## Left out

- The `/` and `/test` endpoints, the CORS middleware, app start-up and the
  uvicorn launch (main.py:11-58, 123-126). They only report connectivity
  and environment variables, or configure the process.
- `database.py` is not part of this model. `Database.Store` is the smallest
  store the handlers need.
  - It does not model whatever else `create_document` may add to a
    document, such as timestamps.
  - It does not model a database's failures, and it claims nothing about
    MongoDB.
- Database.Store.Find: the listing keeps insertion order. That is an
  assumption of this store only: `get_documents` is in `database.py`, and a
  database query without a sort promises no order. Two things follow from
  that assumption and nothing more:
  - the exact order of the list handlers' results;
  - the clause of `Api.StoredListedOnce` and `Api.CreatedListedOnce` that
    puts the new document last.
- Schemas.Dump: how `create_document` turns a record into a document happens
  in `database.py`. Two things are assumptions about that code: every
  declared field is written, and None is written as null.
- The object id generator is left out. A fresh id is a parameter that the
  store has not issued before.
- Database.Store.CreateDocument: requires that the data has no `_id` key.
  Every stored record's fields come from `Dump`, which never has one.
- Api.PublicView: requires that the document holds an object id under `_id`.
  That is the only kind of `_id` a valid store holds.
  - `str()` of any other `_id` value is not modelled.
  - A document without `_id`, on which `pop` would raise, is not modelled.
- The e-mail address syntax belongs to the `EmailStr` library, so it is the
  parameter `isEmail`.
- Schemas.RequiredEmail, Schemas.OptionalEmail: an accepted address is kept exactly as
  given. `EmailStr` also rewrites the address it accepts: it strips spaces,
  takes `addr` out of `Name <addr>`, and lowercases the domain. So the model
  matches the source only for addresses already in that normal form.
- Date parsing is left out. A date arrives already parsed as a `DateValue`.
- Lax type coercion is left out: for example `"5"` for an int, `1` for a
  bool, or `5.0` for an int. Such input is modelled as a wrong-type error.
  The one coercion modelled is that an integer is accepted for a float field.
- Floating-point rounding is left out. Prices and provider ratings are
  reals compared exactly.
- Schemas.OptionalTextList: a list with a non-text item gets one error for
  the field. The real validator reports one error per bad item.
- The exact wording, location paths and order of the validator's error
  messages are not modelled. An error is a field name and a kind.
- HTTP status codes (201, 422) and JSON encoding are not modelled. `Post`
  answers `Created` or `Unprocessable`.
- Concurrent requests are not modelled. Each handler runs alone on the
  store.
