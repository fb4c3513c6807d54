/**
 * What the four schemas promise: required fields, range bounds at their exact
 * boundaries, default substitution, per-field independence, and that a record
 * written out as a document validates back to itself.
 */
module SchemaProperties {
  import opened Schemas

  // ---------------------------------------------------------------------------
  // Round trip: a record validates back to itself from its stored form exactly
  // when it satisfies its schema's constraints.
  // ---------------------------------------------------------------------------

  lemma ProviderRoundTrip(v: Provider, isEmail: string -> bool)
    requires ProviderConstraints(v, isEmail)
    ensures ValidateProvider(Dump(ProviderRecord(v)), isEmail) == Ok(v)
  {
  }

  lemma ServiceRoundTrip(v: Service)
    requires ServiceConstraints(v)
    ensures ValidateService(Dump(ServiceRecord(v))) == Ok(v)
  {
  }

  lemma RequestRoundTrip(v: ServiceRequest, isEmail: string -> bool)
    requires RequestConstraints(v, isEmail)
    ensures ValidateRequest(Dump(ServiceRequestRecord(v)), isEmail) == Ok(v)
  {
  }

  lemma ReviewRoundTrip(v: Review)
    requires ReviewConstraints(v)
    ensures ValidateReview(Dump(ReviewRecord(v))) == Ok(v)
  {
  }

  /** Validation inverts the stored form on, and only on, the records it can produce. */
  lemma RoundTrip(rec: Record, isEmail: string -> bool)
    ensures Validate(KindOf(rec), Dump(rec), isEmail) == Ok(rec) <==> Constraints(rec, isEmail)
  {
    if Constraints(rec, isEmail) {
      match rec
      case ProviderRecord(v) => ProviderRoundTrip(v, isEmail);
      case ServiceRecord(v) => ServiceRoundTrip(v);
      case ServiceRequestRecord(v) => RequestRoundTrip(v, isEmail);
      case ReviewRecord(v) => ReviewRoundTrip(v);
    }
  }

  // Reading a record's stored form back field by field gives the record,
  // whatever its values.

  lemma ProviderReadBack(v: Provider)
    ensures ProviderOf(Dump(ProviderRecord(v))) == v
  {
  }

  lemma ServiceReadBack(v: Service)
    ensures ServiceOf(Dump(ServiceRecord(v))) == v
  {
  }

  lemma RequestReadBack(v: ServiceRequest)
    ensures RequestOf(Dump(ServiceRequestRecord(v))) == v
  {
  }

  lemma ReviewReadBack(v: Review)
    ensures ReviewOf(Dump(ReviewRecord(v))) == v
  {
  }

  /** The stored form of any record reads back as that record. */
  lemma ReadBack(rec: Record)
    ensures RecordOf(KindOf(rec), Dump(rec)) == rec
  {
    match rec
    case ProviderRecord(v) => ProviderReadBack(v);
    case ServiceRecord(v) => ServiceReadBack(v);
    case ServiceRequestRecord(v) => RequestReadBack(v);
    case ReviewRecord(v) => ReviewReadBack(v);
  }

  /** The stored form carries only declared fields, never the store's `_id` or the public `id`. */
  lemma DumpHasNoIdentifiers(rec: Record)
    ensures "_id" !in Dump(rec) && "id" !in Dump(rec)
    ensures forall f :: f in Dump(rec) <==> f in Fields(KindOf(rec))
  {
  }

  // ---------------------------------------------------------------------------
  // Per-field independence. Every checker tags its error with its own field
  // name, so the errors against a field f are exactly the errors of f's own
  // checker, which sees only f's raw entry.
  // ---------------------------------------------------------------------------

  predicate TaggedWith(errs: seq<FieldError>, name: string)
  {
    forall e :: e in errs ==> e.field == name
  }

  lemma {:induction false} TaggedErrorsAt(errs: seq<FieldError>, name: string, f: string)
    requires TaggedWith(errs, name)
    ensures ErrorsAt(errs, f) == if name == f then errs else []
  {
    if errs != [] {
      assert errs[0] in errs;
      TaggedErrorsAt(errs[1..], name, f);
      assert [errs[0]] + errs[1..] == errs;
    }
  }

  function Only(name: string, f: string, errs: seq<FieldError>): seq<FieldError>
  {
    if name == f then errs else []
  }

  lemma TaggedErrorsAt4(a: seq<FieldError>, b: seq<FieldError>, c: seq<FieldError>, d: seq<FieldError>,
                        na: string, nb: string, nc: string, nd: string, f: string)
    requires TaggedWith(a, na) && TaggedWith(b, nb) && TaggedWith(c, nc) && TaggedWith(d, nd)
    ensures ErrorsAt(a + b + c + d, f) == Only(na, f, a) + Only(nb, f, b) + Only(nc, f, c) + Only(nd, f, d)
  {
    ErrorsAtConcat(a + b + c, d, f);
    ErrorsAtConcat(a + b, c, f);
    ErrorsAtConcat(a, b, f);
    TaggedErrorsAt(a, na, f);
    TaggedErrorsAt(b, nb, f);
    TaggedErrorsAt(c, nc, f);
    TaggedErrorsAt(d, nd, f);
  }

  lemma TaggedErrorsAt6(a: seq<FieldError>, b: seq<FieldError>, c: seq<FieldError>, d: seq<FieldError>,
                        e: seq<FieldError>, g: seq<FieldError>,
                        na: string, nb: string, nc: string, nd: string, ne: string, ng: string, f: string)
    requires TaggedWith(a, na) && TaggedWith(b, nb) && TaggedWith(c, nc) && TaggedWith(d, nd)
    requires TaggedWith(e, ne) && TaggedWith(g, ng)
    ensures ErrorsAt(a + b + c + d + e + g, f) ==
      Only(na, f, a) + Only(nb, f, b) + Only(nc, f, c) + Only(nd, f, d) + Only(ne, f, e) + Only(ng, f, g)
  {
    TaggedErrorsAt4(a, b, c, d, na, nb, nc, nd, f);
    ErrorsAtConcat(a + b + c + d + e, g, f);
    ErrorsAtConcat(a + b + c + d, e, f);
    TaggedErrorsAt(e, ne, f);
    TaggedErrorsAt(g, ng, f);
  }

  lemma TaggedErrorsAt8(a: seq<FieldError>, b: seq<FieldError>, c: seq<FieldError>, d: seq<FieldError>,
                        e: seq<FieldError>, g: seq<FieldError>, h: seq<FieldError>, i: seq<FieldError>,
                        na: string, nb: string, nc: string, nd: string, ne: string, ng: string, nh: string, ni: string, f: string)
    requires TaggedWith(a, na) && TaggedWith(b, nb) && TaggedWith(c, nc) && TaggedWith(d, nd)
    requires TaggedWith(e, ne) && TaggedWith(g, ng) && TaggedWith(h, nh) && TaggedWith(i, ni)
    ensures ErrorsAt(a + b + c + d + e + g + h + i, f) ==
      Only(na, f, a) + Only(nb, f, b) + Only(nc, f, c) + Only(nd, f, d)
      + Only(ne, f, e) + Only(ng, f, g) + Only(nh, f, h) + Only(ni, f, i)
  {
    TaggedErrorsAt6(a, b, c, d, e, g, na, nb, nc, nd, ne, ng, f);
    ErrorsAtConcat(a + b + c + d + e + g + h, i, f);
    ErrorsAtConcat(a + b + c + d + e + g, h, f);
    TaggedErrorsAt(h, nh, f);
    TaggedErrorsAt(i, ni, f);
  }

  /** A sum of field-guarded parts picks out the one part whose field is f. */
  lemma PickField4(f: string, na: string, nb: string, nc: string, nd: string,
                   a: seq<FieldError>, b: seq<FieldError>, c: seq<FieldError>, d: seq<FieldError>)
    requires na != nb && na != nc && na != nd && nb != nc && nb != nd && nc != nd
    ensures Only(na, f, a) + Only(nb, f, b) + Only(nc, f, c) + Only(nd, f, d) ==
      if f == na then a else if f == nb then b else if f == nc then c else if f == nd then d else []
  {
  }

  lemma PickField6(f: string, na: string, nb: string, nc: string, nd: string, ne: string, ng: string,
                   a: seq<FieldError>, b: seq<FieldError>, c: seq<FieldError>, d: seq<FieldError>,
                   e: seq<FieldError>, g: seq<FieldError>)
    requires na != nb && na != nc && na != nd && na != ne && na != ng
    requires nb != nc && nb != nd && nb != ne && nb != ng
    requires nc != nd && nc != ne && nc != ng
    requires nd != ne && nd != ng && ne != ng
    ensures Only(na, f, a) + Only(nb, f, b) + Only(nc, f, c) + Only(nd, f, d) + Only(ne, f, e) + Only(ng, f, g) ==
      if f == na then a else if f == nb then b else if f == nc then c else if f == nd then d
      else if f == ne then e else if f == ng then g else []
  {
  }

  lemma PickField8(f: string, na: string, nb: string, nc: string, nd: string, ne: string, ng: string, nh: string, ni: string,
                   a: seq<FieldError>, b: seq<FieldError>, c: seq<FieldError>, d: seq<FieldError>,
                   e: seq<FieldError>, g: seq<FieldError>, h: seq<FieldError>, i: seq<FieldError>)
    requires na != nb && na != nc && na != nd && na != ne && na != ng && na != nh && na != ni
    requires nb != nc && nb != nd && nb != ne && nb != ng && nb != nh && nb != ni
    requires nc != nd && nc != ne && nc != ng && nc != nh && nc != ni
    requires nd != ne && nd != ng && nd != nh && nd != ni
    requires ne != ng && ne != nh && ne != ni
    requires ng != nh && ng != ni && nh != ni
    ensures Only(na, f, a) + Only(nb, f, b) + Only(nc, f, c) + Only(nd, f, d)
      + Only(ne, f, e) + Only(ng, f, g) + Only(nh, f, h) + Only(ni, f, i) ==
      if f == na then a else if f == nb then b else if f == nc then c else if f == nd then d
      else if f == ne then e else if f == ng then g else if f == nh then h else if f == ni then i else []
  {
  }

  /** What the checker of declared field f reports; it reads only p's entry for f. */
  function ProviderFieldErrors(f: string, p: Payload, isEmail: string -> bool): seq<FieldError>
  {
    if f == "name" then Problems(RequiredText("name", Field(p, "name")))
    else if f == "email" then Problems(OptionalEmail("email", Field(p, "email"), isEmail))
    else if f == "phone" then Problems(OptionalText("phone", Field(p, "phone")))
    else if f == "service_areas" then Problems(OptionalTextList("service_areas", Field(p, "service_areas")))
    else if f == "rating" then Problems(OptionalNumber("rating", Field(p, "rating"), Some(PROVIDER_RATING_MIN), Some(PROVIDER_RATING_MAX)))
    else if f == "is_active" then Problems(FlagOrDefault("is_active", Field(p, "is_active"), true))
    else []
  }

  function ServiceFieldErrors(f: string, p: Payload): seq<FieldError>
  {
    if f == "title" then Problems(RequiredText("title", Field(p, "title")))
    else if f == "description" then Problems(OptionalText("description", Field(p, "description")))
    else if f == "base_price" then Problems(OptionalNumber("base_price", Field(p, "base_price"), Some(0.0), None))
    else if f == "category" then Problems(OptionalText("category", Field(p, "category")))
    else if f == "duration_estimate_min" then Problems(OptionalInteger("duration_estimate_min", Field(p, "duration_estimate_min"), Some(0.0), None))
    else if f == "is_active" then Problems(FlagOrDefault("is_active", Field(p, "is_active"), true))
    else []
  }

  function RequestFieldErrors(f: string, p: Payload, isEmail: string -> bool): seq<FieldError>
  {
    if f == "customer_name" then Problems(RequiredText("customer_name", Field(p, "customer_name")))
    else if f == "customer_email" then Problems(RequiredEmail("customer_email", Field(p, "customer_email"), isEmail))
    else if f == "customer_phone" then Problems(OptionalText("customer_phone", Field(p, "customer_phone")))
    else if f == "address" then Problems(RequiredText("address", Field(p, "address")))
    else if f == "service_title" then Problems(RequiredText("service_title", Field(p, "service_title")))
    else if f == "preferred_date" then Problems(OptionalDate("preferred_date", Field(p, "preferred_date")))
    else if f == "notes" then Problems(OptionalText("notes", Field(p, "notes")))
    else if f == "status" then Problems(TextOrDefault("status", Field(p, "status"), DEFAULT_STATUS))
    else []
  }

  function ReviewFieldErrors(f: string, p: Payload): seq<FieldError>
  {
    if f == "provider_id" then Problems(RequiredText("provider_id", Field(p, "provider_id")))
    else if f == "rating" then Problems(RequiredInteger("rating", Field(p, "rating"), Some(REVIEW_RATING_MIN as real), Some(REVIEW_RATING_MAX as real)))
    else if f == "comment" then Problems(OptionalText("comment", Field(p, "comment")))
    else if f == "customer_name" then Problems(OptionalText("customer_name", Field(p, "customer_name")))
    else []
  }

  lemma ProviderFieldErrorsLocal(f: string, p: Payload, q: Payload, isEmail: string -> bool)
    requires Field(p, f) == Field(q, f)
    ensures ProviderFieldErrors(f, p, isEmail) == ProviderFieldErrors(f, q, isEmail)
  {
    if f == "name" {
      assert Field(p, "name") == Field(q, "name");
    } else if f == "email" {
      assert Field(p, "email") == Field(q, "email");
    } else if f == "phone" {
      assert Field(p, "phone") == Field(q, "phone");
    } else if f == "service_areas" {
      assert Field(p, "service_areas") == Field(q, "service_areas");
    } else if f == "rating" {
      assert Field(p, "rating") == Field(q, "rating");
    } else if f == "is_active" {
      assert Field(p, "is_active") == Field(q, "is_active");
    }
  }

  lemma ServiceFieldErrorsLocal(f: string, p: Payload, q: Payload)
    requires Field(p, f) == Field(q, f)
    ensures ServiceFieldErrors(f, p) == ServiceFieldErrors(f, q)
  {
    if f == "title" {
      assert Field(p, "title") == Field(q, "title");
    } else if f == "description" {
      assert Field(p, "description") == Field(q, "description");
    } else if f == "base_price" {
      assert Field(p, "base_price") == Field(q, "base_price");
    } else if f == "category" {
      assert Field(p, "category") == Field(q, "category");
    } else if f == "duration_estimate_min" {
      assert Field(p, "duration_estimate_min") == Field(q, "duration_estimate_min");
    } else if f == "is_active" {
      assert Field(p, "is_active") == Field(q, "is_active");
    }
  }

  lemma RequestFieldErrorsLocal(f: string, p: Payload, q: Payload, isEmail: string -> bool)
    requires Field(p, f) == Field(q, f)
    ensures RequestFieldErrors(f, p, isEmail) == RequestFieldErrors(f, q, isEmail)
  {
    if f == "customer_name" {
      assert Field(p, "customer_name") == Field(q, "customer_name");
    } else if f == "customer_email" {
      assert Field(p, "customer_email") == Field(q, "customer_email");
    } else if f == "customer_phone" {
      assert Field(p, "customer_phone") == Field(q, "customer_phone");
    } else if f == "address" {
      assert Field(p, "address") == Field(q, "address");
    } else if f == "service_title" {
      assert Field(p, "service_title") == Field(q, "service_title");
    } else if f == "preferred_date" {
      assert Field(p, "preferred_date") == Field(q, "preferred_date");
    } else if f == "notes" {
      assert Field(p, "notes") == Field(q, "notes");
    } else if f == "status" {
      assert Field(p, "status") == Field(q, "status");
    }
  }

  lemma ReviewFieldErrorsLocal(f: string, p: Payload, q: Payload)
    requires Field(p, f) == Field(q, f)
    ensures ReviewFieldErrors(f, p) == ReviewFieldErrors(f, q)
  {
    if f == "provider_id" {
      assert Field(p, "provider_id") == Field(q, "provider_id");
    } else if f == "rating" {
      assert Field(p, "rating") == Field(q, "rating");
    } else if f == "comment" {
      assert Field(p, "comment") == Field(q, "comment");
    } else if f == "customer_name" {
      assert Field(p, "customer_name") == Field(q, "customer_name");
    }
  }

  /** Provider: the errors against f, from f's own checker only. */
  lemma ProviderErrorsAt(p: Payload, f: string, isEmail: string -> bool)
    ensures ErrorsAt(ErrorsOf(ValidateProvider(p, isEmail)), f) == ProviderFieldErrors(f, p, isEmail)
  {
    var a := Problems(RequiredText("name", Field(p, "name")));
    var b := Problems(OptionalEmail("email", Field(p, "email"), isEmail));
    var c := Problems(OptionalText("phone", Field(p, "phone")));
    var d := Problems(OptionalTextList("service_areas", Field(p, "service_areas")));
    var e := Problems(OptionalNumber("rating", Field(p, "rating"), Some(PROVIDER_RATING_MIN), Some(PROVIDER_RATING_MAX)));
    var g := Problems(FlagOrDefault("is_active", Field(p, "is_active"), true));
    assert ErrorsOf(ValidateProvider(p, isEmail)) == a + b + c + d + e + g;
    TaggedErrorsAt6(a, b, c, d, e, g, "name", "email", "phone", "service_areas", "rating", "is_active", f);
    PickField6(f, "name", "email", "phone", "service_areas", "rating", "is_active", a, b, c, d, e, g);
  }

  /** Service: the errors against f, from f's own checker only. */
  lemma ServiceErrorsAt(p: Payload, f: string)
    ensures ErrorsAt(ErrorsOf(ValidateService(p)), f) == ServiceFieldErrors(f, p)
  {
    var a := Problems(RequiredText("title", Field(p, "title")));
    var b := Problems(OptionalText("description", Field(p, "description")));
    var c := Problems(OptionalNumber("base_price", Field(p, "base_price"), Some(0.0), None));
    var d := Problems(OptionalText("category", Field(p, "category")));
    var e := Problems(OptionalInteger("duration_estimate_min", Field(p, "duration_estimate_min"), Some(0.0), None));
    var g := Problems(FlagOrDefault("is_active", Field(p, "is_active"), true));
    assert ErrorsOf(ValidateService(p)) == a + b + c + d + e + g;
    TaggedErrorsAt6(a, b, c, d, e, g, "title", "description", "base_price", "category", "duration_estimate_min", "is_active", f);
    PickField6(f, "title", "description", "base_price", "category", "duration_estimate_min", "is_active", a, b, c, d, e, g);
  }

  /** ServiceRequest: the errors against f, from f's own checker only. */
  lemma RequestErrorsAt(p: Payload, f: string, isEmail: string -> bool)
    ensures ErrorsAt(ErrorsOf(ValidateRequest(p, isEmail)), f) == RequestFieldErrors(f, p, isEmail)
  {
    var a := Problems(RequiredText("customer_name", Field(p, "customer_name")));
    var b := Problems(RequiredEmail("customer_email", Field(p, "customer_email"), isEmail));
    var c := Problems(OptionalText("customer_phone", Field(p, "customer_phone")));
    var d := Problems(RequiredText("address", Field(p, "address")));
    var e := Problems(RequiredText("service_title", Field(p, "service_title")));
    var g := Problems(OptionalDate("preferred_date", Field(p, "preferred_date")));
    var h := Problems(OptionalText("notes", Field(p, "notes")));
    var i := Problems(TextOrDefault("status", Field(p, "status"), DEFAULT_STATUS));
    assert ErrorsOf(ValidateRequest(p, isEmail)) == a + b + c + d + e + g + h + i;
    TaggedErrorsAt8(a, b, c, d, e, g, h, i, "customer_name", "customer_email", "customer_phone", "address",
                    "service_title", "preferred_date", "notes", "status", f);
    PickField8(f, "customer_name", "customer_email", "customer_phone", "address",
               "service_title", "preferred_date", "notes", "status", a, b, c, d, e, g, h, i);
  }

  /** Review: the errors against f, from f's own checker only. */
  lemma ReviewErrorsAt(p: Payload, f: string)
    ensures ErrorsAt(ErrorsOf(ValidateReview(p)), f) == ReviewFieldErrors(f, p)
  {
    var a := Problems(RequiredText("provider_id", Field(p, "provider_id")));
    var b := Problems(RequiredInteger("rating", Field(p, "rating"), Some(REVIEW_RATING_MIN as real), Some(REVIEW_RATING_MAX as real)));
    var c := Problems(OptionalText("comment", Field(p, "comment")));
    var d := Problems(OptionalText("customer_name", Field(p, "customer_name")));
    assert ErrorsOf(ValidateReview(p)) == a + b + c + d;
    TaggedErrorsAt4(a, b, c, d, "provider_id", "rating", "comment", "customer_name", f);
    PickField4(f, "provider_id", "rating", "comment", "customer_name", a, b, c, d);
  }

  /**
   * Validation is per field: two payloads that agree on field f get the same
   * errors against f, whatever any other field holds.
   */
  lemma FieldLocal(k: Kind, p: Payload, q: Payload, f: string, isEmail: string -> bool)
    requires Field(p, f) == Field(q, f)
    ensures ErrorsAt(ErrorsOf(Validate(k, p, isEmail)), f) == ErrorsAt(ErrorsOf(Validate(k, q, isEmail)), f)
  {
    match k
    case ProviderKind =>
      ProviderErrorsAt(p, f, isEmail);
      ProviderErrorsAt(q, f, isEmail);
      ProviderFieldErrorsLocal(f, p, q, isEmail);
    case ServiceKind =>
      ServiceErrorsAt(p, f);
      ServiceErrorsAt(q, f);
      ServiceFieldErrorsLocal(f, p, q);
    case ServiceRequestKind =>
      RequestErrorsAt(p, f, isEmail);
      RequestErrorsAt(q, f, isEmail);
      RequestFieldErrorsLocal(f, p, q, isEmail);
    case ReviewKind =>
      ReviewErrorsAt(p, f);
      ReviewErrorsAt(q, f);
      ReviewFieldErrorsLocal(f, p, q);
  }

  // ---------------------------------------------------------------------------
  // The schema rules, field by field
  // ---------------------------------------------------------------------------

  /** Provider.rating: absent, null, or a number in [0, 5]; the bounds themselves are accepted. */
  lemma ProviderRatingBounds(p: Payload, isEmail: string -> bool)
    ensures var raw := Field(p, "rating");
      ErrorsAt(ErrorsOf(ValidateProvider(p, isEmail)), "rating") == [] <==>
        || NullOrAbsent(raw)
        || (raw.value.Int? && 0 <= raw.value.i <= 5)
        || (raw.value.Real? && 0.0 <= raw.value.r <= 5.0)
    ensures NumberOf(Field(p, "rating")).Some? && NumberOf(Field(p, "rating")).value < 0.0 ==>
      ValidateProvider(p, isEmail).Err? && FieldError("rating", GreaterThanEqual(0.0)) in ValidateProvider(p, isEmail).errors
    ensures NumberOf(Field(p, "rating")).Some? && 5.0 < NumberOf(Field(p, "rating")).value ==>
      ValidateProvider(p, isEmail).Err? && FieldError("rating", LessThanEqual(5.0)) in ValidateProvider(p, isEmail).errors
  {
    ProviderErrorsAt(p, "rating", isEmail);
    var c := OptionalNumber("rating", Field(p, "rating"), Some(PROVIDER_RATING_MIN), Some(PROVIDER_RATING_MAX));
    assert ErrorsAt(ErrorsOf(ValidateProvider(p, isEmail)), "rating") == Problems(c);
  }

  /** Provider: absent optional fields come out as None, an absent is_active as true. */
  lemma ProviderDefaults(p: Payload, isEmail: string -> bool)
    requires ValidateProvider(p, isEmail).Ok?
    ensures var v := ValidateProvider(p, isEmail).value;
      && (v.email.None? <==> NullOrAbsent(Field(p, "email")))
      && (v.phone.None? <==> NullOrAbsent(Field(p, "phone")))
      && (v.serviceAreas.None? <==> NullOrAbsent(Field(p, "service_areas")))
      && (v.rating.None? <==> NullOrAbsent(Field(p, "rating")))
      && ("is_active" !in p ==> v.isActive)
  {
  }

  /** Service.base_price: absent, null, or a number that is zero or more. */
  lemma ServicePriceNonNegative(p: Payload)
    ensures var raw := Field(p, "base_price");
      ErrorsAt(ErrorsOf(ValidateService(p)), "base_price") == [] <==>
        || NullOrAbsent(raw)
        || (raw.value.Int? && 0 <= raw.value.i)
        || (raw.value.Real? && 0.0 <= raw.value.r)
    ensures NumberOf(Field(p, "base_price")).Some? && NumberOf(Field(p, "base_price")).value < 0.0 ==>
      ValidateService(p).Err? && FieldError("base_price", GreaterThanEqual(0.0)) in ValidateService(p).errors
  {
    ServiceErrorsAt(p, "base_price");
    var c := OptionalNumber("base_price", Field(p, "base_price"), Some(0.0), None);
    assert ErrorsAt(ErrorsOf(ValidateService(p)), "base_price") == Problems(c);
  }

  /** Service.duration_estimate_min: absent, null, or an integer that is zero or more. */
  lemma ServiceDurationNonNegative(p: Payload)
    ensures var raw := Field(p, "duration_estimate_min");
      ErrorsAt(ErrorsOf(ValidateService(p)), "duration_estimate_min") == [] <==>
        NullOrAbsent(raw) || (raw.value.Int? && 0 <= raw.value.i)
    ensures forall n: int :: Field(p, "duration_estimate_min") == Some(Int(n)) && n < 0 ==>
      ValidateService(p).Err? && FieldError("duration_estimate_min", GreaterThanEqual(0.0)) in ValidateService(p).errors
  {
    ServiceErrorsAt(p, "duration_estimate_min");
  }

  /** ServiceRequest: each of the four required fields, when absent, is reported missing. */
  lemma RequestRequiredFields(p: Payload, isEmail: string -> bool)
    ensures "customer_name" !in p ==> FieldError("customer_name", Missing) in ErrorsOf(ValidateRequest(p, isEmail))
    ensures "customer_email" !in p ==> FieldError("customer_email", Missing) in ErrorsOf(ValidateRequest(p, isEmail))
    ensures "address" !in p ==> FieldError("address", Missing) in ErrorsOf(ValidateRequest(p, isEmail))
    ensures "service_title" !in p ==> FieldError("service_title", Missing) in ErrorsOf(ValidateRequest(p, isEmail))
  {
  }

  /** ServiceRequest.status: "pending" when absent, and any text is kept as given. */
  lemma RequestStatusFree(p: Payload, isEmail: string -> bool)
    ensures "status" !in p && ValidateRequest(p, isEmail).Ok? ==> ValidateRequest(p, isEmail).value.status == "pending"
    ensures forall s :: Field(p, "status") == Some(Str(s)) ==>
      && ErrorsAt(ErrorsOf(ValidateRequest(p, isEmail)), "status") == []
      && (ValidateRequest(p, isEmail).Ok? ==> ValidateRequest(p, isEmail).value.status == s)
  {
    RequestErrorsAt(p, "status", isEmail);
  }

  /** Review.rating: accepted exactly when it is an integer in [1, 5]. */
  lemma ReviewRatingBounds(p: Payload)
    ensures var raw := Field(p, "rating");
      ErrorsAt(ErrorsOf(ValidateReview(p)), "rating") == [] <==>
        raw.Some? && raw.value.Int? && 1 <= raw.value.i <= 5
    ensures Field(p, "rating") == Some(Int(0)) ==> FieldError("rating", GreaterThanEqual(1.0)) in ErrorsOf(ValidateReview(p))
    ensures Field(p, "rating") == Some(Int(6)) ==> FieldError("rating", LessThanEqual(5.0)) in ErrorsOf(ValidateReview(p))
  {
    ReviewErrorsAt(p, "rating");
  }

  /** Review.provider_id: any text is accepted and kept; no provider is looked up. */
  lemma ReviewProviderIdUnchecked(p: Payload, s: string)
    requires Field(p, "provider_id") == Some(Str(s))
    ensures ErrorsAt(ErrorsOf(ValidateReview(p)), "provider_id") == []
    ensures ValidateReview(p).Ok? ==> ValidateReview(p).value.providerId == s
  {
    ReviewErrorsAt(p, "provider_id");
  }
}
