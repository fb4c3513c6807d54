/**
 * The four record kinds of the garden services API (schemas.py) and the
 * per-field validation that turns a raw JSON payload into a record or into a
 * list of field errors.
 *
 * Each record field is checked on its own raw entry only: a checker receives
 * `Field(p, name)` and never the whole payload, and a record is built only when
 * no checker rejected its field. Keys the schema does not declare are ignored.
 */
module Schemas {

  datatype Option<T> = None | Some(value: T)

  /** A calendar date, as produced by the date parser (which is not modelled). */
  datatype CalendarDate = CalendarDate(year: int, month: int, day: int)

  /** A decoded JSON value, plus the two non-JSON values the store hands back. */
  datatype Value =
    | Null
    | Bool(b: bool)
    | Int(i: int)
    | Real(r: real)
    | Str(s: string)
    | List(items: seq<Value>)
    | DateValue(date: CalendarDate)
    | ObjectId(hex: string)

  /** A raw request body: field name to value. */
  type Payload = map<string, Value>

  /** The constraint a field failed, named after the validator's error types. */
  datatype ErrorKind =
    | Missing
    | WrongType
    | GreaterThanEqual(minimum: real)
    | LessThanEqual(maximum: real)
    | NotAnEmail

  datatype FieldError = FieldError(field: string, kind: ErrorKind)

  /** Outcome of checking one field. */
  datatype Checked<T> = Accepted(value: T) | Rejected(error: FieldError)

  /** Outcome of validating a whole payload. */
  datatype Result<T> = Ok(value: T) | Err(errors: seq<FieldError>)

  datatype Kind = ProviderKind | ServiceKind | ServiceRequestKind | ReviewKind

  datatype Provider = Provider(
    name: string,
    email: Option<string>,
    phone: Option<string>,
    serviceAreas: Option<seq<string>>,
    rating: Option<real>,
    isActive: bool)

  datatype Service = Service(
    title: string,
    description: Option<string>,
    basePrice: Option<real>,
    category: Option<string>,
    durationEstimateMin: Option<int>,
    isActive: bool)

  datatype ServiceRequest = ServiceRequest(
    customerName: string,
    customerEmail: string,
    customerPhone: Option<string>,
    address: string,
    serviceTitle: string,
    preferredDate: Option<CalendarDate>,
    notes: Option<string>,
    status: string)

  datatype Review = Review(
    providerId: string,
    rating: int,
    comment: Option<string>,
    customerName: Option<string>)

  datatype Record =
    | ProviderRecord(provider: Provider)
    | ServiceRecord(service: Service)
    | ServiceRequestRecord(request: ServiceRequest)
    | ReviewRecord(review: Review)

  /** The class name of each kind, as declared in the schema module. */
  function KindName(k: Kind): string
  {
    match k
    case ProviderKind => "Provider"
    case ServiceKind => "Service"
    case ServiceRequestKind => "ServiceRequest"
    case ReviewKind => "Review"
  }

  function KindOf(rec: Record): Kind
  {
    match rec
    case ProviderRecord(_) => ProviderKind
    case ServiceRecord(_) => ServiceKind
    case ServiceRequestRecord(_) => ServiceRequestKind
    case ReviewRecord(_) => ReviewKind
  }

  // ---------------------------------------------------------------------------
  // Field access and error bookkeeping
  // ---------------------------------------------------------------------------

  /** The raw entry of one field: None when the key is absent. */
  function Field(p: Payload, name: string): (r: Option<Value>)
    ensures r.Some? <==> name in p
    ensures r.Some? ==> r.value == p[name]
  {
    if name in p then Some(p[name]) else None
  }

  predicate NullOrAbsent(raw: Option<Value>)
  {
    raw.None? || raw == Some(Null)
  }

  // What a present entry holds when it has the expected shape.

  function TextOf(raw: Option<Value>): Option<string>
  {
    if raw.Some? && raw.value.Str? then Some(raw.value.s) else None
  }

  function TextOr(raw: Option<Value>, default: string): string
  {
    if raw.Some? && raw.value.Str? then raw.value.s else default
  }

  function FlagOr(raw: Option<Value>, default: bool): bool
  {
    if raw.Some? && raw.value.Bool? then raw.value.b else default
  }

  function TextListOf(raw: Option<Value>): Option<seq<string>>
  {
    if raw.Some? && raw.value.List? && AllText(raw.value.items) then Some(Texts(raw.value.items)) else None
  }

  function DateOf(raw: Option<Value>): Option<CalendarDate>
  {
    if raw.Some? && raw.value.DateValue? then Some(raw.value.date) else None
  }

  /** A number entry as a real: an integer is widened, as for a `float` field. */
  function NumberOf(raw: Option<Value>): Option<real>
  {
    if raw.Some? && raw.value.Int? then Some(raw.value.i as real)
    else if raw.Some? && raw.value.Real? then Some(raw.value.r)
    else None
  }

  function IntegerOf(raw: Option<Value>): Option<int>
  {
    if raw.Some? && raw.value.Int? then Some(raw.value.i) else None
  }

  function IntegerOr(raw: Option<Value>, default: int): int
  {
    if raw.Some? && raw.value.Int? then raw.value.i else default
  }

  /** The errors one checked field contributes to the payload's error list. */
  function Problems<T>(c: Checked<T>): (errs: seq<FieldError>)
    ensures errs == [] <==> c.Accepted?
    ensures c.Rejected? ==> errs == [c.error]
  {
    if c.Accepted? then [] else [c.error]
  }

  /** The errors of a validation outcome (none for a success). */
  function ErrorsOf<T>(r: Result<T>): seq<FieldError>
  {
    if r.Ok? then [] else r.errors
  }

  /** The errors reported against one field, in order. */
  function ErrorsAt(errs: seq<FieldError>, field: string): (r: seq<FieldError>)
    ensures |r| <= |errs|
    ensures forall e :: e in r <==> e in errs && e.field == field
  {
    if errs == [] then []
    else if errs[0].field == field then [errs[0]] + ErrorsAt(errs[1..], field)
    else ErrorsAt(errs[1..], field)
  }

  lemma {:induction false} ErrorsAtConcat(a: seq<FieldError>, b: seq<FieldError>, field: string)
    ensures ErrorsAt(a + b, field) == ErrorsAt(a, field) + ErrorsAt(b, field)
  {
    if a != [] {
      assert (a + b)[0] == a[0] && (a + b)[1..] == a[1..] + b;
      ErrorsAtConcat(a[1..], b, field);
    } else {
      assert a + b == b;
    }
  }

  // ---------------------------------------------------------------------------
  // Range constraints (`ge` / `le` bounds)
  // ---------------------------------------------------------------------------

  predicate Within(x: real, lo: Option<real>, hi: Option<real>)
  {
    (lo.None? || lo.value <= x) && (hi.None? || x <= hi.value)
  }

  /** The error a bounded number raises, if any: the lower bound is checked first. */
  function RangeError(field: string, x: real, lo: Option<real>, hi: Option<real>): (e: Option<FieldError>)
    ensures e.None? <==> Within(x, lo, hi)
    ensures e.Some? ==> e.value.field == field
    ensures e.Some? && lo.Some? && x < lo.value ==> e.value.kind == GreaterThanEqual(lo.value)
    ensures e.Some? && (lo.None? || lo.value <= x) ==> e.value.kind == LessThanEqual(hi.value)
  {
    if lo.Some? && x < lo.value then Some(FieldError(field, GreaterThanEqual(lo.value)))
    else if hi.Some? && hi.value < x then Some(FieldError(field, LessThanEqual(hi.value)))
    else None
  }

  // ---------------------------------------------------------------------------
  // Field checkers, one per declared field shape. Each sees only its own entry.
  // ---------------------------------------------------------------------------

  /** `str = Field(...)`: required text. */
  function RequiredText(field: string, raw: Option<Value>): (c: Checked<string>)
    ensures c.Rejected? ==> c.error.field == field
    ensures c.Accepted? <==> raw.Some? && raw.value.Str?
    ensures c.Accepted? ==> raw == Some(Str(c.value))
    ensures raw.None? ==> c.error.kind == Missing
    ensures c.Rejected? ==> c.error == FieldError(field, if raw.None? then Missing else WrongType)
  {
    match raw
    case None => Rejected(FieldError(field, Missing))
    case Some(Str(s)) => Accepted(s)
    case Some(_) => Rejected(FieldError(field, WrongType))
  }

  /** `str = Field(default)`: text, replaced by the default when absent. */
  function TextOrDefault(field: string, raw: Option<Value>, default: string): (c: Checked<string>)
    ensures c.Rejected? ==> c.error.field == field
    ensures raw.None? ==> c == Accepted(default)
    ensures raw.Some? ==> (c.Accepted? <==> raw.value.Str?)
    ensures raw.Some? && c.Accepted? ==> raw.value == Str(c.value)
    ensures c.Accepted? ==> c.value == TextOr(raw, default)
    ensures c.Rejected? ==> c.error == FieldError(field, WrongType)
  {
    match raw
    case None => Accepted(default)
    case Some(Str(s)) => Accepted(s)
    case Some(_) => Rejected(FieldError(field, WrongType))
  }

  /** `bool = Field(default)`: a flag, replaced by the default when absent. */
  function FlagOrDefault(field: string, raw: Option<Value>, default: bool): (c: Checked<bool>)
    ensures c.Rejected? ==> c.error.field == field
    ensures raw.None? ==> c == Accepted(default)
    ensures raw.Some? ==> (c.Accepted? <==> raw.value.Bool?)
    ensures raw.Some? && c.Accepted? ==> raw.value == Bool(c.value)
    ensures c.Accepted? ==> c.value == FlagOr(raw, default)
    ensures c.Rejected? ==> c.error == FieldError(field, WrongType)
  {
    match raw
    case None => Accepted(default)
    case Some(Bool(b)) => Accepted(b)
    case Some(_) => Rejected(FieldError(field, WrongType))
  }

  /** `Optional[str] = None`: absent and null both give None. */
  function OptionalText(field: string, raw: Option<Value>): (c: Checked<Option<string>>)
    ensures c.Rejected? ==> c.error.field == field
    ensures raw.None? || raw == Some(Null) ==> c == Accepted(None)
    ensures c.Accepted? && c.value.Some? ==> raw == Some(Str(c.value.value))
    ensures c.Accepted? <==> NullOrAbsent(raw) || raw.value.Str?
    ensures c.Accepted? ==> c.value == TextOf(raw)
    ensures c.Rejected? ==> c.error == FieldError(field, WrongType)
  {
    match raw
    case None => Accepted(None)
    case Some(Null) => Accepted(None)
    case Some(Str(s)) => Accepted(Some(s))
    case Some(_) => Rejected(FieldError(field, WrongType))
  }

  /** `EmailStr = Field(...)`: required text that passes the email-format check. */
  function RequiredEmail(field: string, raw: Option<Value>, isEmail: string -> bool): (c: Checked<string>)
    ensures c.Rejected? ==> c.error.field == field
    ensures c.Accepted? <==> raw.Some? && raw.value.Str? && isEmail(raw.value.s)
    ensures c.Accepted? ==> raw == Some(Str(c.value))
    ensures raw.None? ==> c.error.kind == Missing
    ensures c.Rejected? ==>
      c.error == FieldError(field, if raw.None? then Missing else if raw.value.Str? then NotAnEmail else WrongType)
  {
    match raw
    case None => Rejected(FieldError(field, Missing))
    case Some(Str(s)) => if isEmail(s) then Accepted(s) else Rejected(FieldError(field, NotAnEmail))
    case Some(_) => Rejected(FieldError(field, WrongType))
  }

  /** `Optional[EmailStr] = None`. */
  function OptionalEmail(field: string, raw: Option<Value>, isEmail: string -> bool): (c: Checked<Option<string>>)
    ensures c.Rejected? ==> c.error.field == field
    ensures raw.None? || raw == Some(Null) ==> c == Accepted(None)
    ensures c.Accepted? && c.value.Some? ==> raw == Some(Str(c.value.value)) && isEmail(c.value.value)
    ensures c.Accepted? <==> NullOrAbsent(raw) || (raw.value.Str? && isEmail(raw.value.s))
    ensures c.Accepted? ==> c.value == TextOf(raw)
    ensures c.Rejected? ==> c.error == FieldError(field, if raw.value.Str? then NotAnEmail else WrongType)
  {
    match raw
    case None => Accepted(None)
    case Some(Null) => Accepted(None)
    case Some(Str(s)) => if isEmail(s) then Accepted(Some(s)) else Rejected(FieldError(field, NotAnEmail))
    case Some(_) => Rejected(FieldError(field, WrongType))
  }

  predicate AllText(items: seq<Value>)
  {
    forall k :: 0 <= k < |items| ==> items[k].Str?
  }

  function Texts(items: seq<Value>): (r: seq<string>)
    requires AllText(items)
    ensures |r| == |items|
    ensures forall k :: 0 <= k < |items| ==> items[k] == Str(r[k])
  {
    seq(|items|, k requires 0 <= k < |items| => items[k].s)
  }

  function TextValues(xs: seq<string>): (r: seq<Value>)
    ensures AllText(r) && Texts(r) == xs
  {
    seq(|xs|, k requires 0 <= k < |xs| => Str(xs[k]))
  }

  /** `Optional[List[str]] = None`. */
  function OptionalTextList(field: string, raw: Option<Value>): (c: Checked<Option<seq<string>>>)
    ensures c.Rejected? ==> c.error.field == field
    ensures raw.None? || raw == Some(Null) ==> c == Accepted(None)
    ensures c.Accepted? && c.value.Some? ==> raw == Some(List(TextValues(c.value.value)))
    ensures c.Accepted? <==> NullOrAbsent(raw) || (raw.value.List? && AllText(raw.value.items))
    ensures c.Accepted? ==> c.value == TextListOf(raw)
    ensures c.Rejected? ==> c.error == FieldError(field, WrongType)
  {
    match raw
    case None => Accepted(None)
    case Some(Null) => Accepted(None)
    case Some(List(items)) =>
      if AllText(items) then
        assert TextValues(Texts(items)) == items;
        Accepted(Some(Texts(items)))
      else Rejected(FieldError(field, WrongType))
    case Some(_) => Rejected(FieldError(field, WrongType))
  }

  /** `Optional[date] = None`. */
  function OptionalDate(field: string, raw: Option<Value>): (c: Checked<Option<CalendarDate>>)
    ensures c.Rejected? ==> c.error.field == field
    ensures raw.None? || raw == Some(Null) ==> c == Accepted(None)
    ensures c.Accepted? && c.value.Some? ==> raw == Some(DateValue(c.value.value))
    ensures c.Accepted? <==> NullOrAbsent(raw) || raw.value.DateValue?
    ensures c.Accepted? ==> c.value == DateOf(raw)
    ensures c.Rejected? ==> c.error == FieldError(field, WrongType)
  {
    match raw
    case None => Accepted(None)
    case Some(Null) => Accepted(None)
    case Some(DateValue(d)) => Accepted(Some(d))
    case Some(_) => Rejected(FieldError(field, WrongType))
  }

  /** `Optional[float] = Field(None, ge=.., le=..)`: an integer is taken as a number too. */
  function OptionalNumber(field: string, raw: Option<Value>, lo: Option<real>, hi: Option<real>): (c: Checked<Option<real>>)
    ensures c.Rejected? ==> c.error.field == field
    ensures raw.None? || raw == Some(Null) ==> c == Accepted(None)
    ensures c.Accepted? && c.value.Some? ==> Within(c.value.value, lo, hi)
    ensures c.Accepted? && c.value.Some? ==>
      raw == Some(Real(c.value.value)) || (raw.Some? && raw.value.Int? && raw.value.i as real == c.value.value)
    ensures c.Accepted? <==>
      || NullOrAbsent(raw)
      || (raw.value.Int? && Within(raw.value.i as real, lo, hi))
      || (raw.value.Real? && Within(raw.value.r, lo, hi))
    ensures c.Accepted? ==> c.value == NumberOf(raw)
    ensures c.Rejected? && raw.value.Int? ==> Some(c.error) == RangeError(field, raw.value.i as real, lo, hi)
    ensures c.Rejected? && raw.value.Real? ==> Some(c.error) == RangeError(field, raw.value.r, lo, hi)
    ensures c.Rejected? && !raw.value.Int? && !raw.value.Real? ==> c.error == FieldError(field, WrongType)
  {
    match raw
    case None => Accepted(None)
    case Some(Null) => Accepted(None)
    case Some(Int(n)) =>
      var e := RangeError(field, n as real, lo, hi);
      if e.Some? then Rejected(e.value) else Accepted(Some(n as real))
    case Some(Real(x)) =>
      var e := RangeError(field, x, lo, hi);
      if e.Some? then Rejected(e.value) else Accepted(Some(x))
    case Some(_) => Rejected(FieldError(field, WrongType))
  }

  /** `Optional[int] = Field(None, ge=..)`. */
  function OptionalInteger(field: string, raw: Option<Value>, lo: Option<real>, hi: Option<real>): (c: Checked<Option<int>>)
    ensures c.Rejected? ==> c.error.field == field
    ensures raw.None? || raw == Some(Null) ==> c == Accepted(None)
    ensures c.Accepted? && c.value.Some? ==> raw == Some(Int(c.value.value)) && Within(c.value.value as real, lo, hi)
    ensures c.Accepted? <==> NullOrAbsent(raw) || (raw.value.Int? && Within(raw.value.i as real, lo, hi))
    ensures c.Accepted? ==> c.value == IntegerOf(raw)
    ensures c.Rejected? && raw.value.Int? ==> Some(c.error) == RangeError(field, raw.value.i as real, lo, hi)
    ensures c.Rejected? && !raw.value.Int? ==> c.error == FieldError(field, WrongType)
  {
    match raw
    case None => Accepted(None)
    case Some(Null) => Accepted(None)
    case Some(Int(n)) =>
      var e := RangeError(field, n as real, lo, hi);
      if e.Some? then Rejected(e.value) else Accepted(Some(n))
    case Some(_) => Rejected(FieldError(field, WrongType))
  }

  /** `int = Field(..., ge=.., le=..)`: a required bounded integer. */
  function RequiredInteger(field: string, raw: Option<Value>, lo: Option<real>, hi: Option<real>): (c: Checked<int>)
    ensures c.Rejected? ==> c.error.field == field
    ensures c.Accepted? <==> raw.Some? && raw.value.Int? && Within(raw.value.i as real, lo, hi)
    ensures c.Accepted? ==> raw == Some(Int(c.value))
    ensures raw.None? ==> c.error.kind == Missing
    ensures c.Rejected? && raw.None? ==> c.error == FieldError(field, Missing)
    ensures c.Rejected? && raw.Some? && raw.value.Int? ==> Some(c.error) == RangeError(field, raw.value.i as real, lo, hi)
    ensures c.Rejected? && raw.Some? && !raw.value.Int? ==> c.error == FieldError(field, WrongType)
  {
    match raw
    case None => Rejected(FieldError(field, Missing))
    case Some(Int(n)) =>
      var e := RangeError(field, n as real, lo, hi);
      if e.Some? then Rejected(e.value) else Accepted(n)
    case Some(_) => Rejected(FieldError(field, WrongType))
  }

  // ---------------------------------------------------------------------------
  // Provider (schemas.py:13-19)
  // ---------------------------------------------------------------------------

  const PROVIDER_FIELDS: seq<string> := ["name", "email", "phone", "service_areas", "rating", "is_active"]
  const PROVIDER_RATING_MIN: real := 0.0
  const PROVIDER_RATING_MAX: real := 5.0

  /** What every validated Provider satisfies beyond its field types. */
  predicate ProviderConstraints(v: Provider, isEmail: string -> bool)
  {
    && (v.email.Some? ==> isEmail(v.email.value))
    && (v.rating.Some? ==> PROVIDER_RATING_MIN <= v.rating.value <= PROVIDER_RATING_MAX)
  }

  /**
   * The Provider a body's declared fields read as: each entry as given, None
   * for an absent or null optional field, `is_active` true when absent, and an
   * integer rating widened to a number.
   */
  function ProviderOf(p: Payload): Provider
  {
    Provider(TextOr(Field(p, "name"), ""), TextOf(Field(p, "email")), TextOf(Field(p, "phone")),
             TextListOf(Field(p, "service_areas")), NumberOf(Field(p, "rating")), FlagOr(Field(p, "is_active"), true))
  }

  function ValidateProvider(p: Payload, isEmail: string -> bool): (r: Result<Provider>)
    ensures r.Ok? ==> r.value == ProviderOf(p)
    ensures r.Ok? ==> Field(p, "name") == Some(Str(r.value.name))
    ensures r.Ok? ==> ProviderConstraints(r.value, isEmail)
    ensures r.Ok? && "is_active" !in p ==> r.value.isActive
    ensures "name" !in p ==> r.Err? && FieldError("name", Missing) in r.errors
    ensures r.Err? ==> r.errors != []
  {
    var name := RequiredText("name", Field(p, "name"));
    var email := OptionalEmail("email", Field(p, "email"), isEmail);
    var phone := OptionalText("phone", Field(p, "phone"));
    var areas := OptionalTextList("service_areas", Field(p, "service_areas"));
    var rating := OptionalNumber("rating", Field(p, "rating"), Some(PROVIDER_RATING_MIN), Some(PROVIDER_RATING_MAX));
    var active := FlagOrDefault("is_active", Field(p, "is_active"), true);
    if name.Accepted? && email.Accepted? && phone.Accepted? && areas.Accepted? && rating.Accepted? && active.Accepted? then
      Ok(Provider(name.value, email.value, phone.value, areas.value, rating.value, active.value))
    else
      Err(Problems(name) + Problems(email) + Problems(phone) + Problems(areas) + Problems(rating) + Problems(active))
  }

  // ---------------------------------------------------------------------------
  // Service (schemas.py:22-28)
  // ---------------------------------------------------------------------------

  const SERVICE_FIELDS: seq<string> := ["title", "description", "base_price", "category", "duration_estimate_min", "is_active"]

  predicate ServiceConstraints(v: Service)
  {
    && (v.basePrice.Some? ==> 0.0 <= v.basePrice.value)
    && (v.durationEstimateMin.Some? ==> 0 <= v.durationEstimateMin.value)
  }

  /** The Service a body's declared fields read as, in the same way. */
  function ServiceOf(p: Payload): Service
  {
    Service(TextOr(Field(p, "title"), ""), TextOf(Field(p, "description")), NumberOf(Field(p, "base_price")),
            TextOf(Field(p, "category")), IntegerOf(Field(p, "duration_estimate_min")), FlagOr(Field(p, "is_active"), true))
  }

  function ValidateService(p: Payload): (r: Result<Service>)
    ensures r.Ok? ==> r.value == ServiceOf(p)
    ensures r.Ok? ==> Field(p, "title") == Some(Str(r.value.title))
    ensures r.Ok? ==> ServiceConstraints(r.value)
    ensures r.Ok? && "is_active" !in p ==> r.value.isActive
    ensures "title" !in p ==> r.Err? && FieldError("title", Missing) in r.errors
    ensures r.Err? ==> r.errors != []
  {
    var title := RequiredText("title", Field(p, "title"));
    var description := OptionalText("description", Field(p, "description"));
    var price := OptionalNumber("base_price", Field(p, "base_price"), Some(0.0), None);
    var category := OptionalText("category", Field(p, "category"));
    var duration := OptionalInteger("duration_estimate_min", Field(p, "duration_estimate_min"), Some(0.0), None);
    var active := FlagOrDefault("is_active", Field(p, "is_active"), true);
    if title.Accepted? && description.Accepted? && price.Accepted? && category.Accepted? && duration.Accepted? && active.Accepted? then
      Ok(Service(title.value, description.value, price.value, category.value, duration.value, active.value))
    else
      Err(Problems(title) + Problems(description) + Problems(price) + Problems(category) + Problems(duration) + Problems(active))
  }

  // ---------------------------------------------------------------------------
  // ServiceRequest (schemas.py:31-39)
  // ---------------------------------------------------------------------------

  const REQUEST_FIELDS: seq<string> :=
    ["customer_name", "customer_email", "customer_phone", "address", "service_title", "preferred_date", "notes", "status"]
  const DEFAULT_STATUS: string := "pending"

  predicate RequestConstraints(v: ServiceRequest, isEmail: string -> bool)
  {
    isEmail(v.customerEmail)
  }

  /** The ServiceRequest a body's declared fields read as, with status "pending" when absent. */
  function RequestOf(p: Payload): ServiceRequest
  {
    ServiceRequest(TextOr(Field(p, "customer_name"), ""), TextOr(Field(p, "customer_email"), ""),
                   TextOf(Field(p, "customer_phone")), TextOr(Field(p, "address"), ""),
                   TextOr(Field(p, "service_title"), ""), DateOf(Field(p, "preferred_date")),
                   TextOf(Field(p, "notes")), TextOr(Field(p, "status"), DEFAULT_STATUS))
  }

  function ValidateRequest(p: Payload, isEmail: string -> bool): (r: Result<ServiceRequest>)
    ensures r.Ok? ==> r.value == RequestOf(p)
    ensures r.Ok? ==> && Field(p, "customer_name") == Some(Str(r.value.customerName))
                      && Field(p, "customer_email") == Some(Str(r.value.customerEmail))
                      && Field(p, "address") == Some(Str(r.value.address))
                      && Field(p, "service_title") == Some(Str(r.value.serviceTitle))
    ensures r.Ok? ==> RequestConstraints(r.value, isEmail)
    ensures r.Ok? ==> if "status" in p then p["status"] == Str(r.value.status) else r.value.status == DEFAULT_STATUS
    ensures r.Err? ==> r.errors != []
  {
    var name := RequiredText("customer_name", Field(p, "customer_name"));
    var email := RequiredEmail("customer_email", Field(p, "customer_email"), isEmail);
    var phone := OptionalText("customer_phone", Field(p, "customer_phone"));
    var address := RequiredText("address", Field(p, "address"));
    var title := RequiredText("service_title", Field(p, "service_title"));
    var date := OptionalDate("preferred_date", Field(p, "preferred_date"));
    var notes := OptionalText("notes", Field(p, "notes"));
    var status := TextOrDefault("status", Field(p, "status"), DEFAULT_STATUS);
    if name.Accepted? && email.Accepted? && phone.Accepted? && address.Accepted? && title.Accepted?
       && date.Accepted? && notes.Accepted? && status.Accepted? then
      Ok(ServiceRequest(name.value, email.value, phone.value, address.value, title.value, date.value, notes.value, status.value))
    else
      Err(Problems(name) + Problems(email) + Problems(phone) + Problems(address)
          + Problems(title) + Problems(date) + Problems(notes) + Problems(status))
  }

  // ---------------------------------------------------------------------------
  // Review (schemas.py:42-46)
  // ---------------------------------------------------------------------------

  const REVIEW_FIELDS: seq<string> := ["provider_id", "rating", "comment", "customer_name"]
  const REVIEW_RATING_MIN: int := 1
  const REVIEW_RATING_MAX: int := 5

  predicate ReviewConstraints(v: Review)
  {
    REVIEW_RATING_MIN <= v.rating <= REVIEW_RATING_MAX
  }

  /** The Review a body's declared fields read as. */
  function ReviewOf(p: Payload): Review
  {
    Review(TextOr(Field(p, "provider_id"), ""), IntegerOr(Field(p, "rating"), 0),
           TextOf(Field(p, "comment")), TextOf(Field(p, "customer_name")))
  }

  function ValidateReview(p: Payload): (r: Result<Review>)
    ensures r.Ok? ==> r.value == ReviewOf(p)
    ensures r.Ok? ==> Field(p, "provider_id") == Some(Str(r.value.providerId))
    ensures r.Ok? ==> Field(p, "rating") == Some(Int(r.value.rating)) && ReviewConstraints(r.value)
    ensures "provider_id" !in p ==> r.Err? && FieldError("provider_id", Missing) in r.errors
    ensures "rating" !in p ==> r.Err? && FieldError("rating", Missing) in r.errors
    ensures r.Err? ==> r.errors != []
  {
    var provider := RequiredText("provider_id", Field(p, "provider_id"));
    var rating := RequiredInteger("rating", Field(p, "rating"), Some(REVIEW_RATING_MIN as real), Some(REVIEW_RATING_MAX as real));
    var comment := OptionalText("comment", Field(p, "comment"));
    var customer := OptionalText("customer_name", Field(p, "customer_name"));
    if provider.Accepted? && rating.Accepted? && comment.Accepted? && customer.Accepted? then
      Ok(Review(provider.value, rating.value, comment.value, customer.value))
    else
      Err(Problems(provider) + Problems(rating) + Problems(comment) + Problems(customer))
  }

  // ---------------------------------------------------------------------------
  // Any kind: dispatch, constraints, and the stored form of a record
  // ---------------------------------------------------------------------------

  /** The record of kind `k` a body's declared fields read as. */
  function RecordOf(k: Kind, p: Payload): Record
  {
    match k
    case ProviderKind => ProviderRecord(ProviderOf(p))
    case ServiceKind => ServiceRecord(ServiceOf(p))
    case ServiceRequestKind => ServiceRequestRecord(RequestOf(p))
    case ReviewKind => ReviewRecord(ReviewOf(p))
  }

  /** The validation the request body of a create endpoint goes through. */
  function Validate(k: Kind, p: Payload, isEmail: string -> bool): (r: Result<Record>)
    ensures r.Ok? ==> r.value == RecordOf(k, p)
    ensures r.Ok? ==> KindOf(r.value) == k && Constraints(r.value, isEmail)
    ensures r.Err? ==> r.errors != []
  {
    match k
    case ProviderKind =>
      var v := ValidateProvider(p, isEmail);
      if v.Ok? then Ok(ProviderRecord(v.value)) else Err(v.errors)
    case ServiceKind =>
      var v := ValidateService(p);
      if v.Ok? then Ok(ServiceRecord(v.value)) else Err(v.errors)
    case ServiceRequestKind =>
      var v := ValidateRequest(p, isEmail);
      if v.Ok? then Ok(ServiceRequestRecord(v.value)) else Err(v.errors)
    case ReviewKind =>
      var v := ValidateReview(p);
      if v.Ok? then Ok(ReviewRecord(v.value)) else Err(v.errors)
  }

  predicate Constraints(rec: Record, isEmail: string -> bool)
  {
    match rec
    case ProviderRecord(v) => ProviderConstraints(v, isEmail)
    case ServiceRecord(v) => ServiceConstraints(v)
    case ServiceRequestRecord(v) => RequestConstraints(v, isEmail)
    case ReviewRecord(v) => ReviewConstraints(v)
  }

  /** The declared field names of a kind, in declaration order. */
  function Fields(k: Kind): seq<string>
  {
    match k
    case ProviderKind => PROVIDER_FIELDS
    case ServiceKind => SERVICE_FIELDS
    case ServiceRequestKind => REQUEST_FIELDS
    case ReviewKind => REVIEW_FIELDS
  }

  function TextOrNull(x: Option<string>): Value
  {
    if x.Some? then Str(x.value) else Null
  }

  /** A validated record as a document: every declared field, None written as null. */
  function Dump(rec: Record): (d: Payload)
    ensures "_id" !in d && "id" !in d
    ensures forall f :: f in Fields(KindOf(rec)) ==> f in d
  {
    match rec
    case ProviderRecord(v) =>
      map["name" := Str(v.name),
          "email" := TextOrNull(v.email),
          "phone" := TextOrNull(v.phone),
          "service_areas" := if v.serviceAreas.Some? then List(TextValues(v.serviceAreas.value)) else Null,
          "rating" := if v.rating.Some? then Real(v.rating.value) else Null,
          "is_active" := Bool(v.isActive)]
    case ServiceRecord(v) =>
      map["title" := Str(v.title),
          "description" := TextOrNull(v.description),
          "base_price" := if v.basePrice.Some? then Real(v.basePrice.value) else Null,
          "category" := TextOrNull(v.category),
          "duration_estimate_min" := if v.durationEstimateMin.Some? then Int(v.durationEstimateMin.value) else Null,
          "is_active" := Bool(v.isActive)]
    case ServiceRequestRecord(v) =>
      map["customer_name" := Str(v.customerName),
          "customer_email" := Str(v.customerEmail),
          "customer_phone" := TextOrNull(v.customerPhone),
          "address" := Str(v.address),
          "service_title" := Str(v.serviceTitle),
          "preferred_date" := if v.preferredDate.Some? then DateValue(v.preferredDate.value) else Null,
          "notes" := TextOrNull(v.notes),
          "status" := Str(v.status)]
    case ReviewRecord(v) =>
      map["provider_id" := Str(v.providerId),
          "rating" := Int(v.rating),
          "comment" := TextOrNull(v.comment),
          "customer_name" := TextOrNull(v.customerName)]
  }
}
