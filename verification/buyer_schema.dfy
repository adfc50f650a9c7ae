/**
 * The zod schemas of src/lib/validations/buyer.ts as pure functions from a
 * decoded JSON object to either the normalised record or the first issue zod
 * would report. zod checks the fields in the order the schema declares them
 * and runs the two refinements (BHK, then budget order) only afterwards, so
 * the first issue is the first failing field in declaration order, else the
 * first failing refinement.
 *
 * The email check (`z.string().email()`) and the uuid check are regular
 * expressions inside zod; they are taken as parameters `isEmail` / `isUuid`.
 */
module BuyerSchema {
  import opened Wrappers
  import opened Text
  import opened Enums

  /**
   * A JSON value as `request.json()` decodes it; `JOther` is null, booleans
   * and objects. JSON has no date type, so no decoded value is a Date.
   */
  datatype Json = JStr(s: string) | JNum(x: real) | JArr(items: seq<Json>) | JOther

  type Payload = map<string, Json>

  function Get(p: Payload, key: string): Option<Json> {
    if key in p then Some(p[key]) else None
  }

  // ---------------------------------------------------------------------
  // How a client writes values into the JSON it sends
  // ---------------------------------------------------------------------

  function StringArray(ts: seq<string>): (items: seq<Json>)
    ensures |items| == |ts|
    ensures forall i :: 0 <= i < |ts| ==> items[i] == JStr(ts[i])
  {
    seq(|ts|, i requires 0 <= i < |ts| => JStr(ts[i]))
  }

  /** An optional string field: the key is left out when the field is absent. */
  function OptionalText(s: Option<string>): Option<Json> {
    if s.Some? then Some(JStr(s.value)) else None
  }

  function OptionalNumber(n: Option<nat>): Option<Json> {
    if n.Some? then Some(JNum(n.value as real)) else None
  }

  function OptionalTags(ts: Option<seq<string>>): Option<Json> {
    if ts.Some? then Some(JArr(StringArray(ts.value))) else None
  }

  /** An optional enum field, written as its literal. */
  function OptionalLiteral<T>(x: Option<T>, name: T -> string): Option<Json> {
    if x.Some? then Some(JStr(name(x.value))) else None
  }

  /** One zod issue: the field it is reported on and its message. */
  datatype Issue = Issue(path: string, message: string)

  /** A validated lead as the buyer schema produces it (also the shape of a validated CSV row). */
  datatype BuyerData = BuyerData(
    fullName: string,
    email: Option<string>,
    phone: string,
    city: City,
    propertyType: PropertyType,
    bhk: Option<Bhk>,
    purpose: Purpose,
    budgetMin: Option<nat>,
    budgetMax: Option<nat>,
    timeline: Timeline,
    source: Source,
    status: Status,
    notes: Option<string>,
    tags: Option<seq<string>>)

  // ---------------------------------------------------------------------
  // Messages
  // ---------------------------------------------------------------------

  /** Messages of the rules whose wording differs between the form schema and the CSV row schema. */
  datatype Wording = Wording(nameTooShort: string, nameTooLong: string, phone: string, email: string, notesTooLong: string)

  /** buyerSchema sets its own messages. */
  const FormWording := Wording(
    "Full name must be at least 2 characters",
    "Full name must be at most 80 characters",
    "Phone must be 10-15 digits",
    "Invalid email format",
    "Notes must be at most 1000 characters")

  /** csvRowSchema keeps zod's default messages. */
  const CsvWording := Wording(
    "String must contain at least 2 character(s)",
    "String must contain at most 80 character(s)",
    "Invalid",
    "Invalid email",
    "String must contain at most 1000 character(s)")

  const Required := "Required"
  const ExpectedString := "Expected string"
  const ExpectedNumber := "Expected number"
  const ExpectedArray := "Expected array"
  const ExpectedDate := "Expected date"
  const NotInteger := "Expected integer, received float"
  const NotPositive := "Number must be greater than 0"
  const AboveHundred := "Number must be less than or equal to 100"
  const InvalidEnum := "Invalid enum value"
  const InvalidInput := "Invalid input"
  const InvalidUuid := "Invalid uuid"
  const BhkMessage := "BHK is required for Apartment and Villa properties"
  const BudgetMessage := "Budget maximum must be greater than or equal to budget minimum"

  // ---------------------------------------------------------------------
  // Field rules (message on failure; the caller attaches the path)
  // ---------------------------------------------------------------------

  function At<T>(path: string, r: Result<T, string>): (r': Result<T, Issue>)
    ensures r'.Success? <==> r.Success?
    ensures r.Success? ==> r'.value == r.value
    ensures r.Failure? ==> r'.error == Issue(path, r.error)
  {
    match r
    case Success(v) => Success(v)
    case Failure(m) => Failure(Issue(path, m))
  }

  /** z.string() */
  function StringValue(v: Option<Json>): Result<string, string> {
    match v
    case None => Failure(Required)
    case Some(JStr(s)) => Success(s)
    case Some(_) => Failure(ExpectedString)
  }

  predicate IsString(v: Option<Json>) {
    v.Some? && v.value.JStr?
  }

  /** fullName: z.string().min(2).max(80), lengths in UTF-16 code units. */
  function FullNameRule(v: Option<Json>, w: Wording): (r: Result<string, string>)
    ensures r.Success? <==> IsString(v) && 2 <= Utf16Length(v.value.s) <= 80
    ensures r.Success? ==> r.value == v.value.s
  {
    var s :- StringValue(v);
    if Utf16Length(s) < 2 then Failure(w.nameTooShort)
    else if Utf16Length(s) > 80 then Failure(w.nameTooLong)
    else Success(s)
  }

  /** The phone shape `^\d{10,15}$`. */
  predicate PhoneShape(s: string) {
    10 <= |s| <= 15 && AllDigits(s)
  }

  /** phone: z.string().regex(/^\d{10,15}$/), run as the anchored matcher. */
  function PhoneRule(v: Option<Json>, w: Wording): (r: Result<string, string>)
    ensures r.Success? <==> IsString(v) && PhoneShape(v.value.s)
    ensures r.Success? ==> r.value == v.value.s
  {
    var s :- StringValue(v);
    DigitRunMeaning(s, 10, 15);
    if MatchesDigitRun(s, 10, 15) then Success(s) else Failure(w.phone)
  }

  /** email: z.string().email().optional().or(z.literal('')); the empty string is kept as it is. */
  function EmailRule(v: Option<Json>, isEmail: string -> bool, w: Wording): (r: Result<Option<string>, string>)
    ensures v.None? ==> r == Success(None)
    ensures v.Some? ==> (r.Success? <==> v.value.JStr? && (v.value.s == "" || isEmail(v.value.s)))
    ensures v.Some? && r.Success? ==> r.value == Some(v.value.s)
  {
    match v
    case None => Success(None)
    case Some(JStr(s)) => if isEmail(s) || s == "" then Success(Some(s)) else Failure(w.email)
    case Some(_) => Failure(InvalidInput)
  }

  /** A required enum: z.enum([...]). */
  function EnumRule<T>(v: Option<Json>, parse: string -> Option<T>): (r: Result<T, string>)
    ensures r.Success? <==> IsString(v) && parse(v.value.s).Some?
    ensures r.Success? ==> Some(r.value) == parse(v.value.s)
  {
    var s :- StringValue(v);
    match parse(s)
    case Some(x) => Success(x)
    case None => Failure(InvalidEnum)
  }

  /** An optional enum: z.enum([...]).optional(). */
  function OptionalEnumRule<T>(v: Option<Json>, parse: string -> Option<T>): (r: Result<Option<T>, string>)
    ensures v.None? ==> r == Success(None)
    ensures v.Some? ==> (r.Success? <==> v.value.JStr? && parse(v.value.s).Some?)
    ensures v.Some? && r.Success? ==> r.value == parse(v.value.s)
  {
    if v.None? then Success(None)
    else
      var x :- EnumRule(v, parse);
      Success(Some(x))
  }

  /** status: statusEnum.default('New'); only an absent value is defaulted. */
  function StatusRule(v: Option<Json>): (r: Result<Status, string>)
    ensures v.None? ==> r == Success(New)
    ensures v.Some? ==> (r.Success? <==> v.value.JStr? && ParseStatus(v.value.s).Some?)
    ensures v.Some? && r.Success? ==> StatusName(r.value) == v.value.s
  {
    if v.None? then Success(New) else EnumRule(v, ParseStatus)
  }

  predicate IsInteger(x: real) {
    x.Floor as real == x
  }

  /** budgetMin / budgetMax: z.number().int().positive(message).optional(). */
  function BudgetRule(v: Option<Json>, positiveMessage: string): (r: Result<Option<nat>, string>)
    ensures v.None? ==> r == Success(None)
    ensures v.Some? ==> (r.Success? <==> v.value.JNum? && IsInteger(v.value.x) && v.value.x > 0.0)
    ensures v.Some? && r.Success? ==> r.value.Some? && r.value.value > 0 && r.value.value as real == v.value.x
  {
    match v
    case None => Success(None)
    case Some(JNum(x)) =>
      if !IsInteger(x) then Failure(NotInteger)
      else if x <= 0.0 then Failure(positiveMessage)
      else Success(Some(x.Floor as nat))
    case Some(_) => Failure(ExpectedNumber)
  }

  /** notes: z.string().max(1000).optional(). */
  function NotesRule(v: Option<Json>, w: Wording): (r: Result<Option<string>, string>)
    ensures v.None? ==> r == Success(None)
    ensures v.Some? ==> (r.Success? <==> v.value.JStr? && Utf16Length(v.value.s) <= 1000)
    ensures v.Some? && r.Success? ==> r.value == Some(v.value.s)
  {
    match v
    case None => Success(None)
    case Some(JStr(s)) => if Utf16Length(s) > 1000 then Failure(w.notesTooLong) else Success(Some(s))
    case Some(_) => Failure(ExpectedString)
  }

  /** The strings of an array, or None if some element is not a string. */
  function Strings(items: seq<Json>): (r: Option<seq<string>>)
    ensures r.Some? <==> forall i :: 0 <= i < |items| ==> items[i].JStr?
    ensures r.Some? ==> |r.value| == |items| && forall i :: 0 <= i < |items| ==> r.value[i] == items[i].s
  {
    if items == [] then Some([])
    else if !items[0].JStr? then None
    else
      match Strings(items[1..])
      case None => None
      case Some(rest) => Some([items[0].s] + rest)
  }

  /** tags: z.array(z.string()).optional(); order and duplicates are kept. */
  function TagsRule(v: Option<Json>): (r: Result<Option<seq<string>>, string>)
    ensures v.None? ==> r == Success(None)
    ensures v.Some? ==> (r.Success? <==> v.value.JArr? && Strings(v.value.items).Some?)
    ensures v.Some? && r.Success? ==> r.value == Strings(v.value.items)
  {
    match v
    case None => Success(None)
    case Some(JArr(items)) =>
      (match Strings(items)
       case Some(ts) => Success(Some(ts))
       case None => Failure(ExpectedString))
    case Some(_) => Failure(ExpectedArray)
  }

  // ---------------------------------------------------------------------
  // The two refinements
  // ---------------------------------------------------------------------

  /** `['Apartment','Villa'].includes(propertyType) && !bhk`: an absent or empty bhk is falsy. */
  predicate BhkMissing(propertyType: Option<PropertyType>, bhk: Option<Bhk>) {
    propertyType.Some? && NeedsBhk(propertyType.value) && (bhk.None? || bhk.value == Blank)
  }

  /** JavaScript truthiness of an optional number: absent and 0 are falsy. */
  predicate Truthy(n: Option<nat>) {
    n.Some? && n.value != 0
  }

  /** `budgetMin && budgetMax && budgetMax < budgetMin` */
  predicate BudgetInverted(budgetMin: Option<nat>, budgetMax: Option<nat>) {
    Truthy(budgetMin) && Truthy(budgetMax) && budgetMax.value < budgetMin.value
  }

  /** The first refinement that fails, in the order the schema chains them. */
  function CrossFieldIssue(propertyType: Option<PropertyType>, bhk: Option<Bhk>, budgetMin: Option<nat>, budgetMax: Option<nat>): (r: Option<Issue>)
    ensures r.None? <==> !BhkMissing(propertyType, bhk) && !BudgetInverted(budgetMin, budgetMax)
    ensures BhkMissing(propertyType, bhk) ==> r == Some(Issue("bhk", BhkMessage))
    ensures !BhkMissing(propertyType, bhk) && BudgetInverted(budgetMin, budgetMax) ==>
      r == Some(Issue("budgetMax", BudgetMessage))
  {
    if BhkMissing(propertyType, bhk) then Some(Issue("bhk", BhkMessage))
    else if BudgetInverted(budgetMin, budgetMax) then Some(Issue("budgetMax", BudgetMessage))
    else None
  }

  /** Applies both refinements to a record whose fields all passed. */
  function Refine(d: BuyerData): (r: Result<BuyerData, Issue>)
    ensures r.Success? <==> !BhkMissing(Some(d.propertyType), d.bhk) && !BudgetInverted(d.budgetMin, d.budgetMax)
    ensures r.Success? ==> r.value == d
    ensures BhkMissing(Some(d.propertyType), d.bhk) ==> r == Failure(Issue("bhk", BhkMessage))
    ensures (!BhkMissing(Some(d.propertyType), d.bhk) && BudgetInverted(d.budgetMin, d.budgetMax)) ==>
      r == Failure(Issue("budgetMax", BudgetMessage))
  {
    match CrossFieldIssue(Some(d.propertyType), d.bhk, d.budgetMin, d.budgetMax)
    case None => Success(d)
    case Some(issue) => Failure(issue)
  }

  // ---------------------------------------------------------------------
  // buyerSchema and buyerCreateSchema
  // ---------------------------------------------------------------------

  /**
   * What a record accepted by the buyer schema satisfies: every field rule
   * and both refinements.
   */
  predicate Valid(d: BuyerData, isEmail: string -> bool) {
    && 2 <= Utf16Length(d.fullName) <= 80
    && (d.email.Some? ==> d.email.value == "" || isEmail(d.email.value))
    && PhoneShape(d.phone)
    && d.bhk != Some(Blank)
    && (d.budgetMin.Some? ==> d.budgetMin.value > 0)
    && (d.budgetMax.Some? ==> d.budgetMax.value > 0)
    && (d.notes.Some? ==> Utf16Length(d.notes.value) <= 1000)
    && !BhkMissing(Some(d.propertyType), d.bhk)
    && !BudgetInverted(d.budgetMin, d.budgetMax)
  }

  /**
   * The field rules of buyerSchema in declaration order. With `withStatus`
   * false the status key is not part of the schema (buyerCreateSchema omits
   * it) and the record takes the storage default New.
   */
  function CheckFields(p: Payload, isEmail: string -> bool, withStatus: bool): Result<BuyerData, Issue> {
    var fullName :- At("fullName", FullNameRule(Get(p, "fullName"), FormWording));
    var email :- At("email", EmailRule(Get(p, "email"), isEmail, FormWording));
    var phone :- At("phone", PhoneRule(Get(p, "phone"), FormWording));
    var city :- At("city", EnumRule(Get(p, "city"), ParseCity));
    var propertyType :- At("propertyType", EnumRule(Get(p, "propertyType"), ParsePropertyType));
    var bhk :- At("bhk", OptionalEnumRule(Get(p, "bhk"), ParseBhk));
    var purpose :- At("purpose", EnumRule(Get(p, "purpose"), ParsePurpose));
    var budgetMin :- At("budgetMin", BudgetRule(Get(p, "budgetMin"), "Budget minimum must be positive"));
    var budgetMax :- At("budgetMax", BudgetRule(Get(p, "budgetMax"), "Budget maximum must be positive"));
    var timeline :- At("timeline", EnumRule(Get(p, "timeline"), ParseTimeline));
    var source :- At("source", EnumRule(Get(p, "source"), ParseSource));
    var status :- if withStatus then At("status", StatusRule(Get(p, "status"))) else Success(New);
    var notes :- At("notes", NotesRule(Get(p, "notes"), FormWording));
    var tags :- At("tags", TagsRule(Get(p, "tags")));
    Success(BuyerData(fullName, email, phone, city, propertyType, bhk, purpose, budgetMin, budgetMax,
                      timeline, source, status, notes, tags))
  }

  /** buyerSchema.parse */
  function ValidateBuyer(p: Payload, isEmail: string -> bool): (r: Result<BuyerData, Issue>)
    ensures r.Success? ==> Valid(r.value, isEmail)
    ensures r.Success? && "status" !in p ==> r.value.status == New
    ensures CheckFields(p, isEmail, true).Failure? ==> r == CheckFields(p, isEmail, true)
  {
    var d :- CheckFields(p, isEmail, true);
    Refine(d)
  }

  /** buyerCreateSchema.parse: the buyer schema without its status key. */
  function ValidateCreate(p: Payload, isEmail: string -> bool): (r: Result<BuyerData, Issue>)
    ensures r.Success? ==> Valid(r.value, isEmail) && r.value.status == New
  {
    var d :- CheckFields(p, isEmail, false);
    Refine(d)
  }

  /** The keys of buyerSchema in the order zod checks them. */
  const FieldOrder: seq<string> := [
    "fullName", "email", "phone", "city", "propertyType", "bhk", "purpose",
    "budgetMin", "budgetMax", "timeline", "source", "status", "notes", "tags"]

  /** A field rule's outcome as the issue it would add at path, if any. */
  function IssueOf<T>(path: string, r: Result<T, string>): (i: Option<Issue>)
    ensures i.None? <==> r.Success?
    ensures r.Failure? ==> i == Some(Issue(path, r.error))
  {
    if r.Success? then None else Some(Issue(path, r.error))
  }

  /** What the buyerSchema rule for key, checked on its own, reports about p. */
  function FieldIssue(p: Payload, isEmail: string -> bool, key: string): Option<Issue> {
    var v := Get(p, key);
    if key == "fullName" then IssueOf(key, FullNameRule(v, FormWording))
    else if key == "email" then IssueOf(key, EmailRule(v, isEmail, FormWording))
    else if key == "phone" then IssueOf(key, PhoneRule(v, FormWording))
    else if key == "city" then IssueOf(key, EnumRule(v, ParseCity))
    else if key == "propertyType" then IssueOf(key, EnumRule(v, ParsePropertyType))
    else if key == "bhk" then IssueOf(key, OptionalEnumRule(v, ParseBhk))
    else if key == "purpose" then IssueOf(key, EnumRule(v, ParsePurpose))
    else if key == "budgetMin" then IssueOf(key, BudgetRule(v, "Budget minimum must be positive"))
    else if key == "budgetMax" then IssueOf(key, BudgetRule(v, "Budget maximum must be positive"))
    else if key == "timeline" then IssueOf(key, EnumRule(v, ParseTimeline))
    else if key == "source" then IssueOf(key, EnumRule(v, ParseSource))
    else if key == "status" then IssueOf(key, StatusRule(v))
    else if key == "notes" then IssueOf(key, NotesRule(v, FormWording))
    else if key == "tags" then IssueOf(key, TagsRule(v))
    else None
  }

  // ---------------------------------------------------------------------
  // buyerUpdateSchema: every field optional, plus id and updatedAt
  // ---------------------------------------------------------------------

  /** The fields an update supplies; None is a key the request did not send. */
  datatype Patch = Patch(
    fullName: Option<string>,
    email: Option<string>,
    phone: Option<string>,
    city: Option<City>,
    propertyType: Option<PropertyType>,
    bhk: Option<Bhk>,
    purpose: Option<Purpose>,
    budgetMin: Option<nat>,
    budgetMax: Option<nat>,
    timeline: Option<Timeline>,
    source: Option<Source>,
    status: Option<Status>,
    notes: Option<string>,
    tags: Option<seq<string>>)

  datatype UpdateRequest = UpdateRequest(patch: Patch, id: string, updatedAt: int)

  /** A rule made optional by `.partial()`: an absent key yields None. */
  function Partial<T>(v: Option<Json>, r: Result<T, string>): (r': Result<Option<T>, string>)
    ensures v.None? ==> r' == Success(None)
    ensures v.Some? ==> (r'.Success? <==> r.Success?) && (r.Success? ==> r'.value == Some(r.value))
  {
    if v.None? then Success(None)
    else
      var x :- r;
      Success(Some(x))
  }

  /**
   * The payload carries exactly the patch: a supplied field under its key,
   * written as a client writes it into JSON, and an unsupplied one not at all.
   */
  predicate Carries(p: Payload, pt: Patch) {
    ContactCarried(p, pt) && ProfileCarried(p, pt)
  }

  /** Carries, for the fields from fullName to purpose. */
  predicate ContactCarried(p: Payload, pt: Patch) {
    && Get(p, "fullName") == OptionalText(pt.fullName)
    && Get(p, "email") == OptionalText(pt.email)
    && Get(p, "phone") == OptionalText(pt.phone)
    && Get(p, "city") == OptionalLiteral(pt.city, CityName)
    && Get(p, "propertyType") == OptionalLiteral(pt.propertyType, PropertyTypeName)
    && Get(p, "bhk") == OptionalLiteral(pt.bhk, BhkName)
    && Get(p, "purpose") == OptionalLiteral(pt.purpose, PurposeName)
  }

  /** Carries, for the fields from budgetMin to tags. */
  predicate ProfileCarried(p: Payload, pt: Patch) {
    && Get(p, "budgetMin") == OptionalNumber(pt.budgetMin)
    && Get(p, "budgetMax") == OptionalNumber(pt.budgetMax)
    && Get(p, "timeline") == OptionalLiteral(pt.timeline, TimelineName)
    && Get(p, "source") == OptionalLiteral(pt.source, SourceName)
    && Get(p, "status") == OptionalLiteral(pt.status, StatusName)
    && Get(p, "notes") == OptionalText(pt.notes)
    && Get(p, "tags") == OptionalTags(pt.tags)
  }

  /** Every supplied field meets its buyerSchema rule. */
  predicate PatchFieldsValid(pt: Patch, isEmail: string -> bool) {
    ContactValid(pt, isEmail) && ProfileValid(pt)
  }

  predicate ContactValid(pt: Patch, isEmail: string -> bool) {
    && (pt.fullName.Some? ==> 2 <= Utf16Length(pt.fullName.value) <= 80)
    && (pt.email.Some? ==> pt.email.value == "" || isEmail(pt.email.value))
    && (pt.phone.Some? ==> PhoneShape(pt.phone.value))
    && pt.bhk != Some(Blank)
  }

  predicate ProfileValid(pt: Patch) {
    && (pt.budgetMin.Some? ==> pt.budgetMin.value > 0)
    && (pt.budgetMax.Some? ==> pt.budgetMax.value > 0)
    && (pt.notes.Some? ==> Utf16Length(pt.notes.value) <= 1000)
  }

  /** ... and the two refinements hold on the supplied values. */
  predicate PatchValid(pt: Patch, isEmail: string -> bool) {
    && PatchFieldsValid(pt, isEmail)
    && !BhkMissing(pt.propertyType, pt.bhk)
    && !BudgetInverted(pt.budgetMin, pt.budgetMax)
  }

  const NoFields := Patch(None, None, None, None, None, None, None, None, None, None, None, None, None, None)

  /** The rules of `buyerSchema.partial()` from fullName to purpose; the later fields are left unsupplied. */
  function CheckContact(p: Payload, isEmail: string -> bool): (r: Result<Patch, Issue>)
    ensures r.Success? ==> ContactCarried(p, r.value) && ContactValid(r.value, isEmail)
  {
    var fullName :- At("fullName", Partial(Get(p, "fullName"), FullNameRule(Get(p, "fullName"), FormWording)));
    var email :- At("email", EmailRule(Get(p, "email"), isEmail, FormWording));
    var phone :- At("phone", Partial(Get(p, "phone"), PhoneRule(Get(p, "phone"), FormWording)));
    var city :- At("city", OptionalEnumRule(Get(p, "city"), ParseCity));
    var propertyType :- At("propertyType", OptionalEnumRule(Get(p, "propertyType"), ParsePropertyType));
    var bhk :- At("bhk", OptionalEnumRule(Get(p, "bhk"), ParseBhk));
    var purpose :- At("purpose", OptionalEnumRule(Get(p, "purpose"), ParsePurpose));
    Success(NoFields.(fullName := fullName, email := email, phone := phone, city := city,
                      propertyType := propertyType, bhk := bhk, purpose := purpose))
  }

  /** The rules of `buyerSchema.partial()` from budgetMin to tags, filled into the head the earlier rules built. */
  function CheckProfile(p: Payload, head: Patch): (r: Result<Patch, Issue>)
    ensures r.Success? ==> ProfileCarried(p, r.value) && ProfileValid(r.value)
    ensures r.Success? ==> r.value.(budgetMin := head.budgetMin, budgetMax := head.budgetMax, timeline := head.timeline,
                                    source := head.source, status := head.status, notes := head.notes, tags := head.tags) == head
  {
    var budgetMin :- At("budgetMin", BudgetRule(Get(p, "budgetMin"), "Budget minimum must be positive"));
    var budgetMax :- At("budgetMax", BudgetRule(Get(p, "budgetMax"), "Budget maximum must be positive"));
    var timeline :- At("timeline", OptionalEnumRule(Get(p, "timeline"), ParseTimeline));
    var source :- At("source", OptionalEnumRule(Get(p, "source"), ParseSource));
    var status :- At("status", OptionalEnumRule(Get(p, "status"), ParseStatus));
    var notes :- At("notes", NotesRule(Get(p, "notes"), FormWording));
    var tags :- At("tags", TagsRule(Get(p, "tags")));
    TagsCarried(Get(p, "tags"), tags);
    Success(head.(budgetMin := budgetMin, budgetMax := budgetMax, timeline := timeline, source := source,
                  status := status, notes := notes, tags := tags))
  }

  /** The field rules of `buyerSchema.partial()`, in declaration order; status is not defaulted. */
  function CheckPatch(p: Payload, isEmail: string -> bool): (r: Result<Patch, Issue>)
    ensures r.Success? ==> Carries(p, r.value) && PatchFieldsValid(r.value, isEmail)
  {
    var head :- CheckContact(p, isEmail);
    CheckProfile(p, head)
  }

  /** An accepted tags value is the array a client writes for it. */
  lemma TagsCarried(v: Option<Json>, tags: Option<seq<string>>)
    requires TagsRule(v) == Success(tags)
    ensures v == OptionalTags(tags)
  {
    if v.Some? {
      assert v.value.items == StringArray(tags.value);
    }
  }

  /** id: z.string().uuid() */
  function IdRule(v: Option<Json>, isUuid: string -> bool): (r: Result<string, string>)
    ensures r.Success? <==> IsString(v) && isUuid(v.value.s)
    ensures r.Success? ==> r.value == v.value.s
  {
    var s :- StringValue(v);
    if isUuid(s) then Success(s) else Failure(InvalidUuid)
  }

  /**
   * updatedAt: z.date(). It accepts only a Date object, and a decoded JSON
   * body holds none: a missing key is Required, anything else is not a date.
   */
  function DateRule(v: Option<Json>): (r: Result<int, string>)
    ensures r == Failure(if v.None? then Required else ExpectedDate)
  {
    match v
    case None => Failure(Required)
    case Some(_) => Failure(ExpectedDate)
  }

  /**
   * updatedAt as the client can send it: the timestamp string the record
   * was read with, turned into an instant by the Date parser `parseDate`.
   */
  function DateStringRule(v: Option<Json>, parseDate: string -> Option<int>): (r: Result<int, string>)
    ensures r.Success? <==> IsString(v) && parseDate(v.value.s).Some?
    ensures r.Success? ==> Some(r.value) == parseDate(v.value.s)
  {
    var s :- StringValue(v);
    match parseDate(s)
    case Some(ms) => Success(ms)
    case None => Failure(ExpectedDate)
  }

  /**
   * buyerUpdateSchema.parse with the updatedAt rule given as `stamp`: the
   * field rules for the keys present, then id and updatedAt, then both
   * refinements evaluated on the supplied values.
   */
  function CheckUpdate(p: Payload, isEmail: string -> bool, isUuid: string -> bool,
                       stamp: Result<int, string>): (r: Result<UpdateRequest, Issue>)
    ensures r.Success? ==> Carries(p, r.value.patch) && PatchValid(r.value.patch, isEmail)
    ensures r.Success? ==> isUuid(r.value.id) && Get(p, "id") == Some(JStr(r.value.id))
    ensures r.Success? ==> stamp == Success(r.value.updatedAt)
    ensures CheckPatch(p, isEmail).Success? && IdRule(Get(p, "id"), isUuid).Success? && stamp.Failure? ==>
      r == Failure(Issue("updatedAt", stamp.error))
  {
    var patch :- CheckPatch(p, isEmail);
    var id :- At("id", IdRule(Get(p, "id"), isUuid));
    var updatedAt :- At("updatedAt", stamp);
    match CrossFieldIssue(patch.propertyType, patch.bhk, patch.budgetMin, patch.budgetMax)
    case Some(issue) => Failure(issue)
    case None => Success(UpdateRequest(patch, id, updatedAt))
  }

  /**
   * buyerUpdateSchema.parse as written, with `updatedAt: z.date()`: no JSON
   * body passes, and one whose other keys pass fails on updatedAt.
   */
  function ValidateUpdateAsWritten(p: Payload, isEmail: string -> bool, isUuid: string -> bool): (r: Result<UpdateRequest, Issue>)
    ensures r.Failure?
    ensures CheckPatch(p, isEmail).Success? && IdRule(Get(p, "id"), isUuid).Success? ==>
      r == Failure(Issue("updatedAt", if "updatedAt" in p then ExpectedDate else Required))
  {
    CheckUpdate(p, isEmail, isUuid, DateRule(Get(p, "updatedAt")))
  }

  /**
   * buyerUpdateSchema.parse with updatedAt read from the timestamp string a
   * client holds (`z.coerce.date()`): the model's update schema.
   */
  function ValidateUpdate(p: Payload, isEmail: string -> bool, isUuid: string -> bool,
                          parseDate: string -> Option<int>): (r: Result<UpdateRequest, Issue>)
    ensures r.Success? ==> Carries(p, r.value.patch) && PatchValid(r.value.patch, isEmail)
    ensures r.Success? ==> isUuid(r.value.id) && Get(p, "id") == Some(JStr(r.value.id))
    ensures r.Success? ==> IsString(Get(p, "updatedAt")) && parseDate(p["updatedAt"].s) == Some(r.value.updatedAt)
  {
    CheckUpdate(p, isEmail, isUuid, DateStringRule(Get(p, "updatedAt"), parseDate))
  }

  // ---------------------------------------------------------------------
  // buyerFiltersSchema
  // ---------------------------------------------------------------------

  /** The filter, search and ordering part of a listing request. */
  datatype Query = Query(
    city: Option<City>,
    propertyType: Option<PropertyType>,
    status: Option<Status>,
    timeline: Option<Timeline>,
    search: Option<string>,
    sortBy: SortField,
    sortOrder: SortOrder)

  /** A listing request: the query plus the 1-based page and the page size. */
  datatype Filters = Filters(query: Query, page: nat, limit: nat)

  /** z.number().int().positive() with an optional .max() and a .default(). */
  function CountRule(v: Option<Json>, default: nat, max: Option<nat>): (r: Result<nat, string>)
    ensures v.None? ==> r == Success(default)
    ensures v.Some? ==>
      (r.Success? <==> v.value.JNum? && IsInteger(v.value.x) && v.value.x > 0.0 && (max.Some? ==> v.value.x <= max.value as real))
    ensures v.Some? && r.Success? ==> r.value as real == v.value.x
  {
    match v
    case None => Success(default)
    case Some(JNum(x)) =>
      if !IsInteger(x) then Failure(NotInteger)
      else if x <= 0.0 then Failure(NotPositive)
      else if max.Some? && x > max.value as real then Failure(AboveHundred)
      else Success(x.Floor as nat)
    case Some(_) => Failure(ExpectedNumber)
  }

  /** An enum with a default: z.enum([...]).default(d). */
  function DefaultedEnumRule<T>(v: Option<Json>, parse: string -> Option<T>, default: T): (r: Result<T, string>)
    ensures v.None? ==> r == Success(default)
    ensures v.Some? ==> (r.Success? <==> v.value.JStr? && parse(v.value.s).Some?)
    ensures v.Some? && r.Success? ==> Some(r.value) == parse(v.value.s)
  {
    if v.None? then Success(default) else EnumRule(v, parse)
  }

  /** search: z.string().optional() */
  function SearchRule(v: Option<Json>): (r: Result<Option<string>, string>)
    ensures v.None? ==> r == Success(None)
    ensures v.Some? ==> (r.Success? <==> v.value.JStr?) && (r.Success? ==> r.value == Some(v.value.s))
  {
    match v
    case None => Success(None)
    case Some(JStr(s)) => Success(Some(s))
    case Some(_) => Failure(ExpectedString)
  }

  /**
   * The payload holds the query as a client writes it: each filter and the
   * search under its key or left out when absent, and each sort key either
   * naming the query's choice or left out when the choice is the default.
   */
  predicate QueryEncoded(p: Payload, q: Query) {
    && Get(p, "city") == OptionalLiteral(q.city, CityName)
    && Get(p, "propertyType") == OptionalLiteral(q.propertyType, PropertyTypeName)
    && Get(p, "status") == OptionalLiteral(q.status, StatusName)
    && Get(p, "timeline") == OptionalLiteral(q.timeline, TimelineName)
    && Get(p, "search") == OptionalText(q.search)
    && (if "sortBy" in p then p["sortBy"] == JStr(SortFieldName(q.sortBy)) else q.sortBy == UpdatedAt)
    && (if "sortOrder" in p then p["sortOrder"] == JStr(SortOrderName(q.sortOrder)) else q.sortOrder == Desc)
  }

  /** A count key holds n as a JSON number, or is left out when n is its default. */
  predicate CountEncoded(p: Payload, key: string, n: nat, default: nat) {
    if key in p then p[key] == JNum(n as real) else n == default
  }

  /**
   * The query part of buyerFiltersSchema. With `paged` the page and limit
   * keys are checked between search and sortBy, where the schema declares
   * them; the export route omits them.
   */
  function CheckQuery(p: Payload, paged: bool): (r: Result<(Query, nat, nat), Issue>)
    ensures r.Success? ==> QueryEncoded(p, r.value.0)
  {
    var city :- At("city", OptionalEnumRule(Get(p, "city"), ParseCity));
    var propertyType :- At("propertyType", OptionalEnumRule(Get(p, "propertyType"), ParsePropertyType));
    var status :- At("status", OptionalEnumRule(Get(p, "status"), ParseStatus));
    var timeline :- At("timeline", OptionalEnumRule(Get(p, "timeline"), ParseTimeline));
    var search :- At("search", SearchRule(Get(p, "search")));
    var page :- if paged then At("page", CountRule(Get(p, "page"), 1, None)) else Success(1);
    var limit :- if paged then At("limit", CountRule(Get(p, "limit"), 10, Some(100))) else Success(10);
    var sortBy :- At("sortBy", DefaultedEnumRule(Get(p, "sortBy"), ParseSortField, UpdatedAt));
    var sortOrder :- At("sortOrder", DefaultedEnumRule(Get(p, "sortOrder"), ParseSortOrder, Desc));
    Success((Query(city, propertyType, status, timeline, search, sortBy, sortOrder), page, limit))
  }

  /** buyerFiltersSchema.parse: defaults fill absent keys; out-of-range values are rejected, never clamped. */
  function ValidateFilters(p: Payload): (r: Result<Filters, Issue>)
    ensures r.Success? ==> r.value.page >= 1 && 1 <= r.value.limit <= 100
    ensures r.Success? ==> ("page" !in p ==> r.value.page == 1) && ("limit" !in p ==> r.value.limit == 10)
    ensures r.Success? && "sortBy" !in p ==> r.value.query.sortBy == UpdatedAt
    ensures r.Success? && "sortOrder" !in p ==> r.value.query.sortOrder == Desc
    ensures r.Success? && "page" in p ==> p["page"] == JNum(r.value.page as real)
    ensures r.Success? && "limit" in p ==> p["limit"] == JNum(r.value.limit as real)
    ensures r.Success? ==> QueryEncoded(p, r.value.query)
  {
    var (query, page, limit) :- CheckQuery(p, true);
    Success(Filters(query, page, limit))
  }

  /** buyerFiltersSchema.omit({ page, limit }).parse, as the export route uses it. */
  function ValidateExportQuery(p: Payload): (r: Result<Query, Issue>)
    ensures r.Success? && "sortBy" !in p ==> r.value.sortBy == UpdatedAt
    ensures r.Success? && "sortOrder" !in p ==> r.value.sortOrder == Desc
    ensures r.Success? ==> QueryEncoded(p, r.value)
  {
    var (query, _, _) :- CheckQuery(p, false);
    Success(query)
  }
}
