/**
 * csvRowSchema of src/lib/validations/buyer.ts. It has the buyer schema's
 * fields, but every cell arrives as text, so budgets and tags are
 * transformed from strings. The empty string is accepted for bhk and notes.
 * zod's default messages are used throughout, and status is checked last,
 * where this schema declares it.
 */
module CsvRowSchema {
  import opened Wrappers
  import opened Text
  import opened Enums
  import opened BuyerSchema

  /** One record as csv-parse yields it with `columns: true`: column name to cell text. */
  type CsvRecord = map<string, string>

  function Cell(r: CsvRecord, key: string): Option<string> {
    if key in r then Some(r[key]) else None
  }

  /** A cell seen as the JSON value zod receives: a string, or undefined for a missing column. */
  function AsJson(v: Option<string>): (j: Option<Json>)
    ensures j.None? <==> v.None?
    ensures v.Some? ==> j == Some(JStr(v.value))
  {
    if v.Some? then Some(JStr(v.value)) else None
  }

  /** Message for a budget cell that is not a decimal numeral (see README, Left out). */
  const NotDecimal := "Expected a decimal numeral"

  /**
   * bhk: bhkEnum.optional().or(z.literal('')). The empty cell is kept as the
   * empty literal and is not turned into an absent value. Any other
   * non-literal fails both options, and zod reports the union as a whole.
   */
  function BhkCell(v: Option<string>): (r: Result<Option<Bhk>, string>)
    ensures v.None? ==> r == Success(None)
    ensures v == Some("") ==> r == Success(Some(Blank))
    ensures v.Some? ==> (r.Success? <==> v.value == "" || ParseBhk(v.value).Some?)
    ensures v.Some? && r.Success? ==> r.value.Some? && BhkName(r.value.value) == v.value
    ensures r.Failure? ==> r.error == InvalidInput
  {
    match v
    case None => Success(None)
    case Some(s) =>
      if s == "" then Success(Some(Blank))
      else match ParseBhk(s)
        case Some(b) => Success(Some(b))
        case None => Failure(InvalidInput)
  }

  /**
   * budgetMin / budgetMax: z.string().transform(val => val ? parseInt(val) : undefined).optional().
   * A missing or empty cell is absent, and a decimal numeral becomes its exact value
   * (JavaScript would round one above 2^53 to the nearest double).
   */
  function BudgetCell(v: Option<string>): (r: Result<Option<nat>, string>)
    ensures (v.None? || v == Some("")) ==> r == Success(None)
    ensures v.Some? && v.value != "" ==> (r.Success? <==> AllDigits(v.value))
    ensures v.Some? && v.value != "" && AllDigits(v.value) ==> r == Success(Some(ParseDigits(v.value)))
  {
    match v
    case None => Success(None)
    case Some(s) =>
      if s == "" then Success(None)
      else if AllDigits(s) then Success(Some(ParseDigits(s)))
      else Failure(NotDecimal)
  }

  /** Every part trimmed, in order. */
  function TrimAll(parts: seq<string>): (r: seq<string>)
    ensures |r| == |parts|
    ensures forall i :: 0 <= i < |parts| ==> r[i] == Trim(parts[i])
  {
    seq(|parts|, i requires 0 <= i < |parts| => Trim(parts[i]))
  }

  /**
   * tags: z.string().transform(val => val ? val.split(',').map(t => t.trim()) : []).optional().
   * Tags never fail. An empty cell gives the empty list. Otherwise the result
   * is one trimmed part per comma-separated piece, in input order.
   */
  function TagsCell(v: Option<string>): (r: Option<seq<string>>)
    ensures v.None? ==> r.None?
    ensures v == Some("") ==> r == Some([])
    ensures v.Some? && v.value != "" ==>
      && r.Some?
      && |r.value| == Occurrences(v.value, ',') + 1
      && (forall i :: 0 <= i < |r.value| ==> Trimmed(r.value[i]))
      && (forall i :: 0 <= i < |r.value| ==> r.value[i] == Trim(Split(v.value, ',')[i]))
  {
    match v
    case None => None
    case Some(s) => if s == "" then Some([]) else Some(TrimAll(Split(s, ',')))
  }

  /**
   * What a record accepted by the CSV row schema satisfies. It is the buyer
   * schema's Valid, except that bhk may be the empty literal and a budget
   * may be 0.
   */
  predicate RowValid(d: BuyerData, isEmail: string -> bool) {
    && 2 <= Utf16Length(d.fullName) <= 80
    && (d.email.Some? ==> d.email.value == "" || isEmail(d.email.value))
    && PhoneShape(d.phone)
    && (d.notes.Some? ==> Utf16Length(d.notes.value) <= 1000)
    && (d.tags.Some? ==> forall i :: 0 <= i < |d.tags.value| ==> Trimmed(d.tags.value[i]))
    && !BhkMissing(Some(d.propertyType), d.bhk)
    && !BudgetInverted(d.budgetMin, d.budgetMax)
  }

  /** The field rules of csvRowSchema in declaration order (status last). */
  function CheckCells(r: CsvRecord, isEmail: string -> bool): Result<BuyerData, Issue> {
    var fullName :- At("fullName", FullNameRule(AsJson(Cell(r, "fullName")), CsvWording));
    var email :- At("email", EmailRule(AsJson(Cell(r, "email")), isEmail, CsvWording));
    var phone :- At("phone", PhoneRule(AsJson(Cell(r, "phone")), CsvWording));
    var city :- At("city", EnumRule(AsJson(Cell(r, "city")), ParseCity));
    var propertyType :- At("propertyType", EnumRule(AsJson(Cell(r, "propertyType")), ParsePropertyType));
    var bhk :- At("bhk", BhkCell(Cell(r, "bhk")));
    var purpose :- At("purpose", EnumRule(AsJson(Cell(r, "purpose")), ParsePurpose));
    var budgetMin :- At("budgetMin", BudgetCell(Cell(r, "budgetMin")));
    var budgetMax :- At("budgetMax", BudgetCell(Cell(r, "budgetMax")));
    var timeline :- At("timeline", EnumRule(AsJson(Cell(r, "timeline")), ParseTimeline));
    var source :- At("source", EnumRule(AsJson(Cell(r, "source")), ParseSource));
    var notes :- At("notes", NotesRule(AsJson(Cell(r, "notes")), CsvWording));
    var tags := TagsCell(Cell(r, "tags"));
    var status :- At("status", StatusRule(AsJson(Cell(r, "status"))));
    Success(BuyerData(fullName, email, phone, city, propertyType, bhk, purpose, budgetMin, budgetMax,
                      timeline, source, status, notes, tags))
  }

  /** csvRowSchema.parse: the cell rules, then the same two refinements as the buyer schema. */
  function ValidateRow(r: CsvRecord, isEmail: string -> bool): (res: Result<BuyerData, Issue>)
    ensures res.Success? ==> RowValid(res.value, isEmail)
    ensures res.Success? && "status" !in r ==> res.value.status == New
    ensures res.Success? && "status" in r ==> StatusName(res.value.status) == r["status"]
    ensures CheckCells(r, isEmail).Failure? ==> res == CheckCells(r, isEmail)
  {
    var d :- CheckCells(r, isEmail);
    Refine(d)
  }
}
