/**
 * Properties of the buyer schema: the refinement rules fire exactly when the
 * source says, the create schema is the buyer schema with status forced to
 * New, and a record survives being sent as JSON and validated again exactly
 * when it is valid.
 */
module BuyerSchemaProps {
  import opened Wrappers
  import opened Text
  import opened Enums
  import opened BuyerSchema

  /** A residential property without bhk fails on the bhk path once every field has passed. */
  lemma BhkRequiredForResidential(p: Payload, isEmail: string -> bool)
    requires CheckFields(p, isEmail, true).Success?
    requires Get(p, "propertyType") == Some(JStr("Apartment")) || Get(p, "propertyType") == Some(JStr("Villa"))
    requires "bhk" !in p
    ensures ValidateBuyer(p, isEmail) == Failure(Issue("bhk", BhkMessage))
  {
    var d := CheckFields(p, isEmail, true).value;
    assert NeedsBhk(d.propertyType);
  }

  /** Plot, Office and Retail never fail for want of bhk. */
  lemma BhkOptionalOtherwise(p: Payload, isEmail: string -> bool)
    requires CheckFields(p, isEmail, true).Success?
    requires !NeedsBhk(CheckFields(p, isEmail, true).value.propertyType)
    ensures ValidateBuyer(p, isEmail).Failure? ==> ValidateBuyer(p, isEmail).error == Issue("budgetMax", BudgetMessage)
  {
  }

  /**
   * The budget rule: once every field has passed and bhk is satisfied, the
   * record fails on budgetMax exactly when both budgets are present and the
   * maximum is below the minimum.
   */
  lemma BudgetOrder(p: Payload, isEmail: string -> bool)
    requires CheckFields(p, isEmail, true).Success?
    requires !BhkMissing(Some(CheckFields(p, isEmail, true).value.propertyType), CheckFields(p, isEmail, true).value.bhk)
    ensures var d := CheckFields(p, isEmail, true).value;
      ValidateBuyer(p, isEmail).Failure? <==>
        (d.budgetMin.Some? && d.budgetMax.Some? && d.budgetMax.value < d.budgetMin.value)
    ensures ValidateBuyer(p, isEmail).Failure? ==> ValidateBuyer(p, isEmail).error == Issue("budgetMax", BudgetMessage)
  {
    var d := CheckFields(p, isEmail, true).value;
    assert d.budgetMin.Some? ==> d.budgetMin.value > 0;
    assert d.budgetMax.Some? ==> d.budgetMax.value > 0;
  }

  /** The fields before position i pass, spelled out key by key: fullName to purpose. */
  lemma PassesContact(p: Payload, isEmail: string -> bool, i: nat)
    requires i < |FieldOrder|
    requires forall j :: 0 <= j < i ==> FieldIssue(p, isEmail, FieldOrder[j]).None?
    ensures i > 0 ==> FullNameRule(Get(p, "fullName"), FormWording).Success?
    ensures i > 1 ==> EmailRule(Get(p, "email"), isEmail, FormWording).Success?
    ensures i > 2 ==> PhoneRule(Get(p, "phone"), FormWording).Success?
    ensures i > 3 ==> EnumRule(Get(p, "city"), ParseCity).Success?
    ensures i > 4 ==> EnumRule(Get(p, "propertyType"), ParsePropertyType).Success?
    ensures i > 5 ==> OptionalEnumRule(Get(p, "bhk"), ParseBhk).Success?
    ensures i > 6 ==> EnumRule(Get(p, "purpose"), ParsePurpose).Success?
  {
    if i > 0 { assert FieldIssue(p, isEmail, FieldOrder[0]).None?; }
    if i > 1 { assert FieldIssue(p, isEmail, FieldOrder[1]).None?; }
    if i > 2 { assert FieldIssue(p, isEmail, FieldOrder[2]).None?; }
    if i > 3 { assert FieldIssue(p, isEmail, FieldOrder[3]).None?; }
    if i > 4 { assert FieldIssue(p, isEmail, FieldOrder[4]).None?; }
    if i > 5 { assert FieldIssue(p, isEmail, FieldOrder[5]).None?; }
    if i > 6 { assert FieldIssue(p, isEmail, FieldOrder[6]).None?; }
  }

  /** The same, budgetMin to notes. */
  lemma PassesProfile(p: Payload, isEmail: string -> bool, i: nat)
    requires i < |FieldOrder|
    requires forall j :: 0 <= j < i ==> FieldIssue(p, isEmail, FieldOrder[j]).None?
    ensures i > 7 ==> BudgetRule(Get(p, "budgetMin"), "Budget minimum must be positive").Success?
    ensures i > 8 ==> BudgetRule(Get(p, "budgetMax"), "Budget maximum must be positive").Success?
    ensures i > 9 ==> EnumRule(Get(p, "timeline"), ParseTimeline).Success?
    ensures i > 10 ==> EnumRule(Get(p, "source"), ParseSource).Success?
    ensures i > 11 ==> StatusRule(Get(p, "status")).Success?
    ensures i > 12 ==> NotesRule(Get(p, "notes"), FormWording).Success?
  {
    if i > 7 { assert FieldIssue(p, isEmail, FieldOrder[7]).None?; }
    if i > 8 { assert FieldIssue(p, isEmail, FieldOrder[8]).None?; }
    if i > 9 { assert FieldIssue(p, isEmail, FieldOrder[9]).None?; }
    if i > 10 { assert FieldIssue(p, isEmail, FieldOrder[10]).None?; }
    if i > 11 { assert FieldIssue(p, isEmail, FieldOrder[11]).None?; }
    if i > 12 { assert FieldIssue(p, isEmail, FieldOrder[12]).None?; }
  }

  /**
   * zod reports the first failing field: when every field before position i
   * of the declaration order passes and the field at i fails, validation
   * fails with that field's issue, whatever the later fields hold.
   */
  lemma {:induction false} FirstFailingField(p: Payload, isEmail: string -> bool, i: nat)
    requires i < |FieldOrder|
    requires forall j :: 0 <= j < i ==> FieldIssue(p, isEmail, FieldOrder[j]).None?
    requires FieldIssue(p, isEmail, FieldOrder[i]).Some?
    ensures ValidateBuyer(p, isEmail) == Failure(FieldIssue(p, isEmail, FieldOrder[i]).value)
  {
    PassesContact(p, isEmail, i);
    PassesProfile(p, isEmail, i);
    match i
    case 0 => assert FieldOrder[0] == "fullName";
    case 1 => assert FieldOrder[1] == "email";
    case 2 => assert FieldOrder[2] == "phone";
    case 3 => assert FieldOrder[3] == "city";
    case 4 => assert FieldOrder[4] == "propertyType";
    case 5 => assert FieldOrder[5] == "bhk";
    case 6 => assert FieldOrder[6] == "purpose";
    case 7 => assert FieldOrder[7] == "budgetMin";
    case 8 => assert FieldOrder[8] == "budgetMax";
    case 9 => assert FieldOrder[9] == "timeline";
    case 10 => assert FieldOrder[10] == "source";
    case 11 => assert FieldOrder[11] == "status";
    case 12 => assert FieldOrder[12] == "notes";
    case 13 => assert FieldOrder[13] == "tags";
  }

  /**
   * The phone case of the schema's tests: with the name "John Doe", no
   * email and the phone "123", validation fails on path phone with the
   * schema's phone message, whatever the later fields hold.
   */
  lemma ShortPhoneReported(p: Payload, isEmail: string -> bool)
    requires Get(p, "fullName") == Some(JStr("John Doe"))
    requires Get(p, "email") == None
    requires Get(p, "phone") == Some(JStr("123"))
    ensures ValidateBuyer(p, isEmail) == Failure(Issue("phone", "Phone must be 10-15 digits"))
  {
    assert FullNameRule(Get(p, "fullName"), FormWording).Success? by {
      assert Utf16Length("John Doe") == 8;
    }
    assert EmailRule(Get(p, "email"), isEmail, FormWording) == Success(None);
    assert PhoneRule(Get(p, "phone"), FormWording) == Failure(FormWording.phone);
  }

  /** Every key other than status reads the same after status is overwritten. */
  lemma GetOtherThanStatus(p: Payload, v: Json, key: string)
    requires key != "status"
    ensures Get(p["status" := v], key) == Get(p, key)
  {
  }

  /**
   * The create schema ignores whatever status the payload carries and
   * behaves as the buyer schema given status "New".
   */
  lemma CreateIsBuyerWithNewStatus(p: Payload, isEmail: string -> bool)
    ensures ValidateCreate(p, isEmail) == ValidateBuyer(p["status" := JStr("New")], isEmail)
  {
    var q := p["status" := JStr("New")];
    GetOtherThanStatus(p, JStr("New"), "fullName");
    GetOtherThanStatus(p, JStr("New"), "email");
    GetOtherThanStatus(p, JStr("New"), "phone");
    GetOtherThanStatus(p, JStr("New"), "city");
    GetOtherThanStatus(p, JStr("New"), "propertyType");
    GetOtherThanStatus(p, JStr("New"), "bhk");
    GetOtherThanStatus(p, JStr("New"), "purpose");
    GetOtherThanStatus(p, JStr("New"), "budgetMin");
    GetOtherThanStatus(p, JStr("New"), "budgetMax");
    GetOtherThanStatus(p, JStr("New"), "timeline");
    GetOtherThanStatus(p, JStr("New"), "source");
    GetOtherThanStatus(p, JStr("New"), "notes");
    GetOtherThanStatus(p, JStr("New"), "tags");
    assert Get(q, "status") == Some(JStr("New"));
    assert CheckFields(p, isEmail, false) == CheckFields(q, isEmail, true);
  }

  // ---------------------------------------------------------------------
  // JSON encoding of a record and its round trip through the schema
  // ---------------------------------------------------------------------

  /** The JSON value a client sends for one key of d, None for an absent optional field. */
  function EncodeField(d: BuyerData, key: string): Option<Json> {
    if key == "fullName" then Some(JStr(d.fullName))
    else if key == "email" then OptionalText(d.email)
    else if key == "phone" then Some(JStr(d.phone))
    else if key == "city" then Some(JStr(CityName(d.city)))
    else if key == "propertyType" then Some(JStr(PropertyTypeName(d.propertyType)))
    else if key == "bhk" then (if d.bhk.Some? then Some(JStr(BhkName(d.bhk.value))) else None)
    else if key == "purpose" then Some(JStr(PurposeName(d.purpose)))
    else if key == "budgetMin" then OptionalNumber(d.budgetMin)
    else if key == "budgetMax" then OptionalNumber(d.budgetMax)
    else if key == "timeline" then Some(JStr(TimelineName(d.timeline)))
    else if key == "source" then Some(JStr(SourceName(d.source)))
    else if key == "status" then Some(JStr(StatusName(d.status)))
    else if key == "notes" then OptionalText(d.notes)
    else if key == "tags" then (if d.tags.Some? then Some(JArr(StringArray(d.tags.value))) else None)
    else None
  }

  const BuyerKeys: set<string> := {
    "fullName", "email", "phone", "city", "propertyType", "bhk", "purpose",
    "budgetMin", "budgetMax", "timeline", "source", "status", "notes", "tags"}

  /** The JSON object a client sends for d: absent optional fields are left out. */
  function Encode(d: BuyerData): Payload {
    map k | k in BuyerKeys && EncodeField(d, k).Some? :: EncodeField(d, k).value
  }

  lemma GetEncode(d: BuyerData, key: string)
    requires key in BuyerKeys
    ensures Get(Encode(d), key) == EncodeField(d, key)
  {
  }

  lemma {:induction false} StringsOfStringArray(ts: seq<string>)
    ensures Strings(StringArray(ts)) == Some(ts)
  {
    var r := Strings(StringArray(ts));
    assert r.Some?;
    assert r.value == ts;
  }

  /** Enum literals parse back to the value they name. */
  lemma EnumNamesParse(d: BuyerData)
    ensures ParseCity(CityName(d.city)) == Some(d.city)
    ensures ParsePropertyType(PropertyTypeName(d.propertyType)) == Some(d.propertyType)
    ensures ParsePurpose(PurposeName(d.purpose)) == Some(d.purpose)
    ensures ParseTimeline(TimelineName(d.timeline)) == Some(d.timeline)
    ensures ParseSource(SourceName(d.source)) == Some(d.source)
    ensures ParseStatus(StatusName(d.status)) == Some(d.status)
    ensures d.bhk.Some? && d.bhk.value != Blank ==> ParseBhk(BhkName(d.bhk.value)) == d.bhk
  {
  }

  /** The values Encode puts under each key. */
  lemma EncodedValues(d: BuyerData)
    ensures Get(Encode(d), "fullName") == Some(JStr(d.fullName))
    ensures Get(Encode(d), "email") == OptionalText(d.email)
    ensures Get(Encode(d), "phone") == Some(JStr(d.phone))
    ensures Get(Encode(d), "city") == Some(JStr(CityName(d.city)))
    ensures Get(Encode(d), "propertyType") == Some(JStr(PropertyTypeName(d.propertyType)))
    ensures Get(Encode(d), "bhk") == (if d.bhk.Some? then Some(JStr(BhkName(d.bhk.value))) else None)
    ensures Get(Encode(d), "purpose") == Some(JStr(PurposeName(d.purpose)))
    ensures Get(Encode(d), "budgetMin") == OptionalNumber(d.budgetMin)
    ensures Get(Encode(d), "budgetMax") == OptionalNumber(d.budgetMax)
    ensures Get(Encode(d), "timeline") == Some(JStr(TimelineName(d.timeline)))
    ensures Get(Encode(d), "source") == Some(JStr(SourceName(d.source)))
    ensures Get(Encode(d), "status") == Some(JStr(StatusName(d.status)))
    ensures Get(Encode(d), "notes") == OptionalText(d.notes)
    ensures Get(Encode(d), "tags") == (if d.tags.Some? then Some(JArr(StringArray(d.tags.value))) else None)
  {
    GetEncode(d, "fullName");
    GetEncode(d, "email");
    GetEncode(d, "phone");
    GetEncode(d, "city");
    GetEncode(d, "propertyType");
    GetEncode(d, "bhk");
    GetEncode(d, "purpose");
    GetEncode(d, "budgetMin");
    GetEncode(d, "budgetMax");
    GetEncode(d, "timeline");
    GetEncode(d, "source");
    GetEncode(d, "status");
    GetEncode(d, "notes");
    GetEncode(d, "tags");
  }

  /** A budget survives being sent as a JSON number. */
  lemma BudgetOfNumber(n: Option<nat>, message: string)
    ensures var r := BudgetRule(OptionalNumber(n), message);
      (r.Success? <==> (n.Some? ==> n.value > 0)) && (r.Success? ==> r.value == n)
  {
    var r := BudgetRule(OptionalNumber(n), message);
    if r.Success? && n.Some? {
      assert r.value.value as real == n.value as real;
    }
  }

  /** Tags survive being sent as a JSON array of strings. */
  lemma TagsOfArray(ts: Option<seq<string>>)
    ensures TagsRule(if ts.Some? then Some(JArr(StringArray(ts.value))) else None) == Success(ts)
  {
    if ts.Some? {
      StringsOfStringArray(ts.value);
    }
  }

  /** The field rules all pass exactly when each one does, and then build the record from their values. */
  lemma CheckFieldsPass(p: Payload, isEmail: string -> bool)
    ensures var c := CheckFields(p, isEmail, true);
      c.Success? <==>
        && FullNameRule(Get(p, "fullName"), FormWording).Success?
        && EmailRule(Get(p, "email"), isEmail, FormWording).Success?
        && PhoneRule(Get(p, "phone"), FormWording).Success?
        && EnumRule(Get(p, "city"), ParseCity).Success?
        && EnumRule(Get(p, "propertyType"), ParsePropertyType).Success?
        && OptionalEnumRule(Get(p, "bhk"), ParseBhk).Success?
        && EnumRule(Get(p, "purpose"), ParsePurpose).Success?
        && BudgetRule(Get(p, "budgetMin"), "Budget minimum must be positive").Success?
        && BudgetRule(Get(p, "budgetMax"), "Budget maximum must be positive").Success?
        && EnumRule(Get(p, "timeline"), ParseTimeline).Success?
        && EnumRule(Get(p, "source"), ParseSource).Success?
        && StatusRule(Get(p, "status")).Success?
        && NotesRule(Get(p, "notes"), FormWording).Success?
        && TagsRule(Get(p, "tags")).Success?
    ensures var c := CheckFields(p, isEmail, true);
      c.Success? ==> c.value == BuyerData(
        FullNameRule(Get(p, "fullName"), FormWording).value,
        EmailRule(Get(p, "email"), isEmail, FormWording).value,
        PhoneRule(Get(p, "phone"), FormWording).value,
        EnumRule(Get(p, "city"), ParseCity).value,
        EnumRule(Get(p, "propertyType"), ParsePropertyType).value,
        OptionalEnumRule(Get(p, "bhk"), ParseBhk).value,
        EnumRule(Get(p, "purpose"), ParsePurpose).value,
        BudgetRule(Get(p, "budgetMin"), "Budget minimum must be positive").value,
        BudgetRule(Get(p, "budgetMax"), "Budget maximum must be positive").value,
        EnumRule(Get(p, "timeline"), ParseTimeline).value,
        EnumRule(Get(p, "source"), ParseSource).value,
        StatusRule(Get(p, "status")).value,
        NotesRule(Get(p, "notes"), FormWording).value,
        TagsRule(Get(p, "tags")).value)
  {
  }

  /** Validation of a payload holding d's encoded values, with the encoding itself kept out of sight. */
  lemma ValidateEncoded(p: Payload, d: BuyerData, isEmail: string -> bool)
    requires Get(p, "fullName") == Some(JStr(d.fullName))
    requires Get(p, "email") == OptionalText(d.email)
    requires Get(p, "phone") == Some(JStr(d.phone))
    requires Get(p, "city") == Some(JStr(CityName(d.city)))
    requires Get(p, "propertyType") == Some(JStr(PropertyTypeName(d.propertyType)))
    requires Get(p, "bhk") == (if d.bhk.Some? then Some(JStr(BhkName(d.bhk.value))) else None)
    requires Get(p, "purpose") == Some(JStr(PurposeName(d.purpose)))
    requires Get(p, "budgetMin") == OptionalNumber(d.budgetMin)
    requires Get(p, "budgetMax") == OptionalNumber(d.budgetMax)
    requires Get(p, "timeline") == Some(JStr(TimelineName(d.timeline)))
    requires Get(p, "source") == Some(JStr(SourceName(d.source)))
    requires Get(p, "status") == Some(JStr(StatusName(d.status)))
    requires Get(p, "notes") == OptionalText(d.notes)
    requires Get(p, "tags") == (if d.tags.Some? then Some(JArr(StringArray(d.tags.value))) else None)
    ensures ValidateBuyer(p, isEmail).Success? <==> Valid(d, isEmail)
    ensures Valid(d, isEmail) ==> ValidateBuyer(p, isEmail) == Success(d)
  {
    CheckFieldsPass(p, isEmail);
    EnumNamesParse(d);
    BudgetOfNumber(d.budgetMin, "Budget minimum must be positive");
    BudgetOfNumber(d.budgetMax, "Budget maximum must be positive");
    TagsOfArray(d.tags);
    var c := CheckFields(p, isEmail, true);
    assert c.Success? ==> c.value == d;
  }

  /**
   * Sending a record as JSON and validating it gives the record back exactly
   * when it is valid; otherwise validation fails.
   */
  lemma EncodeThenValidate(d: BuyerData, isEmail: string -> bool)
    ensures ValidateBuyer(Encode(d), isEmail).Success? <==> Valid(d, isEmail)
    ensures Valid(d, isEmail) ==> ValidateBuyer(Encode(d), isEmail) == Success(d)
  {
    EncodedValues(d);
    ValidateEncoded(Encode(d), d, isEmail);
  }

  // ---------------------------------------------------------------------
  // The update schema against the patch a payload carries
  // ---------------------------------------------------------------------

  /** Enum literals of a patch parse back to the values they name. */
  lemma PatchNamesParse(pt: Patch)
    ensures pt.city.Some? ==> ParseCity(CityName(pt.city.value)) == pt.city
    ensures pt.propertyType.Some? ==> ParsePropertyType(PropertyTypeName(pt.propertyType.value)) == pt.propertyType
    ensures pt.purpose.Some? ==> ParsePurpose(PurposeName(pt.purpose.value)) == pt.purpose
    ensures pt.timeline.Some? ==> ParseTimeline(TimelineName(pt.timeline.value)) == pt.timeline
    ensures pt.source.Some? ==> ParseSource(SourceName(pt.source.value)) == pt.source
    ensures pt.status.Some? ==> ParseStatus(StatusName(pt.status.value)) == pt.status
    ensures pt.bhk.Some? && pt.bhk.value != Blank ==> ParseBhk(BhkName(pt.bhk.value)) == pt.bhk
    ensures ParseBhk(BhkName(Blank)).None?
  {
  }

  /** The update's field rules all pass exactly when each one does, and then build the patch from their values. */
  lemma CheckPatchPass(p: Payload, isEmail: string -> bool)
    ensures var c := CheckPatch(p, isEmail);
      c.Success? <==>
        && Partial(Get(p, "fullName"), FullNameRule(Get(p, "fullName"), FormWording)).Success?
        && EmailRule(Get(p, "email"), isEmail, FormWording).Success?
        && Partial(Get(p, "phone"), PhoneRule(Get(p, "phone"), FormWording)).Success?
        && OptionalEnumRule(Get(p, "city"), ParseCity).Success?
        && OptionalEnumRule(Get(p, "propertyType"), ParsePropertyType).Success?
        && OptionalEnumRule(Get(p, "bhk"), ParseBhk).Success?
        && OptionalEnumRule(Get(p, "purpose"), ParsePurpose).Success?
        && BudgetRule(Get(p, "budgetMin"), "Budget minimum must be positive").Success?
        && BudgetRule(Get(p, "budgetMax"), "Budget maximum must be positive").Success?
        && OptionalEnumRule(Get(p, "timeline"), ParseTimeline).Success?
        && OptionalEnumRule(Get(p, "source"), ParseSource).Success?
        && OptionalEnumRule(Get(p, "status"), ParseStatus).Success?
        && NotesRule(Get(p, "notes"), FormWording).Success?
        && TagsRule(Get(p, "tags")).Success?
    ensures var c := CheckPatch(p, isEmail);
      c.Success? ==> c.value == Patch(
        Partial(Get(p, "fullName"), FullNameRule(Get(p, "fullName"), FormWording)).value,
        EmailRule(Get(p, "email"), isEmail, FormWording).value,
        Partial(Get(p, "phone"), PhoneRule(Get(p, "phone"), FormWording)).value,
        OptionalEnumRule(Get(p, "city"), ParseCity).value,
        OptionalEnumRule(Get(p, "propertyType"), ParsePropertyType).value,
        OptionalEnumRule(Get(p, "bhk"), ParseBhk).value,
        OptionalEnumRule(Get(p, "purpose"), ParsePurpose).value,
        BudgetRule(Get(p, "budgetMin"), "Budget minimum must be positive").value,
        BudgetRule(Get(p, "budgetMax"), "Budget maximum must be positive").value,
        OptionalEnumRule(Get(p, "timeline"), ParseTimeline).value,
        OptionalEnumRule(Get(p, "source"), ParseSource).value,
        OptionalEnumRule(Get(p, "status"), ParseStatus).value,
        NotesRule(Get(p, "notes"), FormWording).value,
        TagsRule(Get(p, "tags")).value)
  {
  }

  /** On a carried patch, the rules for the contact fields and the enums accept exactly the valid values and return them. */
  lemma CarriedContactRules(p: Payload, pt: Patch, isEmail: string -> bool)
    requires Carries(p, pt)
    ensures var r := Partial(Get(p, "fullName"), FullNameRule(Get(p, "fullName"), FormWording));
      (r.Success? <==> (pt.fullName.Some? ==> 2 <= Utf16Length(pt.fullName.value) <= 80)) && (r.Success? ==> r.value == pt.fullName)
    ensures var r := EmailRule(Get(p, "email"), isEmail, FormWording);
      (r.Success? <==> (pt.email.Some? ==> pt.email.value == "" || isEmail(pt.email.value))) && (r.Success? ==> r.value == pt.email)
    ensures var r := Partial(Get(p, "phone"), PhoneRule(Get(p, "phone"), FormWording));
      (r.Success? <==> (pt.phone.Some? ==> PhoneShape(pt.phone.value))) && (r.Success? ==> r.value == pt.phone)
    ensures OptionalEnumRule(Get(p, "city"), ParseCity) == Success(pt.city)
    ensures OptionalEnumRule(Get(p, "propertyType"), ParsePropertyType) == Success(pt.propertyType)
    ensures var r := OptionalEnumRule(Get(p, "bhk"), ParseBhk);
      (r.Success? <==> pt.bhk != Some(Blank)) && (r.Success? ==> r.value == pt.bhk)
    ensures OptionalEnumRule(Get(p, "purpose"), ParsePurpose) == Success(pt.purpose)
  {
    PatchNamesParse(pt);
  }

  /** On a carried patch, the rules for the budgets, the later enums, notes and tags accept exactly the valid values and return them. */
  lemma CarriedProfileRules(p: Payload, pt: Patch)
    requires Carries(p, pt)
    ensures var r := BudgetRule(Get(p, "budgetMin"), "Budget minimum must be positive");
      (r.Success? <==> (pt.budgetMin.Some? ==> pt.budgetMin.value > 0)) && (r.Success? ==> r.value == pt.budgetMin)
    ensures var r := BudgetRule(Get(p, "budgetMax"), "Budget maximum must be positive");
      (r.Success? <==> (pt.budgetMax.Some? ==> pt.budgetMax.value > 0)) && (r.Success? ==> r.value == pt.budgetMax)
    ensures OptionalEnumRule(Get(p, "timeline"), ParseTimeline) == Success(pt.timeline)
    ensures OptionalEnumRule(Get(p, "source"), ParseSource) == Success(pt.source)
    ensures OptionalEnumRule(Get(p, "status"), ParseStatus) == Success(pt.status)
    ensures var r := NotesRule(Get(p, "notes"), FormWording);
      (r.Success? <==> (pt.notes.Some? ==> Utf16Length(pt.notes.value) <= 1000)) && (r.Success? ==> r.value == pt.notes)
    ensures TagsRule(Get(p, "tags")) == Success(pt.tags)
  {
    PatchNamesParse(pt);
    BudgetOfNumber(pt.budgetMin, "Budget minimum must be positive");
    BudgetOfNumber(pt.budgetMax, "Budget maximum must be positive");
    TagsOfArray(pt.tags);
  }

  /** The field rules of the update schema accept a carried patch exactly when its fields are valid, and give it back. */
  lemma CheckPatchCarried(p: Payload, pt: Patch, isEmail: string -> bool)
    requires Carries(p, pt)
    ensures CheckPatch(p, isEmail).Success? <==> PatchFieldsValid(pt, isEmail)
    ensures PatchFieldsValid(pt, isEmail) ==> CheckPatch(p, isEmail) == Success(pt)
  {
    CheckPatchPass(p, isEmail);
    CarriedContactRules(p, pt, isEmail);
    CarriedProfileRules(p, pt);
  }

  /**
   * The partner of the update schema: a payload that carries a patch, an id
   * and the timestamp string of instant `at` validates exactly when the
   * patch is valid and the id is a uuid, and then gives back that request.
   */
  lemma ValidateCarried(p: Payload, pt: Patch, id: string, stamp: string, at: int,
                        isEmail: string -> bool, isUuid: string -> bool, parseDate: string -> Option<int>)
    requires Carries(p, pt)
    requires Get(p, "id") == Some(JStr(id))
    requires Get(p, "updatedAt") == Some(JStr(stamp)) && parseDate(stamp) == Some(at)
    ensures ValidateUpdate(p, isEmail, isUuid, parseDate).Success? <==> PatchValid(pt, isEmail) && isUuid(id)
    ensures PatchValid(pt, isEmail) && isUuid(id) ==>
      ValidateUpdate(p, isEmail, isUuid, parseDate) == Success(UpdateRequest(pt, id, at))
  {
    CheckPatchCarried(p, pt, isEmail);
  }

  /** The same payload under the schema as written is refused, on updatedAt once every other key passes. */
  lemma CarriedRejectedAsWritten(p: Payload, pt: Patch, id: string, stamp: string,
                                 isEmail: string -> bool, isUuid: string -> bool)
    requires Carries(p, pt) && PatchValid(pt, isEmail) && isUuid(id)
    requires Get(p, "id") == Some(JStr(id))
    requires Get(p, "updatedAt") == Some(JStr(stamp))
    ensures ValidateUpdateAsWritten(p, isEmail, isUuid) == Failure(Issue("updatedAt", ExpectedDate))
  {
    CheckPatchCarried(p, pt, isEmail);
  }

  // ---------------------------------------------------------------------
  // The filter schema against the query a payload encodes
  // ---------------------------------------------------------------------

  lemma QueryNamesParse(q: Query)
    ensures q.city.Some? ==> ParseCity(CityName(q.city.value)) == q.city
    ensures q.propertyType.Some? ==> ParsePropertyType(PropertyTypeName(q.propertyType.value)) == q.propertyType
    ensures q.status.Some? ==> ParseStatus(StatusName(q.status.value)) == q.status
    ensures q.timeline.Some? ==> ParseTimeline(TimelineName(q.timeline.value)) == q.timeline
    ensures ParseSortField(SortFieldName(q.sortBy)) == Some(q.sortBy)
    ensures ParseSortOrder(SortOrderName(q.sortOrder)) == Some(q.sortOrder)
  {
  }

  /** The partner of the export query schema: an encoded query is accepted and read back as itself. */
  lemma ExportQueryAccepts(p: Payload, q: Query)
    requires QueryEncoded(p, q)
    ensures ValidateExportQuery(p) == Success(q)
  {
    QueryRules(p, q);
  }

  /** A count sent as a number within range, or left out when it is the default, reads back as itself. */
  lemma CountAccepts(p: Payload, key: string, n: nat, default: nat, max: Option<nat>)
    requires CountEncoded(p, key, n, default)
    requires n >= 1 && (max.Some? ==> n <= max.value)
    ensures CountRule(Get(p, key), default, max) == Success(n)
  {
    if key in p {
      assert (n as real).Floor == n;
    }
  }

  /** The keys the filter and export schemas share read back as the encoded query. */
  lemma QueryRules(p: Payload, q: Query)
    requires QueryEncoded(p, q)
    ensures OptionalEnumRule(Get(p, "city"), ParseCity) == Success(q.city)
    ensures OptionalEnumRule(Get(p, "propertyType"), ParsePropertyType) == Success(q.propertyType)
    ensures OptionalEnumRule(Get(p, "status"), ParseStatus) == Success(q.status)
    ensures OptionalEnumRule(Get(p, "timeline"), ParseTimeline) == Success(q.timeline)
    ensures SearchRule(Get(p, "search")) == Success(q.search)
    ensures DefaultedEnumRule(Get(p, "sortBy"), ParseSortField, UpdatedAt) == Success(q.sortBy)
    ensures DefaultedEnumRule(Get(p, "sortOrder"), ParseSortOrder, Desc) == Success(q.sortOrder)
  {
    QueryNamesParse(q);
  }

  /**
   * The partner of the filter schema: an encoded query with a page of at
   * least 1 and a limit between 1 and 100, each sent as a number or left out
   * when it is the default, is accepted and read back as itself.
   */
  lemma FiltersAccept(p: Payload, f: Filters)
    requires QueryEncoded(p, f.query)
    requires f.page >= 1 && 1 <= f.limit <= 100
    requires CountEncoded(p, "page", f.page, 1) && CountEncoded(p, "limit", f.limit, 10)
    ensures ValidateFilters(p) == Success(f)
  {
    QueryRules(p, f.query);
    CountAccepts(p, "page", f.page, 1, None);
    CountAccepts(p, "limit", f.limit, 10, Some(100));
  }
}
