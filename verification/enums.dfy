/**
 * The enumerations of the buyer schema (src/lib/validations/buyer.ts), each
 * with the literal the schema accepts for it and the parser zod's `z.enum`
 * performs: a string is accepted exactly when it is one of the literals.
 */
module Enums {
  import opened Wrappers

  datatype City = Chandigarh | Mohali | Zirakpur | Panchkula | Other

  function CityName(c: City): string {
    match c
    case Chandigarh => "Chandigarh"
    case Mohali => "Mohali"
    case Zirakpur => "Zirakpur"
    case Panchkula => "Panchkula"
    case Other => "Other"
  }

  function ParseCity(s: string): (r: Option<City>)
    ensures r.Some? ==> CityName(r.value) == s
    ensures r.None? ==> forall c :: CityName(c) != s
  {
    if s == "Chandigarh" then Some(Chandigarh)
    else if s == "Mohali" then Some(Mohali)
    else if s == "Zirakpur" then Some(Zirakpur)
    else if s == "Panchkula" then Some(Panchkula)
    else if s == "Other" then Some(City.Other)
    else None
  }

  datatype PropertyType = Apartment | Villa | Plot | Office | Retail

  function PropertyTypeName(p: PropertyType): string {
    match p
    case Apartment => "Apartment"
    case Villa => "Villa"
    case Plot => "Plot"
    case Office => "Office"
    case Retail => "Retail"
  }

  function ParsePropertyType(s: string): (r: Option<PropertyType>)
    ensures r.Some? ==> PropertyTypeName(r.value) == s
    ensures r.None? ==> forall p :: PropertyTypeName(p) != s
  {
    if s == "Apartment" then Some(Apartment)
    else if s == "Villa" then Some(Villa)
    else if s == "Plot" then Some(Plot)
    else if s == "Office" then Some(Office)
    else if s == "Retail" then Some(Retail)
    else None
  }

  /** Residential property types, for which the schema demands a BHK value. */
  predicate NeedsBhk(p: PropertyType) {
    p == Apartment || p == Villa
  }

  /**
   * Bedroom-count designation. `Blank` is the empty literal that the CSV row
   * schema admits beside the five enum values (`bhkEnum.optional().or(z.literal(''))`);
   * it is falsy, so it never satisfies the BHK requirement.
   */
  datatype Bhk = One | Two | Three | Four | Studio | Blank

  function BhkName(b: Bhk): string {
    match b
    case One => "1"
    case Two => "2"
    case Three => "3"
    case Four => "4"
    case Studio => "Studio"
    case Blank => ""
  }

  /** `bhkEnum`: the five literals; the empty string is not one of them. */
  function ParseBhk(s: string): (r: Option<Bhk>)
    ensures r.Some? ==> BhkName(r.value) == s && r.value != Blank
    ensures r.None? ==> forall b :: BhkName(b) != s || b == Blank
  {
    if s == "1" then Some(One)
    else if s == "2" then Some(Two)
    else if s == "3" then Some(Three)
    else if s == "4" then Some(Four)
    else if s == "Studio" then Some(Studio)
    else None
  }

  datatype Purpose = Buy | Rent

  function PurposeName(p: Purpose): string {
    match p
    case Buy => "Buy"
    case Rent => "Rent"
  }

  function ParsePurpose(s: string): (r: Option<Purpose>)
    ensures r.Some? ==> PurposeName(r.value) == s
    ensures r.None? ==> forall p :: PurposeName(p) != s
  {
    if s == "Buy" then Some(Buy)
    else if s == "Rent" then Some(Rent)
    else None
  }

  datatype Timeline = ZeroToThreeMonths | ThreeToSixMonths | OverSixMonths | Exploring

  function TimelineName(t: Timeline): string {
    match t
    case ZeroToThreeMonths => "0-3m"
    case ThreeToSixMonths => "3-6m"
    case OverSixMonths => ">6m"
    case Exploring => "Exploring"
  }

  function ParseTimeline(s: string): (r: Option<Timeline>)
    ensures r.Some? ==> TimelineName(r.value) == s
    ensures r.None? ==> forall t :: TimelineName(t) != s
  {
    if s == "0-3m" then Some(ZeroToThreeMonths)
    else if s == "3-6m" then Some(ThreeToSixMonths)
    else if s == ">6m" then Some(OverSixMonths)
    else if s == "Exploring" then Some(Exploring)
    else None
  }

  datatype Source = Website | Referral | WalkIn | Call | Other

  function SourceName(s: Source): string {
    match s
    case Website => "Website"
    case Referral => "Referral"
    case WalkIn => "Walk-in"
    case Call => "Call"
    case Other => "Other"
  }

  function ParseSource(s: string): (r: Option<Source>)
    ensures r.Some? ==> SourceName(r.value) == s
    ensures r.None? ==> forall x :: SourceName(x) != s
  {
    if s == "Website" then Some(Website)
    else if s == "Referral" then Some(Referral)
    else if s == "Walk-in" then Some(WalkIn)
    else if s == "Call" then Some(Call)
    else if s == "Other" then Some(Source.Other)
    else None
  }

  datatype Status = New | Qualified | Contacted | Visited | Negotiation | Converted | Dropped

  function StatusName(s: Status): string {
    match s
    case New => "New"
    case Qualified => "Qualified"
    case Contacted => "Contacted"
    case Visited => "Visited"
    case Negotiation => "Negotiation"
    case Converted => "Converted"
    case Dropped => "Dropped"
  }

  function ParseStatus(s: string): (r: Option<Status>)
    ensures r.Some? ==> StatusName(r.value) == s
    ensures r.None? ==> forall x :: StatusName(x) != s
  {
    if s == "New" then Some(New)
    else if s == "Qualified" then Some(Qualified)
    else if s == "Contacted" then Some(Contacted)
    else if s == "Visited" then Some(Visited)
    else if s == "Negotiation" then Some(Negotiation)
    else if s == "Converted" then Some(Converted)
    else if s == "Dropped" then Some(Dropped)
    else None
  }

  /** Columns a listing may be ordered by. */
  datatype SortField = UpdatedAt | FullName | CreatedAt

  function SortFieldName(f: SortField): string {
    match f
    case UpdatedAt => "updatedAt"
    case FullName => "fullName"
    case CreatedAt => "createdAt"
  }

  function ParseSortField(s: string): (r: Option<SortField>)
    ensures r.Some? ==> SortFieldName(r.value) == s
    ensures r.None? ==> forall f :: SortFieldName(f) != s
  {
    if s == "updatedAt" then Some(UpdatedAt)
    else if s == "fullName" then Some(FullName)
    else if s == "createdAt" then Some(CreatedAt)
    else None
  }

  datatype SortOrder = Asc | Desc

  function SortOrderName(o: SortOrder): string {
    match o
    case Asc => "asc"
    case Desc => "desc"
  }

  function ParseSortOrder(s: string): (r: Option<SortOrder>)
    ensures r.Some? ==> SortOrderName(r.value) == s
    ensures r.None? ==> forall o :: SortOrderName(o) != s
  {
    if s == "asc" then Some(Asc)
    else if s == "desc" then Some(Desc)
    else None
  }
}
