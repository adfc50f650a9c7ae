/**
 * Properties of the CSV adapter: what the export writes for absent fields,
 * and the round trip from a stored buyer through the export record and back
 * through the CSV row schema.
 */
module CsvProps {
  import opened Wrappers
  import opened Text
  import opened Enums
  import opened BuyerSchema
  import opened CsvRowSchema
  import opened Csv
  import BuyerSchemaProps

  // ---------------------------------------------------------------------
  // Tags: join with ", ", split on ',' and trim
  // ---------------------------------------------------------------------

  /** A tag the export can carry unchanged: no surrounding white space and no comma. */
  predicate CleanTag(t: string) {
    Trimmed(t) && ',' !in t
  }

  predicate CleanTags(tags: Option<seq<string>>) {
    tags.Some? ==> forall i :: 0 <= i < |tags.value| ==> CleanTag(tags.value[i])
  }

  /** Each part with one leading space, as `join(', ')` leaves it after splitting on ','. */
  function PadAll(u: seq<string>): (r: seq<string>)
    ensures |r| == |u|
    ensures forall i :: 0 <= i < |u| ==> r[i] == " " + u[i]
  {
    seq(|u|, i requires 0 <= i < |u| => " " + u[i])
  }

  lemma {:induction false} PaddedJoin(u: seq<string>)
    requires |u| >= 1
    ensures " " + Join(u, ", ") == Join(PadAll(u), ",")
    decreases |u|
  {
    if |u| > 1 {
      PaddedJoin(u[1..]);
      assert PadAll(u)[1..] == PadAll(u[1..]);
      assert " " + Join(u, ", ") == (" " + u[0]) + "," + (" " + Join(u[1..], ", "));
    }
  }

  lemma JoinCons(a: string, rest: seq<string>, delim: string)
    requires |rest| >= 1
    ensures Join([a] + rest, delim) == a + delim + Join(rest, delim)
  {
    assert ([a] + rest)[1..] == rest;
  }

  lemma JoinFirst(ts: seq<string>, delim: string)
    requires |ts| > 1
    ensures Join(ts, delim) == ts[0] + delim + Join(ts[1..], delim)
  {
  }

  lemma Regroup(a: string, rest: string)
    ensures a + ", " + rest == a + "," + (" " + rest)
  {
  }

  /** `ts.join(', ')` is the comma join of the first tag and the space-padded rest. */
  lemma JoinedTagsParts(ts: seq<string>)
    requires |ts| >= 1
    ensures Join(ts, ", ") == Join([ts[0]] + PadAll(ts[1..]), ",")
  {
    if |ts| > 1 {
      PaddedJoin(ts[1..]);
      JoinCons(ts[0], PadAll(ts[1..]), ",");
      JoinFirst(ts, ", ");
      Regroup(ts[0], Join(ts[1..], ", "));
    } else {
      assert [ts[0]] + PadAll(ts[1..]) == ts;
    }
  }

  /** The pieces `split(',')` cuts an exported tag list into. */
  function TagPieces(ts: seq<string>): seq<string>
    requires |ts| >= 1
  {
    [ts[0]] + PadAll(ts[1..])
  }

  lemma SplitExportedTags(ts: seq<string>)
    requires |ts| >= 1
    requires forall i :: 0 <= i < |ts| ==> CleanTag(ts[i])
    ensures Split(Join(ts, ", "), ',') == TagPieces(ts)
  {
    var parts := TagPieces(ts);
    JoinedTagsParts(ts);
    forall i | 0 <= i < |parts| ensures ',' !in parts[i] {
      if i > 0 {
        assert parts[i] == " " + ts[i];
      }
    }
    SplitJoin(parts, ',');
  }

  /** Trimming a padded trimmed string leaves the string. */
  lemma TrimLeftPadded(pad: string, t: string)
    requires AllSpaces(pad) && Trimmed(t)
    ensures Trim(pad + t) == t
  {
    TrimPadded(pad, t, "");
    assert pad + t + "" == pad + t;
  }

  /** Piece i of an exported tag list is tag i, padded by one space after the first. */
  lemma TagPiece(ts: seq<string>, i: int)
    requires 0 <= i < |ts|
    ensures TagPieces(ts)[i] == (if i == 0 then "" else " ") + ts[i]
  {
    if i == 0 {
      assert "" + ts[0] == ts[0];
    } else {
      assert TagPieces(ts)[i] == PadAll(ts[1..])[i - 1];
    }
  }

  lemma TrimPieces(ts: seq<string>)
    requires |ts| >= 1
    requires forall i :: 0 <= i < |ts| ==> CleanTag(ts[i])
    ensures TrimAll(TagPieces(ts)) == ts
  {
    var r := TrimAll(TagPieces(ts));
    forall i | 0 <= i < |ts| ensures r[i] == ts[i] {
      TrimPiece(ts, i);
    }
  }

  /** Trimming piece i of an exported tag list gives tag i back. */
  lemma TrimPiece(ts: seq<string>, i: int)
    requires 0 <= i < |ts|
    requires CleanTag(ts[i])
    ensures |TagPieces(ts)| == |ts|
    ensures Trim(TagPieces(ts)[i]) == ts[i]
  {
    TagPiece(ts, i);
    TrimLeftPadded(if i == 0 then "" else " ", ts[i]);
  }

  /**
   * Exported tags read back as the same list, provided no tag has a comma
   * or surrounding white space. The one exception is the list holding a
   * single empty tag, which prints as the empty cell and comes back as [].
   */
  lemma TagsRoundTrip(ts: seq<string>)
    requires forall i :: 0 <= i < |ts| ==> CleanTag(ts[i])
    ensures TagsCell(Some(Join(ts, ", "))) == Some(if ts == [""] then [] else ts)
  {
    if ts != [] && ts != [""] {
      var s := Join(ts, ", ");
      SplitExportedTags(ts);
      TrimPieces(ts);
      if |ts| == 1 {
        assert s == ts[0];
      } else {
        assert |Split(s, ',')| >= 2;
      }
    }
  }

  // ---------------------------------------------------------------------
  // Budgets: toString and back
  // ---------------------------------------------------------------------

  /** An exported budget cell reads back as the same budget, absent included. */
  lemma BudgetRoundTrip(n: Option<nat>)
    ensures BudgetCell(Some(NumberCell(n))) == Success(n)
  {
    if n.Some? {
      ParseNatToString(n.value);
    }
  }

  // ---------------------------------------------------------------------
  // Whole records
  // ---------------------------------------------------------------------

  /**
   * A buyer as it comes back from export and re-import. Absent email and
   * notes come back as '', an absent bhk as the '' literal, and absent tags
   * as []. Everything else is unchanged.
   */
  function Normalise(d: BuyerData): BuyerData {
    d.(email := Some(OrEmpty(d.email)),
       bhk := Some(if d.bhk.Some? then d.bhk.value else Blank),
       notes := Some(OrEmpty(d.notes)),
       tags := Some(if d.tags.None? || d.tags == Some([""]) then [] else d.tags.value))
  }

  lemma ExportedCell(d: BuyerData, h: string)
    requires h in Headers
    ensures Cell(ExportRecord(d), h) == Some(ExportCell(d, h))
  {
  }

  /** The cell ExportRecord puts under each column. */
  lemma ExportedCells(d: BuyerData)
    ensures Cell(ExportRecord(d), "fullName") == Some(d.fullName)
    ensures Cell(ExportRecord(d), "email") == Some(OrEmpty(d.email))
    ensures Cell(ExportRecord(d), "phone") == Some(d.phone)
    ensures Cell(ExportRecord(d), "city") == Some(CityName(d.city))
    ensures Cell(ExportRecord(d), "propertyType") == Some(PropertyTypeName(d.propertyType))
    ensures Cell(ExportRecord(d), "bhk") == Some(if d.bhk.Some? then BhkName(d.bhk.value) else "")
    ensures Cell(ExportRecord(d), "purpose") == Some(PurposeName(d.purpose))
    ensures Cell(ExportRecord(d), "budgetMin") == Some(NumberCell(d.budgetMin))
    ensures Cell(ExportRecord(d), "budgetMax") == Some(NumberCell(d.budgetMax))
    ensures Cell(ExportRecord(d), "timeline") == Some(TimelineName(d.timeline))
    ensures Cell(ExportRecord(d), "source") == Some(SourceName(d.source))
    ensures Cell(ExportRecord(d), "notes") == Some(OrEmpty(d.notes))
    ensures Cell(ExportRecord(d), "tags") == Some(TagsText(d.tags))
    ensures Cell(ExportRecord(d), "status") == Some(StatusName(d.status))
  {
    ExportedIdentityCells(d);
    ExportedProfileCells(d);
  }

  /** The cells of the first seven columns. */
  lemma ExportedIdentityCells(d: BuyerData)
    ensures Cell(ExportRecord(d), "fullName") == Some(d.fullName)
    ensures Cell(ExportRecord(d), "email") == Some(OrEmpty(d.email))
    ensures Cell(ExportRecord(d), "phone") == Some(d.phone)
    ensures Cell(ExportRecord(d), "city") == Some(CityName(d.city))
    ensures Cell(ExportRecord(d), "propertyType") == Some(PropertyTypeName(d.propertyType))
    ensures Cell(ExportRecord(d), "bhk") == Some(if d.bhk.Some? then BhkName(d.bhk.value) else "")
    ensures Cell(ExportRecord(d), "purpose") == Some(PurposeName(d.purpose))
  {
    ExportedCell(d, "fullName");
    ExportedCell(d, "email");
    ExportedCell(d, "phone");
    ExportedCell(d, "city");
    ExportedCell(d, "propertyType");
    ExportedCell(d, "bhk");
    ExportedCell(d, "purpose");
  }

  /** The cells of the last seven columns. */
  lemma ExportedProfileCells(d: BuyerData)
    ensures Cell(ExportRecord(d), "budgetMin") == Some(NumberCell(d.budgetMin))
    ensures Cell(ExportRecord(d), "budgetMax") == Some(NumberCell(d.budgetMax))
    ensures Cell(ExportRecord(d), "timeline") == Some(TimelineName(d.timeline))
    ensures Cell(ExportRecord(d), "source") == Some(SourceName(d.source))
    ensures Cell(ExportRecord(d), "notes") == Some(OrEmpty(d.notes))
    ensures Cell(ExportRecord(d), "tags") == Some(TagsText(d.tags))
    ensures Cell(ExportRecord(d), "status") == Some(StatusName(d.status))
  {
    ExportedCell(d, "budgetMin");
    ExportedCell(d, "budgetMax");
    ExportedCell(d, "timeline");
    ExportedCell(d, "source");
    ExportedCell(d, "notes");
    ExportedCell(d, "tags");
    ExportedCell(d, "status");
  }


  /** The cell rules all pass exactly when each one does, and then build the record from their values. */
  lemma CheckCellsPass(r: CsvRecord, isEmail: string -> bool)
    ensures var c := CheckCells(r, isEmail);
      c.Success? <==>
        && FullNameRule(AsJson(Cell(r, "fullName")), CsvWording).Success?
        && EmailRule(AsJson(Cell(r, "email")), isEmail, CsvWording).Success?
        && PhoneRule(AsJson(Cell(r, "phone")), CsvWording).Success?
        && EnumRule(AsJson(Cell(r, "city")), ParseCity).Success?
        && EnumRule(AsJson(Cell(r, "propertyType")), ParsePropertyType).Success?
        && BhkCell(Cell(r, "bhk")).Success?
        && EnumRule(AsJson(Cell(r, "purpose")), ParsePurpose).Success?
        && BudgetCell(Cell(r, "budgetMin")).Success?
        && BudgetCell(Cell(r, "budgetMax")).Success?
        && EnumRule(AsJson(Cell(r, "timeline")), ParseTimeline).Success?
        && EnumRule(AsJson(Cell(r, "source")), ParseSource).Success?
        && NotesRule(AsJson(Cell(r, "notes")), CsvWording).Success?
        && StatusRule(AsJson(Cell(r, "status"))).Success?
    ensures var c := CheckCells(r, isEmail);
      c.Success? ==> c.value == BuyerData(
        FullNameRule(AsJson(Cell(r, "fullName")), CsvWording).value,
        EmailRule(AsJson(Cell(r, "email")), isEmail, CsvWording).value,
        PhoneRule(AsJson(Cell(r, "phone")), CsvWording).value,
        EnumRule(AsJson(Cell(r, "city")), ParseCity).value,
        EnumRule(AsJson(Cell(r, "propertyType")), ParsePropertyType).value,
        BhkCell(Cell(r, "bhk")).value,
        EnumRule(AsJson(Cell(r, "purpose")), ParsePurpose).value,
        BudgetCell(Cell(r, "budgetMin")).value,
        BudgetCell(Cell(r, "budgetMax")).value,
        EnumRule(AsJson(Cell(r, "timeline")), ParseTimeline).value,
        EnumRule(AsJson(Cell(r, "source")), ParseSource).value,
        StatusRule(AsJson(Cell(r, "status"))).value,
        NotesRule(AsJson(Cell(r, "notes")), CsvWording).value,
        TagsCell(Cell(r, "tags")))
  {
  }

  /** An exported bhk cell reads back as the bhk, with absent turned into the '' literal. */
  lemma BhkRoundTrip(b: Option<Bhk>)
    ensures BhkCell(Some(if b.Some? then BhkName(b.value) else "")) == Success(Some(if b.Some? then b.value else Blank))
  {
  }

  /** Importing a record that holds d's exported cells, with the export itself kept out of sight. */
  lemma ImportExported(r: CsvRecord, d: BuyerData, isEmail: string -> bool)
    requires Cell(r, "fullName") == Some(d.fullName)
    requires Cell(r, "email") == Some(OrEmpty(d.email))
    requires Cell(r, "phone") == Some(d.phone)
    requires Cell(r, "city") == Some(CityName(d.city))
    requires Cell(r, "propertyType") == Some(PropertyTypeName(d.propertyType))
    requires Cell(r, "bhk") == Some(if d.bhk.Some? then BhkName(d.bhk.value) else "")
    requires Cell(r, "purpose") == Some(PurposeName(d.purpose))
    requires Cell(r, "budgetMin") == Some(NumberCell(d.budgetMin))
    requires Cell(r, "budgetMax") == Some(NumberCell(d.budgetMax))
    requires Cell(r, "timeline") == Some(TimelineName(d.timeline))
    requires Cell(r, "source") == Some(SourceName(d.source))
    requires Cell(r, "notes") == Some(OrEmpty(d.notes))
    requires Cell(r, "tags") == Some(TagsText(d.tags))
    requires Cell(r, "status") == Some(StatusName(d.status))
    requires CleanTags(d.tags)
    ensures ValidateRow(r, isEmail).Success? <==> RowValid(d, isEmail)
    ensures RowValid(d, isEmail) ==> ValidateRow(r, isEmail) == Success(Normalise(d))
  {
    CheckCellsPass(r, isEmail);
    BuyerSchemaProps.EnumNamesParse(d);
    BhkRoundTrip(d.bhk);
    BudgetRoundTrip(d.budgetMin);
    BudgetRoundTrip(d.budgetMax);
    if d.tags.Some? {
      TagsRoundTrip(d.tags.value);
    }
    var c := CheckCells(r, isEmail);
    assert c.Success? ==> c.value == Normalise(d);
  }

  /**
   * Round trip of one buyer whose tags are clean. Validating its export
   * record with the CSV row schema succeeds exactly when the buyer satisfies
   * the CSV row rules, and then gives back the buyer with its absent fields
   * in their exported form.
   */
  lemma ExportThenImport(d: BuyerData, isEmail: string -> bool)
    requires CleanTags(d.tags)
    ensures ValidateRow(ExportRecord(d), isEmail).Success? <==> RowValid(d, isEmail)
    ensures RowValid(d, isEmail) ==> ValidateRow(ExportRecord(d), isEmail) == Success(Normalise(d))
  {
    ExportedCells(d);
    ImportExported(ExportRecord(d), d, isEmail);
  }

  /** Outcomes that all pass go to data unchanged and produce no errors. */
  lemma AllPass(outs: seq<Result<BuyerData, Issue>>, records: seq<CsvRecord>, rows: seq<BuyerData>)
    requires |outs| == |records| == |rows|
    requires forall i :: 0 <= i < |outs| ==> outs[i] == Success(rows[i])
    ensures Passed(outs) == rows
    ensures Failed(outs, records) == []
  {
    AllPassed(outs, rows);
  }

  lemma {:induction false} AllPassed(outs: seq<Result<BuyerData, Issue>>, rows: seq<BuyerData>)
    requires |outs| == |rows|
    requires forall i :: 0 <= i < |outs| ==> outs[i] == Success(rows[i])
    ensures Passed(outs) == rows
  {
    if outs != [] {
      var n := |outs|;
      AllPassed(outs[..n - 1], rows[..n - 1]);
      assert rows == rows[..n - 1] + [rows[n - 1]];
    }
  }

  function NormaliseAll(bs: seq<BuyerData>): (r: seq<BuyerData>)
    ensures |r| == |bs|
    ensures forall i :: 0 <= i < |bs| ==> r[i] == Normalise(bs[i])
  {
    seq(|bs|, i requires 0 <= i < |bs| => Normalise(bs[i]))
  }

  /**
   * Exporting buyers that satisfy the CSV row rules and have clean tags,
   * then importing the export records, loses no row and reports no error:
   * data is the buyers in order, each in its exported form.
   */
  lemma ExportThenImportAll(bs: seq<BuyerData>, isEmail: string -> bool)
    requires forall i :: 0 <= i < |bs| ==> CleanTags(bs[i].tags) && RowValid(bs[i], isEmail)
    ensures Passed(Outcomes(ExportRecords(bs), isEmail)) == NormaliseAll(bs)
    ensures Failed(Outcomes(ExportRecords(bs), isEmail), ExportRecords(bs)) == []
  {
    var records := ExportRecords(bs);
    var outs := Outcomes(records, isEmail);
    forall i | 0 <= i < |bs| ensures outs[i] == Success(NormaliseAll(bs)[i]) {
      ExportThenImport(bs[i], isEmail);
    }
    AllPass(outs, records, NormaliseAll(bs));
  }
}
