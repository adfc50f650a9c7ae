/**
 * The CSV adapter of src/lib/csv.ts, over records that csv-parse has
 * already split into named cells (import) and over rows of cell text that
 * csv-stringify would quote and print (export).
 */
module Csv {
  import opened Wrappers
  import opened Text
  import opened Enums
  import opened BuyerSchema
  import opened CsvRowSchema

  /** The largest file parseCsvFile will look at, in records. */
  const MaxRows: nat := 200

  const TooManyRows := "Maximum 200 rows allowed"
  const FallbackMessage := "Validation error"

  /** One rejected record: its 1-based row (0 for the file as a whole), a message and the record itself. */
  datatype RowError = RowError(row: nat, message: string, data: Option<CsvRecord>)

  datatype ImportResult = ImportResult(success: bool, data: seq<BuyerData>, errors: seq<RowError>)

  /** `error.errors?.[0]?.message || 'Validation error'`: an empty message is replaced. */
  function ErrorMessage(issue: Issue): (m: string)
    ensures m != ""
    ensures issue.message != "" ==> m == issue.message
  {
    if issue.message == "" then FallbackMessage else issue.message
  }

  /** What csvRowSchema.parse makes of each record, in input order. */
  function Outcomes(records: seq<CsvRecord>, isEmail: string -> bool): (outs: seq<Result<BuyerData, Issue>>)
    ensures |outs| == |records|
    ensures forall i :: 0 <= i < |records| ==> outs[i] == ValidateRow(records[i], isEmail)
  {
    seq(|records|, i requires 0 <= i < |records| => ValidateRow(records[i], isEmail))
  }

  /** Reference: the values of the passing outcomes, in input order. */
  function Passed(outs: seq<Result<BuyerData, Issue>>): (rows: seq<BuyerData>)
    ensures |rows| <= |outs|
  {
    if outs == [] then []
    else
      var last := outs[|outs| - 1];
      Passed(outs[..|outs| - 1]) + (if last.Success? then [last.value] else [])
  }

  /** Every passed row is the value of a passing outcome. */
  lemma {:induction false} PassedFromOutcomes(outs: seq<Result<BuyerData, Issue>>)
    ensures forall i :: 0 <= i < |Passed(outs)| ==> Success(Passed(outs)[i]) in outs
  {
    if outs != [] {
      var front := outs[..|outs| - 1];
      PassedFromOutcomes(front);
      forall i | 0 <= i < |Passed(outs)| ensures Success(Passed(outs)[i]) in outs {
        if i < |Passed(front)| {
          assert Passed(outs)[i] == Passed(front)[i];
          var j :| 0 <= j < |front| && front[j] == Success(Passed(front)[i]);
          assert outs[j] == front[j];
        } else {
          assert outs[|outs| - 1] == Success(Passed(outs)[i]);
        }
      }
    }
  }

  /** The error parseCsvFile reports for a failing outcome at a 1-based row. */
  predicate ReportsFailure(outs: seq<Result<BuyerData, Issue>>, records: seq<CsvRecord>, e: RowError)
    requires |outs| == |records|
  {
    && 1 <= e.row <= |outs|
    && outs[e.row - 1].Failure?
    && e.message == ErrorMessage(outs[e.row - 1].error)
    && e.data == Some(records[e.row - 1])
  }

  /** Reference: one error per failing outcome, in input order. */
  function Failed(outs: seq<Result<BuyerData, Issue>>, records: seq<CsvRecord>): (errs: seq<RowError>)
    requires |outs| == |records|
    ensures |Passed(outs)| + |errs| == |outs|
    ensures forall k :: 0 <= k < |errs| ==> ReportsFailure(outs, records, errs[k])
    ensures forall k, l :: 0 <= k < l < |errs| ==> errs[k].row < errs[l].row
  {
    if outs == [] then []
    else
      var n := |outs|;
      var errs := Failed(outs[..n - 1], records[..n - 1]);
      var last := if outs[n - 1].Failure? then [RowError(n, ErrorMessage(outs[n - 1].error), Some(records[n - 1]))] else [];
      FailedStep(outs, records, errs, last);
      errs + last
  }

  /** The errors of all outcomes but the last, extended by the last one's. */
  lemma FailedStep(outs: seq<Result<BuyerData, Issue>>, records: seq<CsvRecord>, errs: seq<RowError>, last: seq<RowError>)
    requires |outs| == |records| >= 1
    requires var n := |outs|;
      && |Passed(outs[..n - 1])| + |errs| == n - 1
      && (forall k :: 0 <= k < |errs| ==> ReportsFailure(outs[..n - 1], records[..n - 1], errs[k]))
      && (forall k, l :: 0 <= k < l < |errs| ==> errs[k].row < errs[l].row)
    requires last == if outs[|outs| - 1].Failure? then [RowError(|outs|, ErrorMessage(outs[|outs| - 1].error), Some(records[|outs| - 1]))] else []
    ensures |Passed(outs)| + |errs + last| == |outs|
    ensures forall k :: 0 <= k < |errs + last| ==> ReportsFailure(outs, records, (errs + last)[k])
    ensures forall k, l :: 0 <= k < l < |errs + last| ==> (errs + last)[k].row < (errs + last)[l].row
  {
    var n := |outs|;
    forall k | 0 <= k < |errs| ensures ReportsFailure(outs, records, errs[k]) && errs[k].row <= n - 1 {
      assert ReportsFailure(outs[..n - 1], records[..n - 1], errs[k]);
    }
  }

  /** Passed and Failed of one more outcome. */
  lemma Snoc(outs: seq<Result<BuyerData, Issue>>, records: seq<CsvRecord>, o: Result<BuyerData, Issue>, r: CsvRecord)
    requires |outs| == |records|
    ensures Passed(outs + [o]) == Passed(outs) + (if o.Success? then [o.value] else [])
    ensures Failed(outs + [o], records + [r]) ==
      Failed(outs, records) + (if o.Failure? then [RowError(|outs| + 1, ErrorMessage(o.error), Some(r))] else [])
  {
    assert (outs + [o])[..|outs|] == outs;
    assert (records + [r])[..|records|] == records;
  }

  /** Every failing outcome has an error at its row. */
  lemma {:induction false} EveryFailureReported(outs: seq<Result<BuyerData, Issue>>, records: seq<CsvRecord>, i: nat)
    requires |outs| == |records|
    requires i < |outs| && outs[i].Failure?
    ensures exists k :: 0 <= k < |Failed(outs, records)| && Failed(outs, records)[k].row == i + 1
  {
    var n := |outs|;
    var errs := Failed(outs, records);
    if i == n - 1 {
      assert errs[|errs| - 1].row == i + 1;
    } else {
      var front := Failed(outs[..n - 1], records[..n - 1]);
      EveryFailureReported(outs[..n - 1], records[..n - 1], i);
      var k :| 0 <= k < |front| && front[k].row == i + 1;
      assert errs[k] == front[k];
    }
  }

  /** The records that reach data all satisfy the CSV row rules. */
  lemma ImportedRowsValid(records: seq<CsvRecord>, isEmail: string -> bool)
    ensures forall d :: d in Passed(Outcomes(records, isEmail)) ==> RowValid(d, isEmail)
  {
    var outs := Outcomes(records, isEmail);
    PassedFromOutcomes(outs);
    forall d | d in Passed(outs) ensures RowValid(d, isEmail) {
      var i :| 0 <= i < |Passed(outs)| && Passed(outs)[i] == d;
      assert Success(d) in outs;
      var j :| 0 <= j < |outs| && outs[j] == Success(d);
      assert ValidateRow(records[j], isEmail) == Success(d);
    }
  }

  /** The forEach of parseCsvFile: sorts outcomes into data and errors in one pass. */
  method Collect(outs: seq<Result<BuyerData, Issue>>, records: seq<CsvRecord>) returns (data: seq<BuyerData>, errors: seq<RowError>)
    requires |outs| == |records|
    ensures data == Passed(outs)
    ensures errors == Failed(outs, records)
  {
    data := [];
    errors := [];
    var i := 0;
    while i < |outs|
      invariant 0 <= i <= |outs|
      invariant data == Passed(outs[..i])
      invariant errors == Failed(outs[..i], records[..i])
    {
      var r := outs[i];
      assert outs[..i + 1] == outs[..i] + [r];
      assert records[..i + 1] == records[..i] + [records[i]];
      Snoc(outs[..i], records[..i], r, records[i]);
      if r.Success? {
        data := data + [r.value];
      } else {
        errors := errors + [RowError(i + 1, ErrorMessage(r.error), Some(records[i]))];
      }
      i := i + 1;
    }
    assert outs[..|outs|] == outs;
    assert records[..|records|] == records;
  }

  /**
   * parseCsvFile over already tokenised records. More than 200 records are
   * rejected as a whole. Otherwise every record is validated on its own:
   * passing ones go to data in input order, failing ones to errors with
   * their 1-based row.
   */
  method ParseCsvFile(records: seq<CsvRecord>, isEmail: string -> bool) returns (res: ImportResult)
    ensures |records| > MaxRows ==> res == ImportResult(false, [], [RowError(0, TooManyRows, None)])
    ensures |records| <= MaxRows ==>
      var outs := Outcomes(records, isEmail);
      res.data == Passed(outs) && res.errors == Failed(outs, records)
    ensures |records| <= MaxRows ==> |res.data| + |res.errors| == |records|
    ensures res.success <==> res.errors == []
  {
    if |records| > MaxRows {
      return ImportResult(false, [], [RowError(0, TooManyRows, None)]);
    }
    var outs := Outcomes(records, isEmail);
    var data, errors := Collect(outs, records);
    return ImportResult(|errors| == 0, data, errors);
  }

  // ---------------------------------------------------------------------
  // Export
  // ---------------------------------------------------------------------

  /** The fixed column order of the export. */
  const Headers: seq<string> := [
    "fullName", "email", "phone", "city", "propertyType", "bhk", "purpose",
    "budgetMin", "budgetMax", "timeline", "source", "notes", "tags", "status"]

  /** `x || ''` for an optional string. */
  function OrEmpty(s: Option<string>): string {
    if s.Some? then s.value else ""
  }

  /** `n?.toString() || ''` */
  function NumberCell(n: Option<nat>): string {
    if n.Some? then NatToString(n.value) else ""
  }

  /** `tags?.join(', ') || ''` */
  function TagsText(tags: Option<seq<string>>): string {
    if tags.Some? then Join(tags.value, ", ") else ""
  }

  /** The cell of column h for buyer d. */
  function ExportCell(d: BuyerData, h: string): string {
    if h == "fullName" then d.fullName
    else if h == "email" then OrEmpty(d.email)
    else if h == "phone" then d.phone
    else if h == "city" then CityName(d.city)
    else if h == "propertyType" then PropertyTypeName(d.propertyType)
    else if h == "bhk" then (if d.bhk.Some? then BhkName(d.bhk.value) else "")
    else if h == "purpose" then PurposeName(d.purpose)
    else if h == "budgetMin" then NumberCell(d.budgetMin)
    else if h == "budgetMax" then NumberCell(d.budgetMax)
    else if h == "timeline" then TimelineName(d.timeline)
    else if h == "source" then SourceName(d.source)
    else if h == "notes" then OrEmpty(d.notes)
    else if h == "tags" then TagsText(d.tags)
    else StatusName(d.status)
  }

  /** The object generateCsvData builds for one buyer, keyed by column name. */
  function ExportRecord(d: BuyerData): (r: CsvRecord)
    ensures forall h :: h in r <==> h in Headers
  {
    map h | h in Headers :: ExportCell(d, h)
  }

  /** The objects generateCsvData hands to csv-stringify, one per buyer, in order. */
  function ExportRecords(buyers: seq<BuyerData>): (records: seq<CsvRecord>)
    ensures |records| == |buyers|
    ensures forall i :: 0 <= i < |buyers| ==> records[i] == ExportRecord(buyers[i])
  {
    seq(|buyers|, i requires 0 <= i < |buyers| => ExportRecord(buyers[i]))
  }

  /** One printed row: the buyer's cells in header order. */
  function ExportRow(d: BuyerData): (row: seq<string>)
    ensures |row| == |Headers|
    ensures forall j :: 0 <= j < |Headers| ==> row[j] == ExportRecord(d)[Headers[j]]
  {
    seq(|Headers|, j requires 0 <= j < |Headers| => ExportCell(d, Headers[j]))
  }

  /**
   * generateCsvData before printing: the header row, then one row per buyer
   * in the order given.
   */
  function GenerateCsvData(buyers: seq<BuyerData>): (table: seq<seq<string>>)
    ensures |table| == |buyers| + 1
    ensures table[0] == Headers
    ensures forall i :: 0 <= i < |buyers| ==> table[i + 1] == ExportRow(buyers[i])
  {
    [Headers] + ExportRows(buyers)
  }

  function ExportRows(buyers: seq<BuyerData>): (rows: seq<seq<string>>)
    ensures |rows| == |buyers|
    ensures forall i :: 0 <= i < |buyers| ==> rows[i] == ExportRow(buyers[i])
  {
    seq(|buyers|, i requires 0 <= i < |buyers| => ExportRow(buyers[i]))
  }
}
