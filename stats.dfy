// backend/routers/stats.py: the admin CSV upload of monthly Pinterest account
// statistics (content-type gate, header gate, a per-record loop that stages
// rows, then one commit or a rollback of the whole batch) and the monthly
// listing ordered by calendar month.
module Stats {
  import opened Results
  import opened Strings
  import opened Utils

  /** One `pinterest_account_stats_monthly` row. */
  datatype StatRow = StatRow(calendarMonth: Date, impressions: int, engagements: int, outboundClicks: int, saves: int)

  // ---------------------------------------------------------------------------
  // csv.DictReader over the rows `csv.reader` produced
  // ---------------------------------------------------------------------------

  /** A DictReader record: every header name maps to its cell, or to `None` when the row was short. */
  type Record = map<string, Option<string>>

  /** `dict(zip(names, row))` over the first `n` pairs; a repeated name keeps its later cell. */
  function ZipPrefix(names: seq<string>, row: seq<string>, n: nat): (m: Record)
    requires n <= |names| && n <= |row|
    ensures forall k | 0 <= k < n :: names[k] in m
  {
    if n == 0 then map[] else ZipPrefix(names, row, n - 1)[names[n - 1] := Some(row[n - 1])]
  }

  /** The names a short row has no cell for are set to `restval`, which is `None`. */
  function FillMissing(m: Record, names: seq<string>): (r: Record)
    ensures forall k | 0 <= k < |names| :: names[k] in r
    ensures forall key | key in m :: key in r
  {
    if names == [] then m else FillMissing(m, names[..|names| - 1])[names[|names| - 1] := None]
  }

  function MakeRecord(names: seq<string>, row: seq<string>): Record
  {
    if |row| >= |names| then ZipPrefix(names, row, |names|)
    else FillMissing(ZipPrefix(names, row, |row|), names[|row|..])
  }

  /** Every header name is a key of every record, so looking a required column up never raises `KeyError`. */
  lemma RecordHasEveryColumn(names: seq<string>, row: seq<string>, key: string)
    requires key in names
    ensures key in MakeRecord(names, row)
  {
    var k :| 0 <= k < |names| && names[k] == key;
    if |row| < |names| && k >= |row| {
      assert names[|row|..][k - |row|] == key;
    }
  }

  /** The data records: blank rows (`[]`) are skipped, the others zipped with the header. */
  function DataRecords(names: seq<string>, rows: seq<seq<string>>): (recs: seq<Record>)
    ensures |recs| <= |rows|
    ensures forall i, key | 0 <= i < |recs| && key in names :: key in recs[i]
  {
    if rows == [] then []
    else
      RecordHasEveryName(names, rows[0]);
      (if rows[0] == [] then [] else [MakeRecord(names, rows[0])]) + DataRecords(names, rows[1..])
  }

  lemma RecordHasEveryName(names: seq<string>, row: seq<string>)
    ensures forall key | key in names :: key in MakeRecord(names, row)
  {
    forall key | key in names ensures key in MakeRecord(names, row) {
      RecordHasEveryColumn(names, row, key);
    }
  }

  /**
   * The header is the first row read, even a blank one; the records follow,
   * at most one per later row.
   */
  function ReadCsv(rows: seq<seq<string>>): (csv: (Option<seq<string>>, seq<Record>))
    ensures csv.0.None? <==> rows == []
    ensures csv.0.Some? ==> csv.0.value == rows[0] && |csv.1| <= |rows| - 1
  {
    if rows == [] then (None, []) else (Some(rows[0]), DataRecords(rows[0], rows[1..]))
  }

  lemma {:induction false} DataRecordsAppend(names: seq<string>, a: seq<seq<string>>, b: seq<seq<string>>)
    ensures DataRecords(names, a + b) == DataRecords(names, a) + DataRecords(names, b)
    decreases |a|
  {
    if a != [] {
      var head := if a[0] == [] then [] else [MakeRecord(names, a[0])];
      assert (a + b)[0] == a[0] && (a + b)[1..] == a[1..] + b;
      assert DataRecords(names, a + b) == head + DataRecords(names, a[1..] + b);
      DataRecordsAppend(names, a[1..], b);
      assert head + (DataRecords(names, a[1..]) + DataRecords(names, b)) == (head + DataRecords(names, a[1..])) + DataRecords(names, b);
    } else {
      assert a + b == b;
    }
  }

  /** A blank line among the data does not shift any record, so line numbers count records rather than lines. */
  lemma BlankLinesAreSkipped(rows: seq<seq<string>>, k: nat)
    requires 1 <= k <= |rows|
    ensures ReadCsv(rows[..k] + [[]] + rows[k..]) == ReadCsv(rows)
  {
    var names := rows[0];
    var withBlank := rows[..k] + [[]] + rows[k..];
    assert withBlank[0] == names;
    assert withBlank[1..] == rows[1..k] + ([[]] + rows[k..]);
    assert rows[1..] == rows[1..k] + rows[k..];
    calc {
      DataRecords(names, withBlank[1..]);
      { DataRecordsAppend(names, rows[1..k], [[]] + rows[k..]); }
      DataRecords(names, rows[1..k]) + DataRecords(names, [[]] + rows[k..]);
      { DataRecordsAppend(names, [[]], rows[k..]);
        assert DataRecords(names, [[]]) == [] + DataRecords(names, []); }
      DataRecords(names, rows[1..k]) + DataRecords(names, rows[k..]);
      { DataRecordsAppend(names, rows[1..k], rows[k..]); }
      DataRecords(names, rows[1..]);
    }
  }

  // ---------------------------------------------------------------------------
  // One record
  // ---------------------------------------------------------------------------

  /** The `ValueError`s and `KeyError`s the upload turns into a 400 for a line. */
  datatype RowError =
    | MissingColumn(key: string)
    | BadCalendarMonth(cause: CalendarError)
    | BadIsoDate(isoCause: IsoError)
    | BadInteger(intCause: IntFieldError)

  /** A record parses, raises one of the handled errors, or raises something else (a `None` calendar_month). */
  datatype RowOutcome = RowParsed(row: StatRow) | RowRejected(error: RowError) | RowCrashed

  datatype CellOutcome<T> = CellOk(value: T) | CellRejected(error: RowError) | CellCrashed

  /** The calendar_month cell: range mode strips and accepts ranges, strict mode hands the raw text to `strptime`. */
  function CalendarCell(rec: Record, convertRange: bool, defaultYear: Option<int>): CellOutcome<Date>
  {
    if "calendar_month" !in rec then CellRejected(MissingColumn("calendar_month"))
    else
      match rec["calendar_month"]
      case None => CellCrashed
      case Some(raw) =>
        if convertRange then
          match ParseCalendarMonth(raw, defaultYear)
          case Ok(d) => CellOk(d)
          case Err(e) => CellRejected(BadCalendarMonth(e))
        else
          match StrptimeIso(raw)
          case Ok(d) => CellOk(d)
          case Err(e) => CellRejected(BadIsoDate(e))
  }

  function IntCell(rec: Record, key: string): Result<int, RowError>
  {
    if key !in rec then Err(MissingColumn(key))
    else
      match ParseIntField(rec[key], key)
      case Ok(n) => Ok(n)
      case Err(e) => Err(BadInteger(e))
  }

  /** The loop body for one record: the cells are read in the order the row is built. */
  function ParseRecord(rec: Record, convertRange: bool, defaultYear: Option<int>): RowOutcome
  {
    match CalendarCell(rec, convertRange, defaultYear)
    case CellCrashed => RowCrashed
    case CellRejected(e) => RowRejected(e)
    case CellOk(month) =>
      match IntCell(rec, "impressions")
      case Err(e) => RowRejected(e)
      case Ok(impressions) =>
        match IntCell(rec, "engagements")
        case Err(e) => RowRejected(e)
        case Ok(engagements) =>
          match IntCell(rec, "outbound_clicks")
          case Err(e) => RowRejected(e)
          case Ok(clicks) =>
            match IntCell(rec, "saves")
            case Err(e) => RowRejected(e)
            case Ok(saves) => RowParsed(StatRow(month, impressions, engagements, clicks, saves))
  }

  /** Strict mode refuses a padded ISO date that range mode, which strips first, accepts. */
  lemma StrictModeDoesNotStrip(rec: Record, d: Date, defaultYear: Option<int>)
    requires ValidDate(d.year, d.month, d.day)
    requires "calendar_month" in rec && rec["calendar_month"] == Some(" " + IsoFormat(d) + " ")
    ensures CalendarCell(rec, false, defaultYear).CellRejected?
    ensures CalendarCell(rec, true, defaultYear) == CellOk(d)
  {
    var raw := " " + IsoFormat(d) + " ";
    assert IsSpace(Python, raw[0]);
    IsoRejectsSurroundingSpace(raw);
    CalendarMonthIso(d, " ", defaultYear);
  }

  // ---------------------------------------------------------------------------
  // The batch
  // ---------------------------------------------------------------------------

  /** The outcome of the loop body for each record, in order. */
  function Outcomes(recs: seq<Record>, convertRange: bool, defaultYear: Option<int>): (outs: seq<RowOutcome>)
    ensures |outs| == |recs|
    ensures forall i | 0 <= i < |recs| :: outs[i] == ParseRecord(recs[i], convertRange, defaultYear)
  {
    seq(|recs|, i requires 0 <= i < |recs| => ParseRecord(recs[i], convertRange, defaultYear))
  }

  /** How the loop over the records ends, with the rows staged so far. */
  datatype Batch =
    | AllParsed(rows: seq<StatRow>)
    | RejectedAt(index: nat, error: RowError)
    | CrashedAt(index: nat, staged: seq<StatRow>)

  /** The records' outcomes taken in order; the first one that is not a parsed row ends the batch. */
  function ParseBatch(outs: seq<RowOutcome>): (b: Batch)
    ensures b.RejectedAt? ==> b.index < |outs| && outs[b.index] == RowRejected(b.error)
    ensures b.CrashedAt? ==> b.index < |outs| && outs[b.index].RowCrashed?
    ensures b.AllParsed? ==> |b.rows| == |outs|
    decreases |outs|
  {
    if outs == [] then AllParsed([])
    else
      match ParseBatch(outs[..|outs| - 1])
      case AllParsed(rs) =>
        (match outs[|outs| - 1]
         case RowParsed(r) => AllParsed(rs + [r])
         case RowRejected(e) => RejectedAt(|outs| - 1, e)
         case RowCrashed => CrashedAt(|outs| - 1, rs))
      case other => other
  }

  /** The batch succeeds exactly when every record parses, and then it holds one row per record, in order. */
  lemma {:induction false} ParseBatchAllParsed(outs: seq<RowOutcome>)
    ensures ParseBatch(outs).AllParsed? <==> forall i | 0 <= i < |outs| :: outs[i].RowParsed?
    ensures ParseBatch(outs).AllParsed? ==>
      |ParseBatch(outs).rows| == |outs| && forall i | 0 <= i < |outs| :: ParseBatch(outs).rows[i] == outs[i].row
    decreases |outs|
  {
    if outs != [] {
      var init := outs[..|outs| - 1];
      ParseBatchAllParsed(init);
      assert forall i | 0 <= i < |init| :: init[i] == outs[i];
    }
  }

  /** A 400 names the first record that fails, with that record's error; every earlier record parsed. */
  lemma {:induction false} ParseBatchRejected(outs: seq<RowOutcome>, k: nat, e: RowError)
    ensures ParseBatch(outs) == RejectedAt(k, e) <==>
      k < |outs| && outs[k] == RowRejected(e) && forall j | 0 <= j < k :: outs[j].RowParsed?
    decreases |outs|
  {
    if outs != [] {
      var init := outs[..|outs| - 1];
      ParseBatchRejected(init, k, e);
      ParseBatchAllParsed(init);
      assert forall i | 0 <= i < |init| :: init[i] == outs[i];
    }
  }

  /** Once a prefix of the outcomes has failed, the whole batch ends the same way. */
  lemma {:induction false} ParseBatchPrefixStops(outs: seq<RowOutcome>, n: nat)
    requires n <= |outs|
    requires !ParseBatch(outs[..n]).AllParsed?
    ensures ParseBatch(outs) == ParseBatch(outs[..n])
    decreases |outs| - n
  {
    if n < |outs| {
      assert outs[..n + 1][..n] == outs[..n];
      ParseBatchPrefixStops(outs, n + 1);
    } else {
      assert outs[..n] == outs;
    }
  }

  // ---------------------------------------------------------------------------
  // The endpoint
  // ---------------------------------------------------------------------------

  const AcceptedContentTypes: seq<string> := ["text/csv", "application/vnd.ms-excel", "application/octet-stream"]

  /** The five required columns, in the sorted order the error message lists them. */
  const RequiredColumns: seq<string> := ["calendar_month", "engagements", "impressions", "outbound_clicks", "saves"]

  const NotCsvMessage := "Please upload a CSV file."

  /** The missing-columns detail: the required columns, sorted, joined with ", ". */
  function MissingColumnsMessage(): string
  {
    "CSV must contain columns: " + Join(RequiredColumns, ", ")
  }

  /** The `detail` text of each 400; a row failure's text ends with the exception's message, which is not modelled. */
  function DetailText(d: BadRequestDetail): (t: string)
    ensures d.NotCsv? ==> t == "Please upload a CSV file."
    ensures d.MissingColumns? ==>
      t == "CSV must contain columns: "
        + "calendar_month" + ", " + "engagements" + ", " + "impressions" + ", " + "outbound_clicks" + ", " + "saves"
    ensures d.ParseFailure? ==> |t| > 26 && t[..26] == "Error parsing CSV on line "
  {
    match d
    case NotCsv => NotCsvMessage
    case MissingColumns =>
      MissingColumnsText();
      MissingColumnsMessage()
    case ParseFailure(line, _) =>
      var prefix := "Error parsing CSV on line ";
      var rest := NatToString(line) + ": ";
      assert prefix + NatToString(line) + ": " == prefix + rest;
      assert (prefix + rest)[..|prefix|] == prefix;
      prefix + rest
  }

  /** The columns appear in the message in sorted order, separated by ", ". */
  lemma MissingColumnsText()
    ensures MissingColumnsMessage() == "CSV must contain columns: "
      + "calendar_month" + ", " + "engagements" + ", " + "impressions" + ", " + "outbound_clicks" + ", " + "saves"
  {
    JoinFive("calendar_month", "engagements", "impressions", "outbound_clicks", "saves", ", ");
  }

  lemma JoinFive(a: string, b: string, c: string, d: string, e: string, sep: string)
    ensures Join([a, b, c, d, e], sep) == a + sep + b + sep + c + sep + d + sep + e
  {
    var parts := [a, b, c, d, e];
    assert parts[1..] == [b, c, d, e] && parts[2..] == [c, d, e] && parts[3..] == [d, e] && parts[4..] == [e];
    assert Join([d, e], sep) == d + sep + e;
    assert Join([c, d, e], sep) == c + sep + (d + sep + e);
    assert Join([b, c, d, e], sep) == b + sep + (c + sep + (d + sep + e));
  }

  predicate HasRequiredColumns(header: Option<seq<string>>)
  {
    forall c | c in RequiredColumns :: c in header.GetOr([])
  }

  /** The 400 details; a parse failure carries the record's line (the header is line 1). */
  datatype BadRequestDetail = NotCsv | MissingColumns | ParseFailure(line: nat, error: RowError)

  /** `{"inserted_rows": n}`, a 400, or an exception the handler does not catch (a 500). */
  datatype UploadOutcome = Inserted(count: nat) | BadRequest(detail: BadRequestDetail) | ServerError

  predicate AcceptsContentType(contentType: Option<string>)
  {
    contentType.Some? && contentType.value in AcceptedContentTypes
  }

  /** What the endpoint answers for a request. */
  function UploadResult(contentType: Option<string>, rows: seq<seq<string>>, convertRange: bool, defaultYear: Option<int>): UploadOutcome
  {
    if !AcceptsContentType(contentType) then BadRequest(NotCsv)
    else if !HasRequiredColumns(ReadCsv(rows).0) then BadRequest(MissingColumns)
    else BatchResponse(ParseBatch(Outcomes(ReadCsv(rows).1, convertRange, defaultYear)))
  }

  /** The answer once the gates are passed: the row count, the failing record's line, or a 500. */
  function BatchResponse(batch: Batch): UploadOutcome
  {
    match batch
    case AllParsed(rs) => Inserted(|rs|)
    case RejectedAt(i, e) => BadRequest(ParseFailure(i + 2, e))
    case CrashedAt(_, _) => ServerError
  }

  /** The stats table as the upload's database session sees it: rows committed before, and rows added but not yet committed. */
  class StatsDb {
    var committed: seq<StatRow>
    var staged: seq<StatRow>

    constructor (rows: seq<StatRow>)
      ensures committed == rows && staged == []
    {
      committed := rows;
      staged := [];
    }
  }

  /**
   * The loop of upload_pinterest_stats_csv: each record is parsed and its row
   * staged, counting lines from the header's 1.  It ends at the first record
   * that raises, with the line number the handler reports; rows staged before
   * it stay staged.
   */
  method StageRecords(db: StatsDb, recs: seq<Record>, convertRange: bool, defaultYear: Option<int>)
    returns (batch: Batch, inserted: nat, lineNumber: nat)
    requires db.staged == []
    modifies db
    ensures batch == ParseBatch(Outcomes(recs, convertRange, defaultYear))
    ensures db.committed == old(db.committed)
    ensures batch.AllParsed? ==> db.staged == batch.rows && inserted == |batch.rows| == |recs|
    ensures batch.RejectedAt? ==> lineNumber == batch.index + 2 && |db.staged| == batch.index
    ensures batch.CrashedAt? ==> db.staged == batch.staged
  {
    ghost var outs := Outcomes(recs, convertRange, defaultYear);
    inserted := 0;
    lineNumber := 1;
    var i := 0;
    while i < |recs|
      invariant 0 <= i <= |recs|
      invariant inserted == i == |db.staged| && lineNumber == i + 1
      invariant ParseBatch(outs[..i]) == AllParsed(db.staged)
      invariant db.committed == old(db.committed)
    {
      assert outs[..i + 1][..i] == outs[..i];
      lineNumber := lineNumber + 1;
      var outcome := ParseRecord(recs[i], convertRange, defaultYear);
      assert outcome == outs[i];
      match outcome
      case RowCrashed =>
        assert ParseBatch(outs[..i + 1]) == CrashedAt(i, db.staged);
        ParseBatchPrefixStops(outs, i + 1);
        return CrashedAt(i, db.staged), inserted, lineNumber;
      case RowRejected(e) =>
        assert ParseBatch(outs[..i + 1]) == RejectedAt(i, e);
        ParseBatchPrefixStops(outs, i + 1);
        return RejectedAt(i, e), inserted, lineNumber;
      case RowParsed(r) =>
        assert ParseBatch(outs[..i + 1]) == AllParsed(db.staged + [r]);
        db.staged := db.staged + [r];
        inserted := inserted + 1;
      i := i + 1;
    }
    assert outs[..i] == outs;
    return AllParsed(db.staged), inserted, lineNumber;
  }

  /**
   * upload_pinterest_stats_csv.  Each request has a fresh session, so nothing
   * is staged when it starts.  The only outcome that changes the committed
   * rows is success, which appends every record's row; a handled error rolls
   * the staged rows back; an unhandled exception leaves them staged for the
   * session's close to discard.
   */
  method UploadCsv(db: StatsDb, contentType: Option<string>, rows: seq<seq<string>>, convertRange: bool, defaultYear: Option<int>)
    returns (out: UploadOutcome)
    requires db.staged == []
    modifies db
    ensures out == UploadResult(contentType, rows, convertRange, defaultYear)
    ensures out.Inserted? ==> (db.staged == [] &&
      db.committed == old(db.committed) + ParseBatch(Outcomes(ReadCsv(rows).1, convertRange, defaultYear)).rows)
    ensures !out.Inserted? ==> db.committed == old(db.committed)
    ensures out.BadRequest? ==> db.staged == []
    ensures out.ServerError? ==> db.staged == ParseBatch(Outcomes(ReadCsv(rows).1, convertRange, defaultYear)).staged
  {
    if !AcceptsContentType(contentType) {
      return BadRequest(NotCsv);
    }
    var csv := ReadCsv(rows);
    if !HasRequiredColumns(csv.0) {
      return BadRequest(MissingColumns);
    }
    var batch, inserted, lineNumber := StageRecords(db, csv.1, convertRange, defaultYear);
    assert UploadResult(contentType, rows, convertRange, defaultYear) == BatchResponse(batch);
    match batch
    case AllParsed(_) =>
      db.committed := db.committed + db.staged;
      db.staged := [];
      out := Inserted(inserted);
    case RejectedAt(_, e) =>
      db.staged := [];
      out := BadRequest(ParseFailure(lineNumber, e));
    case CrashedAt(_, _) =>
      out := ServerError;
  }

  /** An accepted upload inserts exactly one row per data record, each the parse of its record. */
  lemma InsertedRowsMatchRecords(contentType: Option<string>, rows: seq<seq<string>>, convertRange: bool, defaultYear: Option<int>)
    requires UploadResult(contentType, rows, convertRange, defaultYear).Inserted?
    ensures var recs := ReadCsv(rows).1;
      var inserted := ParseBatch(Outcomes(recs, convertRange, defaultYear)).rows;
      UploadResult(contentType, rows, convertRange, defaultYear).count == |recs| == |inserted|
      && forall i | 0 <= i < |recs| :: ParseRecord(recs[i], convertRange, defaultYear) == RowParsed(inserted[i])
  {
    ParseBatchAllParsed(Outcomes(ReadCsv(rows).1, convertRange, defaultYear));
  }

  /** The first record that fails with a handled error is reported at its line: record k (from 0) is line k + 2. */
  lemma FailureReportsFirstBadLine(contentType: Option<string>, rows: seq<seq<string>>, convertRange: bool, defaultYear: Option<int>, k: nat, e: RowError)
    requires AcceptsContentType(contentType)
    requires HasRequiredColumns(ReadCsv(rows).0)
    requires var recs := ReadCsv(rows).1;
      k < |recs| && ParseRecord(recs[k], convertRange, defaultYear) == RowRejected(e)
      && forall j | 0 <= j < k :: ParseRecord(recs[j], convertRange, defaultYear).RowParsed?
    ensures UploadResult(contentType, rows, convertRange, defaultYear) == BadRequest(ParseFailure(k + 2, e))
  {
    FirstRejectedRecord(ReadCsv(rows).1, convertRange, defaultYear, k, e);
  }

  lemma FirstRejectedRecord(recs: seq<Record>, convertRange: bool, defaultYear: Option<int>, k: nat, e: RowError)
    requires k < |recs| && ParseRecord(recs[k], convertRange, defaultYear) == RowRejected(e)
    requires forall j | 0 <= j < k :: ParseRecord(recs[j], convertRange, defaultYear).RowParsed?
    ensures BatchResponse(ParseBatch(Outcomes(recs, convertRange, defaultYear))) == BadRequest(ParseFailure(k + 2, e))
  {
    RejectedBatchResponse(Outcomes(recs, convertRange, defaultYear), k, e);
  }

  lemma RejectedBatchResponse(outs: seq<RowOutcome>, k: nat, e: RowError)
    requires k < |outs| && outs[k] == RowRejected(e) && forall j | 0 <= j < k :: outs[j].RowParsed?
    ensures BatchResponse(ParseBatch(outs)) == BadRequest(ParseFailure(k + 2, e))
  {
    ParseBatchRejected(outs, k, e);
  }

  /** The gates come first: a wrong content type or a missing column is refused whatever the records hold. */
  lemma GatesComeFirst(contentType: Option<string>, rows: seq<seq<string>>, convertRange: bool, defaultYear: Option<int>)
    ensures !AcceptsContentType(contentType) ==> UploadResult(contentType, rows, convertRange, defaultYear) == BadRequest(NotCsv)
    ensures AcceptsContentType(contentType) && rows == [] ==> UploadResult(contentType, rows, convertRange, defaultYear) == BadRequest(MissingColumns)
    ensures AcceptsContentType(contentType) && |rows| > 0 && "saves" !in rows[0] ==>
      UploadResult(contentType, rows, convertRange, defaultYear) == BadRequest(MissingColumns)
  {
    assert "saves" in RequiredColumns;
  }

  // ---------------------------------------------------------------------------
  // list_pinterest_stats_monthly: ORDER BY calendar_month ASC
  // ---------------------------------------------------------------------------

  predicate SortedByMonth(s: seq<StatRow>)
  {
    forall i, j | 0 <= i < j < |s| :: DateLe(s[i].calendarMonth, s[j].calendarMonth)
  }

  /** A row no later than every row of a sorted listing can go in front of it. */
  lemma PrependSorted(x: StatRow, s: seq<StatRow>)
    requires SortedByMonth(s)
    requires forall k | 0 <= k < |s| :: DateLe(x.calendarMonth, s[k].calendarMonth)
    ensures SortedByMonth([x] + s)
  {
    forall i, j | 0 <= i < j < |[x] + s|
      ensures DateLe(([x] + s)[i].calendarMonth, ([x] + s)[j].calendarMonth)
    {
      if i > 0 {
        assert ([x] + s)[i] == s[i - 1];
      }
      assert ([x] + s)[j] == s[j - 1];
    }
  }

  function InsertByMonth(x: StatRow, s: seq<StatRow>): (r: seq<StatRow>)
    requires SortedByMonth(s)
    ensures |r| == |s| + 1
    ensures multiset(r) == multiset(s) + multiset{x}
    ensures forall k | 0 <= k < |r| :: r[k] == x || r[k] in s
    ensures SortedByMonth(r)
    decreases |s|
  {
    if s == [] then [x]
    else if DateLe(x.calendarMonth, s[0].calendarMonth) then
      PrependSorted(x, s);
      [x] + s
    else
      var rest := InsertByMonth(x, s[1..]);
      assert s == [s[0]] + s[1..];
      assert forall k | 0 <= k < |rest| :: DateLe(s[0].calendarMonth, rest[k].calendarMonth);
      PrependSorted(s[0], rest);
      [s[0]] + rest
  }

  /** The monthly listing: the same rows, ascending by calendar month. */
  function ListMonthly(rows: seq<StatRow>): (r: seq<StatRow>)
    ensures SortedByMonth(r) && multiset(r) == multiset(rows)
  {
    if rows == [] then []
    else
      assert rows == [rows[0]] + rows[1..];
      InsertByMonth(rows[0], ListMonthly(rows[1..]))
  }
}
