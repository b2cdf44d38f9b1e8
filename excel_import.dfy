/**
 * The offline import of index.js: `excelDateToJSDate` and the row rewrite
 * that `createDB` applies to every spreadsheet row before saving it.
 */
module Import {
  import opened Common
  import opened StatSchema

  /** The serial number of 1970-01-01 in a spreadsheet's 1900 date system. */
  const UnixEpochSerial: int := 25569

  /** Milliseconds in one day: 86400 * 1000. */
  const MsPerDay: int := 86400000

  /** The largest time value magnitude a JavaScript Date can hold (8.64e15 ms). */
  const MaxTimeMs: int := 8640000000000000

  /**
   * JavaScript's numeric conversion of a cell value as `date - 25569` applies
   * it; `None` stands for NaN. Strings are not parsed (see README).
   */
  function ToNumber(cell: Option<Value>): Option<int> {
    match cell
    case None => None
    case Some(v) =>
      match v
      case Num(n) => Some(n)
      case Bool(b) => Some(if b then 1 else 0)
      case Null => Some(0)
      case Date(ms) => Some(ms)
      case InvalidDate => None
      case Str(_) => None
  }

  /**
   * `new Date(Math.round((serial - 25569) * 86400 * 1000))` for an integer
   * serial: the Date constructor gives an invalid Date once the time value
   * leaves the range of +-8.64e15 ms.
   */
  function SerialToDate(serial: int): (d: Value)
    ensures d.Date? || d.InvalidDate?
  {
    var ms := (serial - UnixEpochSerial) * MsPerDay;
    if -MaxTimeMs <= ms <= MaxTimeMs then Date(ms) else InvalidDate
  }

  /** `excelDateToJSDate(date)`: a NaN serial gives an invalid Date. */
  function ExcelDateToJSDate(date: Option<Value>): (d: Value)
    ensures d.Date? || d.InvalidDate?
    ensures ToNumber(date).None? ==> d == InvalidDate
  {
    match ToNumber(date)
    case None => InvalidDate
    case Some(serial) => SerialToDate(serial)
  }

  /** The cell a row holds under `key`, `None` when undefined. */
  function Cell(row: Doc, key: string): Option<Value> {
    if key in row then Some(row[key]) else None
  }

  /**
   * `{...stat, Day: excelDateToJSDate(stat.Day)}`: the converted `Day`,
   * and every other field exactly as it was.
   */
  function RewriteRow(row: Doc): (r: Doc)
    ensures r.Keys == row.Keys + {"Day"}
    ensures r["Day"] == ExcelDateToJSDate(Cell(row, "Day"))
    ensures r["Day"].Date? || r["Day"].InvalidDate?
    ensures forall k | k in row && k != "Day" :: r[k] == row[k]
  {
    row["Day" := ExcelDateToJSDate(Cell(row, "Day"))]
  }

  /**
   * `createDB`'s `forEach`: the documents handed, in order, to `createStat`.
   */
  method CreateDB(rows: seq<Doc>) returns (written: seq<Doc>)
    ensures |written| == |rows|
    ensures forall i | 0 <= i < |rows| :: written[i] == RewriteRow(rows[i])
  {
    written := [];
    var i := 0;
    while i < |rows|
      invariant 0 <= i <= |rows|
      invariant |written| == i
      invariant forall j | 0 <= j < i :: written[j] == RewriteRow(rows[j])
    {
      var newStat := RewriteRow(rows[i]);
      written := written + [newStat];
      i := i + 1;
    }
  }

  /** A serial converts to a valid Date exactly within 10^8 days of the epoch. */
  lemma SerialRange(serial: int)
    ensures SerialToDate(serial).Date? <==> -100000000 <= serial - UnixEpochSerial <= 100000000
  {
  }

  /** Serial 25569 is the Unix epoch. */
  lemma EpochSerial()
    ensures ExcelDateToJSDate(Some(Num(UnixEpochSerial))) == Date(0)
  {
  }

  /** The next serial is exactly one day later, and every serial lands on a midnight. */
  lemma NextSerialIsNextDay(serial: int)
    requires SerialToDate(serial).Date? && SerialToDate(serial + 1).Date?
    ensures SerialToDate(serial + 1).ms == SerialToDate(serial).ms + MsPerDay
    ensures SerialToDate(serial).ms % MsPerDay == 0
  {
  }

  /** Conversion is strictly increasing, hence one-to-one, on valid Dates. */
  lemma SerialMonotone(s: int, t: int)
    requires SerialToDate(s).Date? && SerialToDate(t).Date?
    ensures s < t <==> SerialToDate(s).ms < SerialToDate(t).ms
    ensures s == t <==> SerialToDate(s).ms == SerialToDate(t).ms
  {
  }

  /** A proleptic Gregorian calendar date. */
  datatype CivilDate = CivilDate(year: int, month: int, day: int)

  /** The calendar date of a count of days since 1970-01-01 (days-to-civil). */
  function CivilFromDays(days: int): CivilDate {
    var z := days + 719468;
    var era := z / 146097;
    var doe := z % 146097;
    var yoe := (doe - doe / 1460 + doe / 36524 - doe / 146096) / 365;
    var doy := doe - (365 * yoe + yoe / 4 - yoe / 100);
    var mp := (5 * doy + 2) / 153;
    var d := doy - (153 * mp + 2) / 5 + 1;
    var m := if mp < 10 then mp + 3 else mp - 9;
    CivilDate(yoe + era * 400 + (if m <= 2 then 1 else 0), m, d)
  }

  /** Serial 44000 is 18431 days after the epoch: 2020-06-18 at 00:00 UTC. */
  lemma Serial44000()
    ensures ExcelDateToJSDate(Some(Num(44000))) == Date(18431 * MsPerDay)
    ensures CivilFromDays(18431) == CivilDate(2020, 6, 18)
    ensures CivilFromDays(0) == CivilDate(1970, 1, 1)
  {
    assert 737899 / 146097 == 5 && 737899 % 146097 == 7414;
    assert 7414 / 1460 == 5 && 7414 / 36524 == 0 && 7414 / 146096 == 0 && 7409 / 365 == 20;
    assert 20 / 4 == 5 && 20 / 100 == 0 && 547 / 153 == 3 && 461 / 5 == 92;
    assert 719468 / 146097 == 4 && 719468 % 146097 == 135080;
    assert 135080 / 1460 == 92 && 135080 / 36524 == 3 && 135080 / 146096 == 0 && 134991 / 365 == 369;
    assert 369 / 4 == 92 && 369 / 100 == 3 && 1532 / 153 == 10 && 1532 / 5 == 306;
  }

  /**
   * A rewritten row passes the schema exactly when its `Day` serial is a
   * number in Date range and the row's other fields pass it.
   */
  lemma RewriteValidity(row: Doc)
    ensures IsValidStat(RewriteRow(row)) <==>
              (ToNumber(Cell(row, "Day")).Some? && SerialToDate(ToNumber(Cell(row, "Day")).value).Date?
               && IsValidStat(row["Day" := Date(0)]))
  {
  }
}
