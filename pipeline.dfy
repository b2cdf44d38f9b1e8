/**
 * Aggregation pipeline values and a reference interpreter for the stages
 * the two query handlers of index.js build: `$match` keeps the records a
 * condition accepts, `$group` either collapses every record into one row of
 * six sums or makes one row per distinct `Day`, `$sort` orders those rows by
 * their key and `$project` turns them into the documents sent, with the key
 * renamed to `Day`. The feature name is spliced into the `$group` and
 * `$project` objects as a computed key, so the names `Day` and `_id`
 * overwrite the handler's own keys, and names MongoDB refuses as field
 * names make the whole aggregation fail.
 */
module Pipeline {
  import opened Common
  import opened StatSchema

  datatype Stage =
    | MatchAge(age: string)              // {$match: {Age: age}}
    | MatchGender(gender: string)        // {$match: {Gender: gender}}
    | MatchDay(from: int, to: int)       // {$match: {Day: {$gte: from, $lte: to}}}
    | GroupTotals                        // {$group: {_id: null, aTimeSpent: {$sum: "$A"}, ...}}
    | GroupByDay(feature: string)        // {$group: {_id: "$Day", [feature]: {$sum: "$" + feature}}}
    | SortByKey                          // {$sort: {_id: 1}}
    | ProjectDay(feature: string)        // {$project: {_id: 0, Day: "$_id", [feature]: 1}}
  {
    predicate IsMatch() {
      MatchAge? || MatchGender? || MatchDay?
    }
  }

  /** Whether a `$match` stage keeps a record; other stages keep everything. */
  predicate Accepts(m: Stage, s: Stat) {
    match m
    case MatchAge(a) => s.age == a
    case MatchGender(g) => s.gender == Some(g)
    case MatchDay(lo, hi) => lo <= s.day <= hi
    case _ => true
  }

  /** The records in order that a `$match` stage lets through. */
  function Select(m: Stage, rs: seq<Stat>): (out: seq<Stat>)
    ensures forall s :: s in out <==> s in rs && Accepts(m, s)
  {
    if rs == [] then []
    else (if Accepts(m, rs[0]) then [rs[0]] else []) + Select(m, rs[1..])
  }

  /** The group row of the total-sum query: `aTimeSpent` .. `fTimeSpent`. */
  datatype Totals = Totals(a: int, b: int, c: int, d: int, e: int, f: int)

  /** A per-day group row `{_id: day, [feature]: sum}`. */
  datatype DaySum = DaySum(day: int, sum: int)

  /** A projected trend row `{Day: day, [feature]: value}`. */
  datatype TrendPoint = TrendPoint(day: int, feature: string, value: int)

  /**
   * The documents flowing between stages. `ZeroKeyGroups(n)` is the outcome
   * of `$group: {_id: {$sum: "$_id"}}`, the group object once the feature
   * `_id` has overwritten the `_id: "$Day"` key: every record gets the key 0
   * (an ObjectId is not a number), so there are `n` <= 1 rows `{_id: 0}`.
   */
  datatype Stream =
    | Records(records: seq<Stat>)
    | TotalRows(totals: seq<Totals>)
    | DayRows(feature: string, groups: seq<DaySum>)
    | ZeroKeyGroups(count: nat)
    | Output(docs: seq<Doc>)

  /**
   * The field names MongoDB refuses for a `$group` output field: the empty
   * name (whose `$sum` path `"$"` is no field path either), a name starting
   * with `$`, and a name holding a dot or a null character.
   */
  predicate RefusedFieldName(name: string) {
    name == "" || name[0] == '$' || '.' in name || '\0' in name
  }

  /** `$sum` of `$<feature>` over some records. */
  function Sum(rs: seq<Stat>, feature: string): int {
    if rs == [] then 0 else FeatureValue(rs[0], feature) + Sum(rs[1..], feature)
  }

  /** The six sums of one `_id: null` group. */
  function TotalsOf(rs: seq<Stat>): Totals {
    Totals(Sum(rs, "A"), Sum(rs, "B"), Sum(rs, "C"), Sum(rs, "D"), Sum(rs, "E"), Sum(rs, "F"))
  }

  /** `$sum` of `$<feature>` over the records of one day. */
  function DayTotal(rs: seq<Stat>, day: int, feature: string): int {
    if rs == [] then 0
    else (if rs[0].day == day then FeatureValue(rs[0], feature) else 0) + DayTotal(rs[1..], day, feature)
  }

  /** Pairwise different days. */
  predicate Distinct(days: seq<int>) {
    forall i, j | 0 <= i < j < |days| :: days[i] != days[j]
  }

  /** The distinct days of some records, each once. */
  function Days(rs: seq<Stat>): (days: seq<int>)
    ensures Distinct(days)
    ensures forall d :: d in days <==> exists s :: s in rs && s.day == d
  {
    if rs == [] then []
    else
      var rest := Days(rs[1..]);
      assert forall s :: s in rs[1..] ==> s in rs;
      if rs[0].day in rest then rest else [rs[0].day] + rest
  }

  /** The days some records carry. */
  function RecordDays(rs: seq<Stat>): set<int> {
    set s | s in rs :: s.day
  }

  /** The keys of some group rows. */
  function KeyDays(rows: seq<DaySum>): set<int> {
    set i | 0 <= i < |rows| :: rows[i].day
  }

  /**
   * The rows of a `$group` by `Day`: one per distinct day that some record
   * carries, and each row holding the sum over that day's records.
   */
  function GroupDays(rs: seq<Stat>, feature: string): (rows: seq<DaySum>)
    ensures DistinctKeys(rows)
    ensures KeyDays(rows) == RecordDays(rs)
    ensures forall i | 0 <= i < |rows| :: rows[i].sum == DayTotal(rs, rows[i].day, feature)
    ensures |rows| == |Days(rs)|
  {
    var days := Days(rs);
    var rows := seq(|days|, i requires 0 <= i < |days| => DaySum(days[i], DayTotal(rs, days[i], feature)));
    assert KeyDays(rows) == RecordDays(rs) by {
      forall d | d in RecordDays(rs) ensures d in KeyDays(rows) {
        var s :| s in rs && s.day == d;
        assert d in days;
        var i :| 0 <= i < |days| && days[i] == d;
        assert rows[i].day == d;
      }
      forall d | d in KeyDays(rows) ensures d in RecordDays(rs) {
        var i :| 0 <= i < |rows| && rows[i].day == d;
        assert days[i] in days;
        var s :| s in rs && s.day == d;
      }
    }
    rows
  }

  /** Rows strictly ascending by key. */
  predicate Ascending(rows: seq<DaySum>) {
    forall i, j | 0 <= i < j < |rows| :: rows[i].day < rows[j].day
  }

  /** Rows with pairwise different keys. */
  predicate DistinctKeys(rows: seq<DaySum>) {
    forall i, j | 0 <= i < j < |rows| :: rows[i].day != rows[j].day
  }

  /** Insert a row before the first row whose key is not smaller. */
  function Insert(x: DaySum, rows: seq<DaySum>): (r: seq<DaySum>)
    ensures multiset(r) == multiset(rows) + multiset{x}
  {
    if rows == [] then [x]
    else if x.day <= rows[0].day then [x] + rows
    else
      assert rows == [rows[0]] + rows[1..];
      [rows[0]] + Insert(x, rows[1..])
  }

  /** `$sort: {_id: 1}` on the group rows. */
  function SortByDay(rows: seq<DaySum>): (r: seq<DaySum>)
    ensures multiset(r) == multiset(rows)
  {
    if rows == [] then []
    else
      assert rows == [rows[0]] + rows[1..];
      Insert(rows[0], SortByDay(rows[1..]))
  }

  /** Every row of an insertion is the inserted row or one of the old rows. */
  lemma InsertMembers(x: DaySum, rows: seq<DaySum>)
    ensures forall y | y in Insert(x, rows) :: y == x || y in rows
  {
    forall y | y in Insert(x, rows) ensures y == x || y in rows {
      assert y in multiset(Insert(x, rows));
    }
  }

  /** The first of some ascending rows has a smaller key than all the others. */
  lemma HeadBelowTail(rows: seq<DaySum>)
    requires rows != [] && Ascending(rows)
    ensures forall y | y in rows[1..] :: rows[0].day < y.day
  {
    forall y | y in rows[1..] ensures rows[0].day < y.day {
      var j :| 0 <= j < |rows[1..]| && rows[1..][j] == y;
      assert rows[j + 1] == y;
    }
  }

  /** A row whose key is below every key of ascending rows can go in front. */
  lemma ConsAscending(x: DaySum, rows: seq<DaySum>)
    requires Ascending(rows)
    requires forall y | y in rows :: x.day < y.day
    ensures Ascending([x] + rows)
  {
    var r := [x] + rows;
    forall i, j | 0 <= i < j < |r| ensures r[i].day < r[j].day {
      assert r[j] == rows[j - 1] && rows[j - 1] in rows;
      if i > 0 {
        assert r[i] == rows[i - 1];
      }
    }
  }

  /** Inserting a row with a new key into ascending rows keeps them ascending. */
  lemma {:induction false} InsertAscending(x: DaySum, rows: seq<DaySum>)
    requires Ascending(rows)
    requires forall y | y in rows :: y.day != x.day
    ensures Ascending(Insert(x, rows))
  {
    if rows != [] && x.day > rows[0].day {
      InsertAscending(x, rows[1..]);
      InsertMembers(x, rows[1..]);
      HeadBelowTail(rows);
      ConsAscending(rows[0], Insert(x, rows[1..]));
    } else if rows != [] {
      HeadBelowTail(rows);
      assert rows == [rows[0]] + rows[1..];
      ConsAscending(x, rows);
    }
  }

  /** Sorting keeps the rows it was given and adds none. */
  lemma SortMembers(rows: seq<DaySum>)
    ensures forall y | y in SortByDay(rows) :: y in rows
  {
    forall y | y in SortByDay(rows) ensures y in rows {
      assert y in multiset(SortByDay(rows));
    }
  }

  /** Sorting keeps the set of keys. */
  lemma SortKeys(rows: seq<DaySum>)
    ensures KeyDays(SortByDay(rows)) == KeyDays(rows)
  {
    var sorted := SortByDay(rows);
    forall d | d in KeyDays(rows) ensures d in KeyDays(sorted) {
      var i :| 0 <= i < |rows| && rows[i].day == d;
      assert rows[i] in multiset(sorted);
      var j :| 0 <= j < |sorted| && sorted[j] == rows[i];
    }
    forall d | d in KeyDays(sorted) ensures d in KeyDays(rows) {
      var j :| 0 <= j < |sorted| && sorted[j].day == d;
      assert sorted[j] in multiset(rows);
      var i :| 0 <= i < |rows| && rows[i] == sorted[j];
    }
  }

  /** Sorting rows with distinct keys leaves them strictly ascending. */
  lemma {:induction false} SortAscending(rows: seq<DaySum>)
    requires DistinctKeys(rows)
    ensures Ascending(SortByDay(rows))
  {
    if rows != [] {
      var rest := SortByDay(rows[1..]);
      assert DistinctKeys(rows[1..]) by {
        forall i, j | 0 <= i < j < |rows[1..]| ensures rows[1..][i].day != rows[1..][j].day {
          assert rows[1..][i] == rows[i + 1] && rows[1..][j] == rows[j + 1];
        }
      }
      SortAscending(rows[1..]);
      forall y | y in rest ensures y.day != rows[0].day {
        assert y in multiset(rest);
        assert y in rows[1..];
        var j :| 0 <= j < |rows[1..]| && rows[1..][j] == y;
        assert rows[j + 1] == y;
      }
      InsertAscending(rows[0], rest);
    }
  }

  /** `$project: {_id: 0, Day: "$_id", [feature]: 1}` on the group rows. */
  function Project(feature: string, rows: seq<DaySum>): seq<TrendPoint> {
    seq(|rows|, i requires 0 <= i < |rows| => TrendPoint(rows[i].day, feature, rows[i].sum))
  }

  /**
   * The document a trend row is sent as. The feature's field is written
   * after `Day`, so for the feature `Day` it replaces the date.
   */
  function TrendDoc(p: TrendPoint): Doc {
    map["Day" := Date(p.day)][p.feature := Num(p.value)]
  }

  /** The documents some trend rows are sent as, in order. */
  function Render(points: seq<TrendPoint>): seq<Doc> {
    seq(|points|, i requires 0 <= i < |points| => TrendDoc(points[i]))
  }

  /**
   * `{$project: {_id: 1, Day: "$_id"}}`, the projection once the feature
   * `_id` has overwritten its `_id: 0`, applied to a row `{_id: 0}`.
   */
  const ZeroKeyDoc: Doc := map["_id" := Num(0), "Day" := Num(0)]

  /**
   * One stage applied to the documents it receives. `None` is the store
   * rejecting the pipeline (a refused field name in `$group`); it also
   * stands for the stage and input combinations that neither query builds.
   */
  function Apply(st: Stage, input: Stream): Option<Stream> {
    match (st, input)
    case (MatchAge(_), Records(rs)) => Some(Records(Select(st, rs)))
    case (MatchGender(_), Records(rs)) => Some(Records(Select(st, rs)))
    case (MatchDay(_, _), Records(rs)) => Some(Records(Select(st, rs)))
    // an `_id: null` group over no documents yields no row at all
    case (GroupTotals, Records(rs)) => Some(TotalRows(if rs == [] then [] else [TotalsOf(rs)]))
    case (GroupByDay(feature), Records(rs)) =>
      if RefusedFieldName(feature) then None
      else if feature == "_id" then Some(ZeroKeyGroups(if rs == [] then 0 else 1))
      else Some(DayRows(feature, GroupDays(rs, feature)))
    case (SortByKey, DayRows(feature, rows)) => Some(DayRows(feature, SortByDay(rows)))
    case (SortByKey, ZeroKeyGroups(n)) => Some(ZeroKeyGroups(n))
    case (ProjectDay(feature), DayRows(grouped, rows)) =>
      if feature == grouped then Some(Output(Render(Project(feature, rows)))) else None
    case (ProjectDay(feature), ZeroKeyGroups(n)) =>
      if feature == "_id" then Some(Output(seq(n, _ => ZeroKeyDoc))) else None
    case _ => None
  }

  /** A pipeline run left to right, as `Stat.aggregate(pipeline)` runs it. */
  function Run(pipeline: seq<Stage>, input: Stream): Option<Stream> {
    if pipeline == [] then Some(input)
    else
      match Apply(pipeline[0], input)
      case None => None
      case Some(next) => Run(pipeline[1..], next)
  }

  /** Running two pipelines one after the other is running their concatenation. */
  lemma {:induction false} RunAppend(p: seq<Stage>, q: seq<Stage>, input: Stream)
    ensures Run(p + q, input) == (match Run(p, input) case None => None case Some(mid) => Run(q, mid))
  {
    if p == [] {
      assert p + q == q;
    } else {
      assert (p + q)[0] == p[0] && (p + q)[1..] == p[1..] + q;
      match Apply(p[0], input)
      case None =>
      case Some(next) => RunAppend(p[1..], q, next);
    }
  }

  /** Whether a record passes every stage of a list of `$match` stages. */
  predicate AcceptsAll(ms: seq<Stage>, s: Stat) {
    forall m <- ms :: Accepts(m, s)
  }

  /** The records in order that pass every stage of a list. */
  function SelectAll(ms: seq<Stage>, rs: seq<Stat>): seq<Stat> {
    if rs == [] then []
    else (if AcceptsAll(ms, rs[0]) then [rs[0]] else []) + SelectAll(ms, rs[1..])
  }

  /** Keeping what one match lets through, then what a list does, is one filter. */
  lemma {:induction false} SelectThenAll(m: Stage, ms: seq<Stage>, rs: seq<Stat>)
    ensures SelectAll(ms, Select(m, rs)) == SelectAll([m] + ms, rs)
  {
    if rs != [] {
      SelectThenAll(m, ms, rs[1..]);
      var head := if Accepts(m, rs[0]) then [rs[0]] else [];
      assert Select(m, rs) == head + Select(m, rs[1..]);
      if Accepts(m, rs[0]) {
        assert (head + Select(m, rs[1..]))[0] == rs[0];
        assert (head + Select(m, rs[1..]))[1..] == Select(m, rs[1..]);
      } else {
        assert head + Select(m, rs[1..]) == Select(m, rs[1..]);
      }
    }
  }

  /** A list of `$match` stages keeps, in order, the records that pass all of them. */
  lemma {:induction false} RunMatches(ms: seq<Stage>, rs: seq<Stat>)
    requires forall m <- ms :: m.IsMatch()
    ensures Run(ms, Records(rs)) == Some(Records(SelectAll(ms, rs)))
  {
    if ms == [] {
      SelectAllNone(rs);
    } else {
      assert ms == [ms[0]] + ms[1..];
      assert ms[0].IsMatch();
      assert Apply(ms[0], Records(rs)) == Some(Records(Select(ms[0], rs)));
      RunMatches(ms[1..], Select(ms[0], rs));
      SelectThenAll(ms[0], ms[1..], rs);
    }
  }

  /** With no condition, every record is kept. */
  lemma {:induction false} SelectAllNone(rs: seq<Stat>)
    ensures SelectAll([], rs) == rs
  {
    if rs != [] {
      SelectAllNone(rs[1..]);
    }
  }

  /**
   * What group by day, sort and project send for some records: the
   * pipeline is rejected for a refused name; the feature `_id` collapses
   * every record into at most one document `{_id: 0, Day: 0}`; any other
   * name gives the projected, sorted per-day rows.
   */
  function TrendTailOutput(feature: string, rs: seq<Stat>): Option<Stream> {
    if RefusedFieldName(feature) then None
    else if feature == "_id" then Some(Output(if rs == [] then [] else [ZeroKeyDoc]))
    else Some(Output(Render(Project(feature, SortByDay(GroupDays(rs, feature))))))
  }

  /** Group by day, sort and project, run by the interpreter. */
  lemma TrendTail(feature: string, rs: seq<Stat>)
    ensures Run([GroupByDay(feature), SortByKey, ProjectDay(feature)], Records(rs)) == TrendTailOutput(feature, rs)
  {
    if RefusedFieldName(feature) {
      assert Apply(GroupByDay(feature), Records(rs)) == None;
    } else if feature == "_id" {
      ZeroKeyTail(rs);
    } else {
      DayRowsTail(feature, rs);
    }
  }

  /** The tail for the feature `_id`. */
  lemma ZeroKeyTail(rs: seq<Stat>)
    ensures Run([GroupByDay("_id"), SortByKey, ProjectDay("_id")], Records(rs))
            == Some(Output(if rs == [] then [] else [ZeroKeyDoc]))
  {
    var n := if rs == [] then 0 else 1;
    var docs := seq(n, _ => ZeroKeyDoc);
    assert docs == if rs == [] then [] else [ZeroKeyDoc];
    var p := [GroupByDay("_id"), SortByKey, ProjectDay("_id")];
    assert p[1..] == [SortByKey, ProjectDay("_id")] && p[1..][1..] == [ProjectDay("_id")];
    assert Run([ProjectDay("_id")], ZeroKeyGroups(n)) == Some(Output(docs));
    assert Run(p[1..], ZeroKeyGroups(n)) == Some(Output(docs));
    assert Apply(GroupByDay("_id"), Records(rs)) == Some(ZeroKeyGroups(n));
  }

  /** The tail for an accepted feature name other than `_id`. */
  lemma DayRowsTail(feature: string, rs: seq<Stat>)
    requires !RefusedFieldName(feature) && feature != "_id"
    ensures Run([GroupByDay(feature), SortByKey, ProjectDay(feature)], Records(rs))
            == Some(Output(Render(Project(feature, SortByDay(GroupDays(rs, feature))))))
  {
    var p := [GroupByDay(feature), SortByKey, ProjectDay(feature)];
    assert p[1..] == [SortByKey, ProjectDay(feature)] && p[1..][1..] == [ProjectDay(feature)];
    var grouped := GroupDays(rs, feature);
    var sorted := SortByDay(grouped);
    var docs := Render(Project(feature, sorted));
    assert Run([ProjectDay(feature)], DayRows(feature, sorted)) == Some(Output(docs));
    assert Apply(SortByKey, DayRows(feature, grouped)) == Some(DayRows(feature, sorted));
    assert Run(p[1..], DayRows(feature, grouped)) == Some(Output(docs));
    assert Apply(GroupByDay(feature), Records(rs)) == Some(DayRows(feature, grouped));
  }
}
