/**
 * The two aggregation queries of index.js: `aggregateFeaturesSum` behind
 * `/totalTimeSpent` and the pipeline of the `/feature-trend/:feature`
 * handler. Both start from an empty pipeline and push one `$match` per
 * present filter before their own group (and sort and project) stages.
 */
module Aggregation {
  import opened Common
  import opened StatSchema
  import opened Pipeline

  /**
   * The query filters as the handlers pass them on: `age` and `gender` as
   * strings or undefined, the two date bounds as time values or undefined.
   */
  datatype Filters = Filters(age: Option<string>, gender: Option<string>,
                             fromDate: Option<int>, toDate: Option<int>)

  /** Whether both bounds of the date range are given. */
  predicate HasDateRange(f: Filters) {
    f.fromDate.Some? && f.toDate.Some?
  }

  /** The `$match` stages the filters contribute, in push order. */
  function FilterStages(f: Filters): seq<Stage> {
    (if f.age.Some? then [MatchAge(f.age.value)] else [])
    + (if f.gender.Some? then [MatchGender(f.gender.value)] else [])
    + (if HasDateRange(f) then [MatchDay(f.fromDate.value, f.toDate.value)] else [])
  }

  /** The total-sum pipeline: the filter stages, then one `_id: null` group. */
  function TotalSumStages(f: Filters): seq<Stage> {
    FilterStages(f) + [GroupTotals]
  }

  /** The feature-trend pipeline: the filter stages, group by day, sort, project. */
  function FeatureTrendStages(feature: string, f: Filters): seq<Stage> {
    FilterStages(f) + [GroupByDay(feature), SortByKey, ProjectDay(feature)]
  }

  /** `const pipeline = []` and the conditional pushes of `aggregateFeaturesSum`. */
  method BuildTotalSumPipeline(f: Filters) returns (pipeline: seq<Stage>)
    ensures pipeline == TotalSumStages(f)
  {
    pipeline := [];
    if f.age.Some? {
      pipeline := pipeline + [MatchAge(f.age.value)];
    }
    if f.gender.Some? {
      pipeline := pipeline + [MatchGender(f.gender.value)];
    }
    if f.fromDate.Some? && f.toDate.Some? {
      pipeline := pipeline + [MatchDay(f.fromDate.value, f.toDate.value)];
    }
    pipeline := pipeline + [GroupTotals];
  }

  /** `const pipeline = []` and the pushes of the `/feature-trend/:feature` handler. */
  method BuildFeatureTrendPipeline(feature: string, f: Filters) returns (pipeline: seq<Stage>)
    ensures pipeline == FeatureTrendStages(feature, f)
  {
    pipeline := [];
    if f.age.Some? {
      pipeline := pipeline + [MatchAge(f.age.value)];
    }
    if f.gender.Some? {
      pipeline := pipeline + [MatchGender(f.gender.value)];
    }
    if f.fromDate.Some? && f.toDate.Some? {
      pipeline := pipeline + [MatchDay(f.fromDate.value, f.toDate.value)];
    }
    pipeline := pipeline + [GroupByDay(feature)];
    pipeline := pipeline + [SortByKey];
    pipeline := pipeline + [ProjectDay(feature)];
  }

  /** The position of each kind of stage in the order the handlers push them. */
  function Rank(st: Stage): nat {
    match st
    case MatchAge(_) => 0
    case MatchGender(_) => 1
    case MatchDay(_, _) => 2
    case GroupTotals => 3
    case GroupByDay(_) => 3
    case SortByKey => 4
    case ProjectDay(_) => 5
  }

  /** Strictly increasing ranks: the push order, each kind at most once. */
  predicate InStageOrder(p: seq<Stage>) {
    forall i, j | 0 <= i < j < |p| :: Rank(p[i]) < Rank(p[j])
  }

  /** The number of filters that add a stage. */
  function StageCount(f: Filters): nat {
    (if f.age.Some? then 1 else 0) + (if f.gender.Some? then 1 else 0) + (if HasDateRange(f) then 1 else 0)
  }

  /** The filter stages are match stages, in order, one per present filter. */
  lemma FilterStagesShape(f: Filters)
    ensures |FilterStages(f)| == StageCount(f)
    ensures forall st <- FilterStages(f) :: st.IsMatch()
    ensures InStageOrder(FilterStages(f))
  {
  }

  /**
   * The total-sum pipeline is one match per present filter and then exactly
   * one final group; no match follows the group; with no stage-adding
   * filter it is the group alone.
   */
  lemma TotalSumShape(f: Filters)
    ensures var p := TotalSumStages(f);
      && |p| == StageCount(f) + 1
      && p[|p| - 1] == GroupTotals
      && (forall i | 0 <= i < |p| - 1 :: p[i].IsMatch())
      && InStageOrder(p)
      && (p == [GroupTotals] <==> StageCount(f) == 0)
  {
  }

  /**
   * The feature-trend pipeline is the same match stages followed by a group
   * by `Day` on the requested feature, an ascending sort and the projection.
   */
  lemma FeatureTrendShape(feature: string, f: Filters)
    ensures var p := FeatureTrendStages(feature, f);
      && |p| == StageCount(f) + 3
      && p[|p| - 3] == GroupByDay(feature) && p[|p| - 2] == SortByKey && p[|p| - 1] == ProjectDay(feature)
      && (forall i | 0 <= i < |p| - 3 :: p[i].IsMatch())
      && InStageOrder(p)
  {
  }

  /**
   * Presence, tested `!== undefined`: a match on `Age` (or `Gender`) is in
   * the filter stages exactly when that filter is defined, whatever string
   * it holds; a date-range match is there exactly when both bounds are
   * defined, with those bounds.
   */
  lemma FilterPresence(f: Filters)
    ensures forall a :: MatchAge(a) in FilterStages(f) <==> f.age == Some(a)
    ensures forall g :: MatchGender(g) in FilterStages(f) <==> f.gender == Some(g)
    ensures forall lo, hi :: MatchDay(lo, hi) in FilterStages(f) <==> f.fromDate == Some(lo) && f.toDate == Some(hi)
    ensures (exists st <- FilterStages(f) :: st.MatchDay?) <==> HasDateRange(f)
  {
  }

  /** The filters as one conjunction: age, gender, then the inclusive range. */
  predicate MatchesAll(f: Filters, s: Stat) {
    && (f.age.Some? ==> s.age == f.age.value)
    && (f.gender.Some? ==> s.gender == Some(f.gender.value))
    && (HasDateRange(f) ==> f.fromDate.value <= s.day <= f.toDate.value)
  }

  /** The records, in stored order, that match every given filter. */
  function Selected(f: Filters, rs: seq<Stat>): (out: seq<Stat>)
    ensures forall s :: s in out <==> s in rs && MatchesAll(f, s)
  {
    if rs == [] then []
    else (if MatchesAll(f, rs[0]) then [rs[0]] else []) + Selected(f, rs[1..])
  }

  /** Passing every filter stage is matching the conjunction. */
  lemma AcceptsFilterStages(f: Filters, s: Stat)
    ensures AcceptsAll(FilterStages(f), s) <==> MatchesAll(f, s)
  {
    var ages := if f.age.Some? then [MatchAge(f.age.value)] else [];
    var genders := if f.gender.Some? then [MatchGender(f.gender.value)] else [];
    var ranges := if HasDateRange(f) then [MatchDay(f.fromDate.value, f.toDate.value)] else [];
    AcceptsAllAppend(ages, genders, s);
    AcceptsAllAppend(ages + genders, ranges, s);
    assert FilterStages(f) == ages + genders + ranges;
    if f.age.Some? {
      AcceptsAllSingle(MatchAge(f.age.value), s);
    }
    if f.gender.Some? {
      AcceptsAllSingle(MatchGender(f.gender.value), s);
    }
    if HasDateRange(f) {
      AcceptsAllSingle(MatchDay(f.fromDate.value, f.toDate.value), s);
    }
    assert AcceptsAll(ages, s) <==> (f.age.Some? ==> s.age == f.age.value);
    assert AcceptsAll(genders, s) <==> (f.gender.Some? ==> s.gender == Some(f.gender.value));
    assert AcceptsAll(ranges, s) <==> (HasDateRange(f) ==> f.fromDate.value <= s.day <= f.toDate.value);
  }

  /** Passing a one-stage list is passing that stage. */
  lemma AcceptsAllSingle(m: Stage, s: Stat)
    ensures AcceptsAll([m], s) <==> Accepts(m, s)
  {
  }

  /** Passing a concatenation of stage lists is passing both. */
  lemma AcceptsAllAppend(a: seq<Stage>, b: seq<Stage>, s: Stat)
    ensures AcceptsAll(a + b, s) <==> AcceptsAll(a, s) && AcceptsAll(b, s)
  {
  }

  /** The list filter over the filter stages is the conjunction filter. */
  lemma {:induction false} SelectAllIsSelected(f: Filters, rs: seq<Stat>)
    ensures SelectAll(FilterStages(f), rs) == Selected(f, rs)
  {
    if rs != [] {
      AcceptsFilterStages(f, rs[0]);
      SelectAllIsSelected(f, rs[1..]);
    }
  }

  /** Running the filter stages keeps exactly the matching records, in order. */
  lemma RunFilterStages(f: Filters, rs: seq<Stat>)
    ensures Run(FilterStages(f), Records(rs)) == Some(Records(Selected(f, rs)))
  {
    FilterStagesShape(f);
    RunMatches(FilterStages(f), rs);
    SelectAllIsSelected(f, rs);
  }

  /**
   * The total-sum pipeline yields one row holding the six sums over the
   * matching records, and no row at all when nothing matches.
   */
  lemma TotalSumSemantics(f: Filters, rs: seq<Stat>)
    ensures var sel := Selected(f, rs);
      Run(TotalSumStages(f), Records(rs)) == Some(TotalRows(if sel == [] then [] else [TotalsOf(sel)]))
  {
    RunAppend(FilterStages(f), [GroupTotals], Records(rs));
    RunFilterStages(f, rs);
  }

  /** The projected trend rows over some matching records. */
  function TrendOf(feature: string, sel: seq<Stat>): seq<TrendPoint> {
    Project(feature, SortByDay(GroupDays(sel, feature)))
  }

  /** The days the trend rows cover. */
  function PointDays(points: seq<TrendPoint>): set<int> {
    set i | 0 <= i < |points| :: points[i].day
  }

  /** Trend rows strictly ascending by day (so the days are distinct). */
  predicate PointsAscending(points: seq<TrendPoint>) {
    forall i, j | 0 <= i < j < |points| :: points[i].day < points[j].day
  }

  /**
   * The trend rows: strictly ascending by day, one per day that some record
   * has, each carrying the requested feature's sum over that day alone.
   */
  lemma TrendProperties(feature: string, sel: seq<Stat>)
    ensures var points := TrendOf(feature, sel);
      && PointsAscending(points)
      && (forall i | 0 <= i < |points| :: points[i].feature == feature
                                         && points[i].value == DayTotal(sel, points[i].day, feature))
      && PointDays(points) == RecordDays(sel)
  {
    var grouped := GroupDays(sel, feature);
    var sorted := SortByDay(grouped);
    var points := Project(feature, sorted);
    assert |points| == |sorted|;
    assert forall i | 0 <= i < |points| :: points[i] == TrendPoint(sorted[i].day, feature, sorted[i].sum);
    SortAscending(grouped);
    assert PointsAscending(points);
    SortMembers(grouped);
    forall i | 0 <= i < |points|
      ensures points[i].value == DayTotal(sel, points[i].day, feature)
    {
      assert sorted[i] in sorted;
    }
    SortKeys(grouped);
    assert PointDays(points) == KeyDays(sorted);
  }

  /**
   * The feature-trend pipeline is rejected for a refused feature name and
   * otherwise sends, for the matching records, what the tail of group, sort
   * and project makes of them.
   */
  lemma FeatureTrendSemantics(feature: string, f: Filters, rs: seq<Stat>)
    ensures Run(FeatureTrendStages(feature, f), Records(rs)) == TrendTailOutput(feature, Selected(f, rs))
    ensures Run(FeatureTrendStages(feature, f), Records(rs)).None? <==> RefusedFieldName(feature)
  {
    RunAppend(FilterStages(f), [GroupByDay(feature), SortByKey, ProjectDay(feature)], Records(rs));
    RunFilterStages(f, rs);
    TrendTail(feature, Selected(f, rs));
  }

  /** A feature name outside A..F adds nothing: every day sums to 0. */
  lemma {:induction false} UnknownFeatureSumsZero(rs: seq<Stat>, day: int, feature: string)
    requires feature !in FeatureNames
    ensures DayTotal(rs, day, feature) == 0
  {
    if rs != [] {
      UnknownFeatureSumsZero(rs[1..], day, feature);
    }
  }

  /** Sent documents whose `Day` is a valid Date, strictly ascending. */
  predicate DatedAscending(docs: seq<Doc>) {
    && (forall i | 0 <= i < |docs| :: "Day" in docs[i] && docs[i]["Day"].Date?)
    && (forall i, j | 0 <= i < j < |docs| :: docs[i]["Day"].ms < docs[j]["Day"].ms)
  }

  /** The dates the sent documents carry under `Day`. */
  function DocDays(docs: seq<Doc>): set<int> {
    set i | 0 <= i < |docs| && "Day" in docs[i] && docs[i]["Day"].Date? :: docs[i]["Day"].ms
  }

  /**
   * For a feature other than `Day`, the rendered trend rows: exactly the
   * fields `Day` and the feature, strictly ascending dates, one per day of
   * the matching records, each with that day's sum. They are what is sent
   * for every name MongoDB accepts other than `Day` and `_id`.
   */
  lemma SentTrendDocs(feature: string, sel: seq<Stat>)
    requires feature != "Day"
    ensures var docs := Render(TrendOf(feature, sel));
      && DatedAscending(docs)
      && DocDays(docs) == RecordDays(sel)
      && forall i | 0 <= i < |docs| :: docs[i].Keys == {"Day", feature}
                                       && docs[i][feature] == Num(DayTotal(sel, docs[i]["Day"].ms, feature))
  {
    var points := TrendOf(feature, sel);
    var docs := Render(points);
    TrendProperties(feature, sel);
    forall i | 0 <= i < |docs|
      ensures docs[i].Keys == {"Day", feature}
      ensures docs[i]["Day"] == Date(points[i].day) && docs[i][feature] == Num(points[i].value)
    {
      TrendDocFields(points[i]);
    }
    assert DatedAscending(docs);
    assert DocDays(docs) == PointDays(points);
  }

  /** A trend row of a feature other than `Day` is sent as `{Day: date, [feature]: value}`. */
  lemma TrendDocFields(p: TrendPoint)
    requires p.feature != "Day"
    ensures TrendDoc(p).Keys == {"Day", p.feature}
    ensures TrendDoc(p)["Day"] == Date(p.day) && TrendDoc(p)[p.feature] == Num(p.value)
  {
  }

  /**
   * For the feature `Day`, the field `[feature]` overwrites `Day: "$_id"`:
   * one document `{Day: 0}` per matching day, so the dates are lost.
   */
  lemma DayFeatureLosesDay(sel: seq<Stat>)
    ensures Render(TrendOf("Day", sel)) == seq(|Days(sel)|, _ => map["Day" := Num(0)])
  {
    var grouped := GroupDays(sel, "Day");
    var sorted := SortByDay(grouped);
    assert |sorted| == |Days(sel)| by {
      assert |multiset(sorted)| == |multiset(grouped)|;
    }
    DayGroupsSumZero(sel);
    SortMembers(grouped);
    var points := Project("Day", sorted);
    forall i | 0 <= i < |points| ensures TrendDoc(points[i]) == map["Day" := Num(0)] {
      assert sorted[i] in sorted;
      DayFieldOverwritten(points[i]);
    }
  }

  /** Every group row of the feature `Day` sums to 0: dates are not numbers. */
  lemma DayGroupsSumZero(sel: seq<Stat>)
    ensures forall y | y in GroupDays(sel, "Day") :: y.sum == 0
  {
    var grouped := GroupDays(sel, "Day");
    forall y | y in grouped ensures y.sum == 0 {
      var k :| 0 <= k < |grouped| && grouped[k] == y;
      UnknownFeatureSumsZero(sel, Days(sel)[k], "Day");
    }
  }

  /** A trend row of the feature `Day` is sent as `{Day: value}` alone. */
  lemma DayFieldOverwritten(p: TrendPoint)
    requires p.feature == "Day"
    ensures TrendDoc(p) == map["Day" := Num(p.value)]
  {
  }

  /**
   * The failures of the two queries: reading the first row of an empty
   * aggregation result, and the store rejecting a feature name.
   */
  datatype QueryError = EmptyResult | RejectedFieldName

  /**
   * `aggregateFeaturesSum`: build the pipeline, run it and read the six
   * totals from `result[0]`; when no record matches, `result` is empty and
   * the read fails.
   */
  method AggregateFeaturesSum(f: Filters, store: seq<Stat>) returns (r: Result<Totals, QueryError>)
    ensures r.Ok? <==> Selected(f, store) != []
    ensures r.Ok? ==> r.value == TotalsOf(Selected(f, store))
    ensures r.Err? ==> r.error == EmptyResult
  {
    var pipeline := BuildTotalSumPipeline(f);
    var out := Run(pipeline, Records(store));
    TotalSumSemantics(f, store);
    var result := out.value.totals;
    if |result| == 0 {
      return Err(EmptyResult);
    }
    r := Ok(Totals(result[0].a, result[0].b, result[0].c, result[0].d, result[0].e, result[0].f));
  }

  /**
   * The `/feature-trend/:feature` handler's query and the documents it
   * sends; a rejected aggregation sends nothing.
   */
  method FeatureTrend(feature: string, f: Filters, store: seq<Stat>) returns (r: Result<seq<Doc>, QueryError>)
    ensures r.Err? <==> RefusedFieldName(feature)
    ensures r.Err? ==> r.error == RejectedFieldName
    ensures r.Ok? && feature != "Day" && feature != "_id" ==>
              var sel := Selected(f, store);
              && DatedAscending(r.value)
              && DocDays(r.value) == RecordDays(sel)
              && forall i | 0 <= i < |r.value| :: r.value[i].Keys == {"Day", feature}
                                                  && r.value[i][feature] == Num(DayTotal(sel, r.value[i]["Day"].ms, feature))
    ensures r.Ok? && feature == "Day" ==> r.value == seq(|Days(Selected(f, store))|, _ => map["Day" := Num(0)])
    ensures r.Ok? && feature == "_id" ==> r.value == if Selected(f, store) == [] then [] else [ZeroKeyDoc]
  {
    var pipeline := BuildFeatureTrendPipeline(feature, f);
    var out := Run(pipeline, Records(store));
    FeatureTrendSemantics(feature, f, store);
    if out.None? {
      return Err(RejectedFieldName);
    }
    if feature == "Day" {
      DayFeatureLosesDay(Selected(f, store));
    } else if feature != "_id" {
      SentTrendDocs(feature, Selected(f, store));
    }
    r := Ok(out.value.docs);
  }
}
