/** The charts of all stored contributions: the rows read back from the database are
    summed by category, by month and by year, and each sum becomes chart data. */
module AllData {
  import opened Wrappers
  import opened JsText
  import opened Counts
  import opened JsObject
  import opened Dates
  import opened Colors
  import opened ChartJs
  import opened Charts

  /** A row of `main_data` as selected; `None` is `null`. */
  datatype StoredRow = StoredRow(
    activity: Option<string>,
    numberOfPeople: Option<int>,
    typeOfInsight: Option<string>,
    ageRange: Option<string>,
    date: Option<string>,
    localAuthority: Option<string>)

  /** The selected columns. */
  datatype Column = ActivityColumn | NumberOfPeopleColumn | TypeOfInsightColumn
                  | AgeRangeColumn | DateColumn | LocalAuthorityColumn

  /** `curr[field]`, with a number written as its text. */
  function Cell(row: StoredRow, field: Column): Option<string>
  {
    match field
    case ActivityColumn => row.activity
    case NumberOfPeopleColumn =>
      if row.numberOfPeople.Some? then Some(IntText(row.numberOfPeople.value)) else None
    case TypeOfInsightColumn => row.typeOfInsight
    case AgeRangeColumn => row.ageRange
    case DateColumn => row.date
    case LocalAuthorityColumn => row.localAuthority
  }

  /** A cell used as an object key: `null` becomes the key `"null"`. */
  function KeyOf(field: Column): StoredRow -> string
  {
    row => Cell(row, field).GetOr("null")
  }

  /** `parseInt(curr[sumField], 10)`: a number is read back from its text, and
      `parseInt(null)` is NaN. */
  function ValueOf(sumField: Column): StoredRow -> Num
  {
    (row: StoredRow) => if sumField == NumberOfPeopleColumn then ParseIntNumber(row.numberOfPeople)
           else ParseIntOpt(Cell(row, sumField))
  }

  /** `parseInt(curr.number_of_people, 10)` */
  const People: StoredRow -> Num := ValueOf(NumberOfPeopleColumn)

  // ---------------------------------------------------------------------------
  // aggregateData and aggregateDataBySum
  // ---------------------------------------------------------------------------

  /** What `aggregateDataBySum(data, categoryField, sumField)` returns. */
  function SummedBy(data: seq<StoredRow>, categoryField: Column, sumField: Column): Dict<Num>
  {
    Fold(data, KeyOf(categoryField), ValueOf(sumField))
  }

  /** `aggregateData`: the `reduce` over the rows, one accumulation step per row. It
      computes `aggregateDataBySum(data, field, 'number_of_people')`, so the "Local
      Authority Count" chart sums people, it does not count rows. */
  method AggregateData(data: seq<StoredRow>, field: Column) returns (acc: Dict<Num>)
    ensures acc == SummedBy(data, field, NumberOfPeopleColumn)
  {
    acc := Empty();
    var i := 0;
    while i < |data|
      invariant 0 <= i <= |data|
      invariant acc == Fold(data[..i], KeyOf(field), People)
    {
      var curr := data[i];
      var key := KeyOf(field)(curr);
      var value := People(curr);
      acc := AddCount(acc, key, value);
      FoldPrefix(data, i, KeyOf(field), People);
      i := i + 1;
    }
    assert data[..|data|] == data;
  }

  /** `aggregateDataBySum`: the same `reduce`, reading the summed column by name. */
  method AggregateDataBySum(data: seq<StoredRow>, categoryField: Column, sumField: Column)
    returns (acc: Dict<Num>)
    ensures acc == SummedBy(data, categoryField, sumField)
  {
    acc := Empty();
    var i := 0;
    while i < |data|
      invariant 0 <= i <= |data|
      invariant acc == Fold(data[..i], KeyOf(categoryField), ValueOf(sumField))
    {
      var curr := data[i];
      var key := KeyOf(categoryField)(curr);
      var value := ValueOf(sumField)(curr);
      acc := AddCount(acc, key, value);
      FoldPrefix(data, i, KeyOf(categoryField), ValueOf(sumField));
      i := i + 1;
    }
    assert data[..|data|] == data;
  }

  /** `aggregateData(data, field)` */
  function Aggregated(data: seq<StoredRow>, field: Column): Dict<Num>
  {
    SummedBy(data, field, NumberOfPeopleColumn)
  }

  /** Every count of the rows is a number. */
  predicate AllNumbers(data: seq<StoredRow>)
  {
    forall i :: 0 <= i < |data| ==> data[i].numberOfPeople.Some?
  }

  lemma PeopleCounted(data: seq<StoredRow>)
    requires AllNumbers(data)
    ensures AllCounted(data, People)
  {
    forall i | 0 <= i < |data| ensures People(data[i]).Some? {
      assert People(data[i]) == ParseIntNumber(data[i].numberOfPeople);
    }
  }

  /** Each distinct value of the column is a key, and when every count is a number
      its value is the number of people of the rows with that value. */
  lemma AggregatedMeaning(data: seq<StoredRow>, field: Column, k: string)
    ensures k in Aggregated(data, field).vals <==> exists i :: 0 <= i < |data| && KeyOf(field)(data[i]) == k
    ensures AllNumbers(data) && k in Aggregated(data, field).vals ==>
              Aggregated(data, field).vals[k] == Some(CountSum(Where(data, KeyOf(field), k), People))
  {
    FoldKeys(data, KeyOf(field), People);
    if AllNumbers(data) && k in Aggregated(data, field).vals {
      PeopleCounted(data);
      FoldValue(data, KeyOf(field), People, k);
    }
  }

  /** When every count is a number the values add up to the number of people in all
      the rows. */
  lemma AggregatedTotal(data: seq<StoredRow>, field: Column)
    requires AllNumbers(data)
    ensures Total(Aggregated(data, field)) == CountSum(data, People)
  {
    PeopleCounted(data);
    FoldTotal(data, KeyOf(field), People);
  }

  /** The result has no key exactly when there are no rows. */
  lemma FoldEmpty<T>(rows: seq<T>, key: T -> string, count: T -> Num)
    ensures Fold(rows, key, count).keys == [] <==> rows == []
  {
    FoldKeys(rows, key, count);
    if rows != [] {
      assert key(rows[0]) in Fold(rows, key, count).vals;
    }
  }

  lemma AggregatedEmpty(data: seq<StoredRow>, field: Column, sumField: Column)
    ensures Aggregated(data, field).keys == [] <==> data == []
    ensures SummedBy(data, field, sumField).keys == [] <==> data == []
  {
    FoldEmpty(data, KeyOf(field), People);
    FoldEmpty(data, KeyOf(field), ValueOf(sumField));
  }

  // ---------------------------------------------------------------------------
  // The month and year buckets
  // ---------------------------------------------------------------------------

  /** `parseISO(item.date)`; `None` is an invalid date. */
  function StoredDate(row: StoredRow): (d: Option<CalendarDate>)
    ensures d.Some? ==> ValidDate(d.value)
  {
    if row.date.Some? then ParseIso(row.date.value) else None
  }

  /** `format(date, 'MMM yyyy')` */
  function MonthLabelOf(row: StoredRow): string
  {
    match StoredDate(row)
    case Some(d) => MonthLabel(d)
    case None => ""
  }

  /** `format(date, 'yyyy')` */
  function YearKeyOf(row: StoredRow): string
  {
    match StoredDate(row)
    case Some(d) => YearKey(d)
    case None => ""
  }

  /** `format(date, 'yyyy-MM')`, the key of the corrected month buckets. */
  function MonthKeyOf(row: StoredRow): string
  {
    match StoredDate(row)
    case Some(d) => MonthKey(d)
    case None => ""
  }

  predicate AllDated(data: seq<StoredRow>)
  {
    forall i :: 0 <= i < |data| ==> StoredDate(data[i]).Some?
  }

  datatype Buckets = Buckets(monthData: Dict<Num>, yearData: Dict<Num>)

  /** `format` throws on an invalid date, so one row with a missing or malformed date
      stops the whole computation. */
  const InvalidTimeValue := "RangeError: Invalid time value"

  /** The month and year buckets as written: months keyed `MMM yyyy`. */
  function MonthsAndYears(data: seq<StoredRow>): (r: Result<Buckets>)
  {
    if AllDated(data) then Success(Buckets(Fold(data, MonthLabelOf, People), Fold(data, YearKeyOf, People)))
    else Failure(InvalidTimeValue)
  }

  /** The month and year buckets with months keyed `yyyy-MM`, whose text order is the
      order of the months. */
  function MonthsAndYearsChronological(data: seq<StoredRow>): (r: Result<Buckets>)
  {
    if AllDated(data) then Success(Buckets(Fold(data, MonthKeyOf, People), Fold(data, YearKeyOf, People)))
    else Failure(InvalidTimeValue)
  }

  lemma InvalidDateFails(data: seq<StoredRow>, i: nat)
    requires i < |data| && StoredDate(data[i]).None?
    ensures MonthsAndYears(data) == Failure(InvalidTimeValue)
  {
  }

  /** One more dated row: the prefix stays dated and its buckets grow by its count. */
  lemma BucketStep(data: seq<StoredRow>, i: nat)
    requires i < |data| && AllDated(data[..i]) && StoredDate(data[i]).Some?
    ensures AllDated(data[..i + 1])
    ensures var d, n := StoredDate(data[i]).value, People(data[i]);
            Fold(data[..i + 1], MonthLabelOf, People) == AddCount(Fold(data[..i], MonthLabelOf, People), MonthLabel(d), n)
            && Fold(data[..i + 1], YearKeyOf, People) == AddCount(Fold(data[..i], YearKeyOf, People), YearKey(d), n)
  {
    assert data[..i + 1] == data[..i] + [data[i]];
    FoldSnoc(data[..i], data[i], MonthLabelOf, People);
    FoldSnoc(data[..i], data[i], YearKeyOf, People);
  }

  /** The `forEach` loop that fills `monthData` and `yearData`. */
  method BucketByMonthAndYear(data: seq<StoredRow>) returns (r: Result<Buckets>)
    ensures r == MonthsAndYears(data)
  {
    var monthData, yearData := Empty(), Empty();
    var i := 0;
    while i < |data|
      invariant 0 <= i <= |data|
      invariant AllDated(data[..i])
      invariant monthData == Fold(data[..i], MonthLabelOf, People)
      invariant yearData == Fold(data[..i], YearKeyOf, People)
    {
      var item := data[i];
      var date := StoredDate(item);
      if date.None? {
        InvalidDateFails(data, i);
        return Failure(InvalidTimeValue);
      }
      var monthKey := MonthLabel(date.value);
      var yearKey := YearKey(date.value);
      var count := People(item);
      monthData := AddCount(monthData, monthKey, count);
      yearData := AddCount(yearData, yearKey, count);
      BucketStep(data, i);
      i := i + 1;
    }
    assert data[..|data|] == data;
    r := Success(Buckets(monthData, yearData));
  }

  /** The month buckets are exactly the months of the rows and the year buckets
      exactly their years, and when every count is a number both add up to the
      number of people in all the rows. */
  lemma BucketsHoldEveryRow(data: seq<StoredRow>)
    requires AllDated(data)
    ensures MonthsAndYears(data).Success?
    ensures var b := MonthsAndYears(data).value;
            b.monthData.vals.Keys == (set i | 0 <= i < |data| :: MonthLabelOf(data[i]))
            && b.yearData.vals.Keys == (set i | 0 <= i < |data| :: YearKeyOf(data[i]))
            && (AllNumbers(data) ==>
                  Total(b.monthData) == CountSum(data, People) && Total(b.yearData) == CountSum(data, People))
  {
    FoldKeys(data, MonthLabelOf, People);
    FoldKeys(data, YearKeyOf, People);
    if AllNumbers(data) {
      PeopleCounted(data);
      FoldTotal(data, MonthLabelOf, People);
      FoldTotal(data, YearKeyOf, People);
    }
  }

  // ---------------------------------------------------------------------------
  // Chart data
  // ---------------------------------------------------------------------------

  /** `prepareChartData`: the keys as labels, the values in key order, a random
      colour per label, and as border the colour with its trailing `0.5)` replaced
      by `1)`. */
  function PrepareChartData(aggregatedData: Dict<Num>, chartLabel: string, draw: nat -> Draw): (r: ChartData)
    requires aggregatedData.Valid()
    ensures r.labels == aggregatedData.keys
  {
    var labels := aggregatedData.keys;
    var backgroundColors := seq(|labels|, i requires 0 <= i < |labels| => RandomColor(draw(i)));
    var borderColors := seq(|labels|, i requires 0 <= i < |labels| => ReplaceHalfAlpha(backgroundColors[i]));
    ChartData(labels, [BarSet(chartLabel, Values(aggregatedData), Each(backgroundColors), Each(borderColors))])
  }

  /** `preparePieChartData` hands its arguments to `prepareChartData`. */
  function PreparePieChartData(aggregatedData: Dict<Num>, chartLabel: string, draw: nat -> Draw): (r: ChartData)
    requires aggregatedData.Valid()
    ensures r.labels == aggregatedData.keys
  {
    PrepareChartData(aggregatedData, chartLabel, draw)
  }

  /** The bar and pie charts hold one dataset: the value of each label, a random
      colour per label and, as its border, the same colour made opaque. */
  lemma PreparedBars(aggregatedData: Dict<Num>, chartLabel: string, draw: nat -> Draw)
    requires aggregatedData.Valid()
    ensures PreparePieChartData(aggregatedData, chartLabel, draw) == PrepareChartData(aggregatedData, chartLabel, draw)
    ensures var r := PrepareChartData(aggregatedData, chartLabel, draw);
            |r.datasets| == 1
            && var ds := r.datasets[0];
            ds.BarSet? && ds.caption == chartLabel && |ds.data| == |r.labels|
            && ds.background.Each? && ds.border.Each?
            && |ds.background.colours| == |r.labels| && |ds.border.colours| == |r.labels|
            && forall i :: 0 <= i < |r.labels| ==>
                 ds.data[i] == aggregatedData.vals[r.labels[i]]
                 && ds.background.colours[i] == RandomColor(draw(i))
                 && ds.border.colours[i] == Show(Rgba(draw(i).r, draw(i).g, draw(i).b, "1"))
  {
    var r := PrepareChartData(aggregatedData, chartLabel, draw);
    forall i | 0 <= i < |r.labels|
      ensures ReplaceHalfAlpha(RandomColor(draw(i))) == Show(Rgba(draw(i).r, draw(i).g, draw(i).b, "1"))
    {
      ReplaceHalfAlphaOpaque(draw(i).r, draw(i).g, draw(i).b);
    }
  }

  /** `prepareLineChartData`: the keys sorted as text, the value of each, and a fixed
      line colour. */
  function PrepareLineChartData(aggregatedData: Dict<Num>, chartLabel: string): (r: ChartData)
    requires aggregatedData.Valid()
    ensures Sorted(r.labels) && multiset(r.labels) == multiset(aggregatedData.keys)
    ensures |r.labels| == |aggregatedData.keys|
    ensures forall i :: 0 <= i < |r.labels| ==> r.labels[i] in aggregatedData.vals
    ensures r.datasets == [LineSet(chartLabel, ValuesAt(aggregatedData, r.labels), "rgb(75, 192, 192)")]
  {
    var labels := SortedLabels(aggregatedData);
    assert |multiset(labels)| == |multiset(aggregatedData.keys)|;
    ChartData(labels, [LineSet(chartLabel, ValuesAt(aggregatedData, labels), "rgb(75, 192, 192)")])
  }

  /** A key of a dictionary has a place among the sorted labels. */
  lemma LabelAt(d: Dict<Num>, labels: seq<string>, k: string) returns (p: nat)
    requires d.Valid() && multiset(labels) == multiset(d.keys) && k in d.vals
    ensures p < |labels| && labels[p] == k
  {
    assert k in multiset(d.keys);
    p :| 0 <= p < |labels| && labels[p] == k;
  }

  /** Of two keys, the one that is less as text comes first among the labels of the
      line chart. */
  lemma LineLabelsOrder(d: Dict<Num>, x: string, y: string) returns (p: nat, q: nat)
    requires d.Valid() && x in d.vals && y in d.vals && Less(x, y)
    ensures var labels := PrepareLineChartData(d, "").labels;
            p < q < |labels| && labels[p] == x && labels[q] == y
  {
    var labels := PrepareLineChartData(d, "").labels;
    p := LabelAt(d, labels, x);
    q := LabelAt(d, labels, y);
    if q <= p {
      assert Le(labels[q], labels[p]);
      LeAntisymmetric(x, y);
    }
  }

  /** As written, the line chart of the months puts February of a year before
      January of the same year, since `Feb` sorts before `Jan`. */
  lemma MonthLabelsOutOfOrder(data: seq<StoredRow>, i: nat, j: nat)
    requires AllDated(data) && i < |data| && j < |data|
    requires StoredDate(data[i]).value.month == 1 && StoredDate(data[j]).value.month == 2
    requires StoredDate(data[i]).value.year == StoredDate(data[j]).value.year
    ensures var labels := PrepareLineChartData(MonthsAndYears(data).value.monthData, "").labels;
            exists p, q :: 0 <= p < q < |labels|
                           && labels[p] == MonthLabel(StoredDate(data[j]).value)
                           && labels[q] == MonthLabel(StoredDate(data[i]).value)
  {
    var jan, feb := StoredDate(data[i]).value, StoredDate(data[j]).value;
    var monthData := Fold(data, MonthLabelOf, People);
    FoldKeys(data, MonthLabelOf, People);
    assert MonthLabelOf(data[i]) == MonthLabel(jan) && MonthLabelOf(data[j]) == MonthLabel(feb);
    MonthLabelNotChronological(jan, feb);
    var p, q := LineLabelsOrder(monthData, MonthLabel(feb), MonthLabel(jan));
  }

  /** With `yyyy-MM` month keys the line chart lists the months in calendar order:
      of two rows, the one whose month comes first in the labels is not later. */
  lemma ChronologicalMonthLabels(data: seq<StoredRow>, i: nat, j: nat, p: nat, q: nat)
    requires AllDated(data) && i < |data| && j < |data|
    requires var labels := PrepareLineChartData(MonthsAndYearsChronological(data).value.monthData, "").labels;
             p < q < |labels| && labels[p] == MonthKeyOf(data[i]) && labels[q] == MonthKeyOf(data[j])
    ensures var d, e := StoredDate(data[i]).value, StoredDate(data[j]).value;
            d.year < e.year || (d.year == e.year && d.month <= e.month)
  {
    var d, e := StoredDate(data[i]).value, StoredDate(data[j]).value;
    var labels := PrepareLineChartData(MonthsAndYearsChronological(data).value.monthData, "").labels;
    assert Le(labels[p], labels[q]);
    MonthKeyOrder(d, e);
    MonthKeyEq(d, e);
  }

  // ---------------------------------------------------------------------------
  // The component
  // ---------------------------------------------------------------------------

  /** The random draws of the charts with random colours. */
  datatype StoredDraws = StoredDraws(activity: nat -> Draw, typeOfInsight: nat -> Draw,
                                     ageRange: nat -> Draw, year: nat -> Draw,
                                     localAuthority: nat -> Draw, peopleByLocalAuthority: nat -> Draw)

  /** The charts that are shown: `chart.labels.length > 0 && (...)` around each. */
  function Visible(charts: seq<Panel>): (panels: seq<Panel>)
    ensures forall i :: 0 <= i < |panels| ==> |panels[i].chart.labels| > 0
    ensures (forall i :: 0 <= i < |charts| ==> |charts[i].chart.labels| > 0) ==> panels == charts
    ensures (forall i :: 0 <= i < |charts| ==> charts[i].chart.labels == []) ==> panels == []
  {
    if charts == [] then []
    else if |charts[0].chart.labels| > 0 then [charts[0]] + Visible(charts[1..])
    else Visible(charts[1..])
  }

  /** The dictionaries `fetchDataAndAggregate` builds from the rows before it prepares
      the charts. */
  datatype Aggregates = Aggregates(activity: Dict<Num>, typeOfInsight: Dict<Num>, ageRange: Dict<Num>,
                                   localAuthority: Dict<Num>, peopleByLocalAuthority: Dict<Num>,
                                   monthData: Dict<Num>, yearData: Dict<Num>)
  {
    /** The dictionaries in the order of the charts on the page. */
    function InPageOrder(): seq<Dict<Num>>
    {
      [activity, ageRange, typeOfInsight, monthData, yearData, localAuthority, peopleByLocalAuthority]
    }

    ghost predicate Valid()
    {
      activity.Valid() && typeOfInsight.Valid() && ageRange.Valid() && localAuthority.Valid()
      && peopleByLocalAuthority.Valid() && monthData.Valid() && yearData.Valid()
    }
  }

  /** The aggregation step of `fetchDataAndAggregate`: the four counts by category,
      the people by local authority, and the month (`MMM yyyy`) and year buckets, or
      the error a row with an unreadable date raises. */
  function AggregatesOf(data: seq<StoredRow>): (r: Result<Aggregates>)
    ensures r.Success? <==> AllDated(data)
    ensures r.Success? ==> r.value.Valid()
    ensures r.Success? ==> forall i :: 0 <= i < |r.value.InPageOrder()| ==>
                             (r.value.InPageOrder()[i].keys == [] <==> data == [])
  {
    match MonthsAndYears(data)
    case Failure(e) => Failure(e)
    case Success(b) =>
      var a := Aggregates(Aggregated(data, ActivityColumn), Aggregated(data, TypeOfInsightColumn),
                          Aggregated(data, AgeRangeColumn), Aggregated(data, LocalAuthorityColumn),
                          SummedBy(data, LocalAuthorityColumn, NumberOfPeopleColumn), b.monthData, b.yearData);
      CategoriesEmpty(data);
      FoldEmpty(data, MonthLabelOf, People);
      FoldEmpty(data, YearKeyOf, People);
      EmptyTogether(a, data == []);
      Success(a)
  }

  /** The aggregation with the corrected month buckets: the same dictionaries as
      `AggregatesOf`, except that the months are keyed `yyyy-MM`, so that the line
      chart lists them in calendar order (`ChronologicalMonthLabels`). */
  function ChronologicalAggregatesOf(data: seq<StoredRow>): (r: Result<Aggregates>)
    ensures r.Success? <==> AllDated(data)
    ensures r.Success? ==> r.value.Valid() && r.value.monthData == MonthsAndYearsChronological(data).value.monthData
    ensures r.Success? ==> r.value.(monthData := AggregatesOf(data).value.monthData) == AggregatesOf(data).value
    ensures r.Success? ==> (r.value.monthData.keys == [] <==> data == [])
  {
    match AggregatesOf(data)
    case Failure(e) => Failure(e)
    case Success(a) =>
      FoldEmpty(data, MonthKeyOf, People);
      Success(a.(monthData := Fold(data, MonthKeyOf, People)))
  }

  /** Dictionaries that are empty together, in page order. */
  lemma EmptyTogether(a: Aggregates, e: bool)
    requires a.activity.keys == [] <==> e
    requires a.ageRange.keys == [] <==> e
    requires a.typeOfInsight.keys == [] <==> e
    requires a.monthData.keys == [] <==> e
    requires a.yearData.keys == [] <==> e
    requires a.localAuthority.keys == [] <==> e
    requires a.peopleByLocalAuthority.keys == [] <==> e
    ensures forall i :: 0 <= i < |a.InPageOrder()| ==> (a.InPageOrder()[i].keys == [] <==> e)
  {
  }

  /** Every aggregate by category has a key exactly when there are rows. */
  lemma CategoriesEmpty(data: seq<StoredRow>)
    ensures Aggregated(data, ActivityColumn).keys == [] <==> data == []
    ensures Aggregated(data, AgeRangeColumn).keys == [] <==> data == []
    ensures Aggregated(data, TypeOfInsightColumn).keys == [] <==> data == []
    ensures Aggregated(data, LocalAuthorityColumn).keys == [] <==> data == []
    ensures SummedBy(data, LocalAuthorityColumn, NumberOfPeopleColumn).keys == [] <==> data == []
  {
    AggregatedEmpty(data, ActivityColumn, NumberOfPeopleColumn);
    AggregatedEmpty(data, AgeRangeColumn, NumberOfPeopleColumn);
    AggregatedEmpty(data, TypeOfInsightColumn, NumberOfPeopleColumn);
    AggregatedEmpty(data, LocalAuthorityColumn, NumberOfPeopleColumn);
  }

  /** The headings of the seven charts, in page order. */
  const ChartTitles := ["Activity Participation Share", "Age Range", "Type of Insight",
                        "Number of People per Month", "Number of People per Year",
                        "Local Authority Count", "Number of People by Local Authority"]

  /** The chart at place `i` of the page: a label per key of its dictionary. */
  function ChartAt(a: Aggregates, draws: StoredDraws, i: nat): (c: ChartData)
    requires a.Valid() && i < |a.InPageOrder()|
    ensures |c.labels| == |a.InPageOrder()[i].keys|
  {
    if i == 0 then PreparePieChartData(a.activity, "Activity Share", draws.activity)
    else if i == 1 then PrepareChartData(a.ageRange, "Number of People by Age Range", draws.ageRange)
    else if i == 2 then
      PrepareChartData(a.typeOfInsight, "Number of People by Type of Insight", draws.typeOfInsight)
    else if i == 3 then
      PrepareLineChartData(a.monthData, "Number of People per Month")
    else if i == 4 then PrepareChartData(a.yearData, "Number of People per Year", draws.year)
    else if i == 5 then PrepareChartData(a.localAuthority, "Local Authority Count", draws.localAuthority)
    else
      PrepareChartData(a.peopleByLocalAuthority, "Number of People by Local Authority",
                       draws.peopleByLocalAuthority)
  }

  /** The seven charts in page order, each under its heading, with a label per key of
      its dictionary. */
  function StoredCharts(a: Aggregates, draws: StoredDraws): (charts: seq<Panel>)
    requires a.Valid()
    ensures |charts| == |a.InPageOrder()| == |ChartTitles|
    ensures forall i :: 0 <= i < |charts| ==>
              charts[i].title == ChartTitles[i] && |charts[i].chart.labels| == |a.InPageOrder()[i].keys|
  {
    seq(|ChartTitles|, i requires 0 <= i < |ChartTitles| => Panel(ChartTitles[i], ChartAt(a, draws, i)))
  }

  /** The `AllData` component once its fetch has settled: nothing when the fetch
      failed or a date could not be formatted, nothing for no rows, and otherwise
      all seven charts. */
  function AllDataScreen(fetched: Option<seq<StoredRow>>, draws: StoredDraws): (panels: seq<Panel>)
    ensures fetched.None? ==> panels == []
    ensures fetched.Some? && !AllDated(fetched.value) ==> panels == []
    ensures fetched.Some? && fetched.value == [] ==> panels == []
    ensures fetched.Some? && AllDated(fetched.value) && fetched.value != [] ==>
              panels == StoredCharts(AggregatesOf(fetched.value).value, draws)
    ensures forall i :: 0 <= i < |panels| ==> |panels[i].chart.labels| > 0
  {
    match fetched
    case None => []
    case Some(data) =>
      match AggregatesOf(data)
      case Failure(_) => []
      case Success(a) =>
        Visible(StoredCharts(a, draws))
  }
}
