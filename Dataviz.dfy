/** The dashboard page: turning the records of an uploaded batch into the views the
    charts draw, and the page state that chooses between those charts and the
    charts of the stored data. */
module Dataviz {
  import opened Wrappers
  import opened JsText
  import opened Counts
  import opened JsObject
  import opened Dates
  import opened Form
  import opened Colors
  import opened ChartJs
  import opened Charts

  // ---------------------------------------------------------------------------
  // Reading one record
  // ---------------------------------------------------------------------------

  /** A value used as an object key: a missing value becomes the key `"undefined"`. */
  function KeyText(v: Option<string>): string
  {
    v.GetOr("undefined")
  }

  /** A record whose date text was read, with the date it was read as. */
  datatype Dated = Dated(record: Record, date: CalendarDate)

  /** The date of a record as the twelve formats read it, tried in order; a record
      none of them reads is dropped. */
  function Accept(r: Record): (x: Option<Dated>)
    ensures x.Some? ==> x.value.record == r && ValidDate(x.value.date)
    ensures x.None? <==> forall j :: 0 <= j < |DateFormats| ==> Parse(r.date, DateFormats[j]).None?
  {
    FirstMatchIsFirst(r.date, DateFormats);
    match FirstMatch(r.date, DateFormats)
    case None => None
    case Some(d) => Some(Dated(r, d))
  }

  function ActivityOf(x: Dated): string { KeyText(x.record.activity) }
  function LocationOf(x: Dated): string { x.record.localAuthority }
  function InsightOf(x: Dated): string { KeyText(x.record.typeOfInsight) }
  function AgeRangeOf(x: Dated): string { KeyText(x.record.ageRange) }
  function MonthOf(x: Dated): string { MonthKey(x.date) }
  function YearOf(x: Dated): string { YearKey(x.date) }

  /** `parseInt(count, 10)` on the record's number of people. */
  function CountOf(x: Dated): Num { ParseIntNumber(x.record.numberOfPeople) }

  /** The records of a batch that are counted, in order. */
  function Kept(data: seq<Record>): (kept: seq<Dated>)
    ensures forall i :: 0 <= i < |kept| ==> ValidDate(kept[i].date)
  {
    var kept := FilterMap(data, Accept);
    assert forall i :: 0 <= i < |kept| ==> ValidDate(kept[i].date) by {
      forall i | 0 <= i < |kept| ensures ValidDate(kept[i].date) {
        FilterMapMembers(data, Accept, kept[i]);
      }
    }
    kept
  }

  lemma KeptSnoc(data: seq<Record>, r: Record)
    ensures Kept(data + [r]) == Kept(data) + (if Accept(r).Some? then [Accept(r).value] else [])
  {
    assert (data + [r])[..|data|] == data;
  }

  // ---------------------------------------------------------------------------
  // processDataForCharts
  // ---------------------------------------------------------------------------

  /** The views `processDataForCharts` builds from a batch: each counted record adds
      its number of people under its activity, local authority, type of insight, age
      range, `yyyy-MM` month and `yyyy` year, and under its local authority within
      its activity. The `date` and `postcode` views stay empty and there is no
      `gender` view. */
  function Aggregate(data: seq<Record>): (v: Views)
    ensures v.Valid() && Guard(v)
  {
    var kept := Kept(data);
    Views(activity := Some(Fold(kept, ActivityOf, CountOf)),
          location := Some(Fold(kept, LocationOf, CountOf)),
          date := Some(Empty()),
          activityByLocation := Some(NestedFold(kept, ActivityOf, LocationOf, CountOf)),
          dateByYear := Some(Fold(kept, YearOf, CountOf)),
          dateByMonth := Some(Fold(kept, MonthOf, CountOf)),
          typeOfInsight := Some(Fold(kept, InsightOf, CountOf)),
          postcode := Some(Empty()),
          ageRange := Some(Fold(kept, AgeRangeOf, CountOf)),
          gender := None)
  }

  /** The inner loop of `processDataForCharts`: the formats are tried in order and
      the first valid date stops the loop. */
  method FindDate(dateStr: string) returns (parsedDate: Option<CalendarDate>)
    ensures parsedDate == FirstMatch(dateStr, DateFormats)
  {
    parsedDate := None;
    var k := 0;
    while k < |DateFormats|
      invariant 0 <= k <= |DateFormats|
      invariant parsedDate.None?
      invariant FirstMatch(dateStr, DateFormats) == FirstMatch(dateStr, DateFormats[k..])
    {
      assert DateFormats[k..][0] == DateFormats[k] && DateFormats[k..][1..] == DateFormats[k + 1..];
      parsedDate := Parse(dateStr, DateFormats[k]);
      if parsedDate.Some? {
        break;
      }
      k := k + 1;
    }
  }

  /** `processDataForCharts`: one pass over the batch, updating every view in place. */
  method ProcessDataForCharts(data: seq<Record>) returns (chartsData: Views)
    ensures chartsData == Aggregate(data)
  {
    var activity, location, typeOfInsight, ageRange := Empty(), Empty(), Empty(), Empty();
    var dateByMonth, dateByYear := Empty(), Empty();
    var activityByLocation: Dict<Dict<Num>> := Empty();
    var i := 0;
    while i < |data|
      invariant 0 <= i <= |data|
      invariant activity == Fold(Kept(data[..i]), ActivityOf, CountOf)
      invariant location == Fold(Kept(data[..i]), LocationOf, CountOf)
      invariant typeOfInsight == Fold(Kept(data[..i]), InsightOf, CountOf)
      invariant ageRange == Fold(Kept(data[..i]), AgeRangeOf, CountOf)
      invariant dateByMonth == Fold(Kept(data[..i]), MonthOf, CountOf)
      invariant dateByYear == Fold(Kept(data[..i]), YearOf, CountOf)
      invariant activityByLocation == NestedFold(Kept(data[..i]), ActivityOf, LocationOf, CountOf)
    {
      var item := data[i];
      assert data[..i + 1] == data[..i] + [item];
      KeptSnoc(data[..i], item);
      var parsedDate := FindDate(item.date);
      if parsedDate.Some? {
        var x := Dated(item, parsedDate.value);
        assert Accept(item) == Some(x);
        var kept := Kept(data[..i]);
        var count := ParseIntNumber(item.numberOfPeople);
        var a, loc := KeyText(item.activity), item.localAuthority;
        activity := AddCount(activity, a, count);
        location := AddCount(location, loc, count);
        typeOfInsight := AddCount(typeOfInsight, KeyText(item.typeOfInsight), count);
        ageRange := AddCount(ageRange, KeyText(item.ageRange), count);
        dateByMonth := AddCount(dateByMonth, MonthKey(x.date), count);
        dateByYear := AddCount(dateByYear, YearKey(x.date), count);
        if a !in activityByLocation.vals {
          activityByLocation := Put(activityByLocation, a, Empty());
        }
        activityByLocation := Put(activityByLocation, a, AddCount(activityByLocation.vals[a], loc, count));
        FoldSnoc(kept, x, ActivityOf, CountOf);
        FoldSnoc(kept, x, LocationOf, CountOf);
        FoldSnoc(kept, x, InsightOf, CountOf);
        FoldSnoc(kept, x, AgeRangeOf, CountOf);
        FoldSnoc(kept, x, MonthOf, CountOf);
        FoldSnoc(kept, x, YearOf, CountOf);
        NestedFoldSnoc(kept, x, ActivityOf, LocationOf, CountOf);
      } else {
        assert Accept(item).None?;
      }
      i := i + 1;
    }
    assert data[..|data|] == data;
    chartsData := Views(activity := Some(activity), location := Some(location), date := Some(Empty()),
                        activityByLocation := Some(activityByLocation), dateByYear := Some(dateByYear),
                        dateByMonth := Some(dateByMonth), typeOfInsight := Some(typeOfInsight),
                        postcode := Some(Empty()), ageRange := Some(ageRange), gender := None);
  }

  // ---------------------------------------------------------------------------
  // What the views hold
  // ---------------------------------------------------------------------------

  /** A record whose date no format reads changes nothing. */
  lemma UndatedDropped(data: seq<Record>, r: Record)
    requires forall j :: 0 <= j < |DateFormats| ==> Parse(r.date, DateFormats[j]).None?
    ensures Aggregate(data + [r]) == Aggregate(data)
  {
    KeptSnoc(data, r);
  }

  /** The `date` and `postcode` views are never written, and an empty batch leaves
      every view empty. */
  lemma UnwrittenViews(data: seq<Record>)
    ensures Aggregate(data).date == Some(Empty()) && Aggregate(data).postcode == Some(Empty())
    ensures Aggregate(data).gender == None
    ensures data == [] ==>
              var v := Aggregate(data);
              v.activity == v.location == v.typeOfInsight == v.ageRange
              == v.dateByMonth == v.dateByYear == Some(Empty())
              && v.activityByLocation == Some(Empty())
  {
  }

  /** Every count of a batch is a number (no cell made `parseInt` give NaN). */
  predicate AllNumbers(data: seq<Record>)
  {
    forall i :: 0 <= i < |data| ==> data[i].numberOfPeople.Some?
  }

  lemma KeptCounted(data: seq<Record>)
    requires AllNumbers(data)
    ensures AllCounted(Kept(data), CountOf)
  {
    var kept := Kept(data);
    forall i | 0 <= i < |kept| ensures CountOf(kept[i]).Some? {
      FilterMapMembers(data, Accept, kept[i]);
    }
  }

  /** Conservation: when every count is a number, each view adds up to the number of
      people over the counted records, however they are keyed. */
  lemma AggregateTotals(data: seq<Record>)
    requires AllNumbers(data)
    ensures var v, n := Aggregate(data), CountSum(Kept(data), CountOf);
            Total(v.activity.value) == n && Total(v.location.value) == n
            && Total(v.typeOfInsight.value) == n && Total(v.ageRange.value) == n
            && Total(v.dateByMonth.value) == n && Total(v.dateByYear.value) == n
  {
    var kept := Kept(data);
    KeptCounted(data);
    FoldTotal(kept, ActivityOf, CountOf);
    FoldTotal(kept, LocationOf, CountOf);
    FoldTotal(kept, InsightOf, CountOf);
    FoldTotal(kept, AgeRangeOf, CountOf);
    FoldTotal(kept, MonthOf, CountOf);
    FoldTotal(kept, YearOf, CountOf);
  }

  /** The value under a key is the number of people of the counted records with
      that key: shown for the activity view, the others are alike. */
  lemma ActivityValue(data: seq<Record>, a: string)
    requires AllNumbers(data)
    requires a in Aggregate(data).activity.value.vals
    ensures Aggregate(data).activity.value.vals[a] == Some(CountSum(Where(Kept(data), ActivityOf, a), CountOf))
  {
    KeptCounted(data);
    FoldValue(Kept(data), ActivityOf, CountOf, a);
  }

  /** The order of the records does not matter when every count is a number: the
      same keys get the same values in every view, the nested one included (only the
      order of the keys may differ). */
  lemma AggregatePermutation(d1: seq<Record>, d2: seq<Record>)
    requires multiset(d1) == multiset(d2)
    requires AllNumbers(d1)
    ensures var v1, v2 := Aggregate(d1), Aggregate(d2);
            v1.activity.value.vals == v2.activity.value.vals
            && v1.location.value.vals == v2.location.value.vals
            && v1.typeOfInsight.value.vals == v2.typeOfInsight.value.vals
            && v1.ageRange.value.vals == v2.ageRange.value.vals
            && v1.dateByMonth.value.vals == v2.dateByMonth.value.vals
            && v1.dateByYear.value.vals == v2.dateByYear.value.vals
    ensures var n1, n2 := Aggregate(d1).activityByLocation.value, Aggregate(d2).activityByLocation.value;
            n1.vals.Keys == n2.vals.Keys
            && forall a :: a in n1.vals ==> n1.vals[a].vals == n2.vals[a].vals
  {
    var k1, k2 := Kept(d1), Kept(d2);
    FilterMapPermutation(d1, d2, Accept);
    KeptCounted(d1);
    FoldPermutation(k1, k2, ActivityOf, CountOf);
    FoldPermutation(k1, k2, LocationOf, CountOf);
    FoldPermutation(k1, k2, InsightOf, CountOf);
    FoldPermutation(k1, k2, AgeRangeOf, CountOf);
    FoldPermutation(k1, k2, MonthOf, CountOf);
    FoldPermutation(k1, k2, YearOf, CountOf);
    NestedPermutation(k1, k2, ActivityOf, LocationOf, CountOf);
  }

  /** The activity-by-location view lists the activities in the order of the activity
      view, and when every count is a number each activity's locations add up to the
      activity's value. */
  lemma ActivityByLocationTotals(data: seq<Record>)
    ensures Aggregate(data).activityByLocation.value.keys == Aggregate(data).activity.value.keys
    ensures AllNumbers(data) ==>
              forall a :: a in Aggregate(data).activityByLocation.value.vals ==>
                a in Aggregate(data).activity.value.vals
                && Some(Total(Aggregate(data).activityByLocation.value.vals[a])) == Aggregate(data).activity.value.vals[a]
  {
    var kept := Kept(data);
    NestedKeys(kept, ActivityOf, LocationOf, CountOf);
    if AllNumbers(data) {
      KeptCounted(data);
      forall a | a in Aggregate(data).activityByLocation.value.vals
        ensures a in Aggregate(data).activity.value.vals
        ensures Some(Total(Aggregate(data).activityByLocation.value.vals[a])) == Aggregate(data).activity.value.vals[a]
      {
        NestedTotal(kept, ActivityOf, LocationOf, CountOf, a);
      }
    }
  }

  /** Every month key is seven characters `yyyy-MM` whose year is a key of the year
      view. */
  lemma MonthWithinYear(data: seq<Record>)
    ensures forall m :: m in Aggregate(data).dateByMonth.value.vals ==>
              |m| == 7 && m[4] == '-' && m[..4] in Aggregate(data).dateByYear.value.vals
  {
    var kept := Kept(data);
    FoldKeys(kept, MonthOf, CountOf);
    FoldKeys(kept, YearOf, CountOf);
    forall m | m in Aggregate(data).dateByMonth.value.vals
      ensures |m| == 7 && m[4] == '-' && m[..4] in Aggregate(data).dateByYear.value.vals
    {
      var i :| 0 <= i < |kept| && MonthOf(kept[i]) == m;
      YearKeyPrefix(kept[i].date);
      assert YearOf(kept[i]) == m[..4];
    }
  }

  // ---------------------------------------------------------------------------
  // From an uploaded row to its month
  // ---------------------------------------------------------------------------

  lemma NoSlash(s: string)
    requires AllDigits(s)
    ensures '/' !in s
  {
    assert forall i :: 0 <= i < |s| ==> IsDigit(s[i]);
  }

  /** A date written `dd/MM/yyyy` in the CSV file becomes `yyyy-MM-dd` on upload. */
  lemma DayFirstToIso(d: CalendarDate)
    ensures ConvertDateToISO(Render(d, DdMmYyyy)) == Render(d, YyyyMmDd)
  {
    var dd, mm, yyyy := ZeroPad(d.day, 2), ZeroPad(d.month, 2), ZeroPad(d.year, 4);
    RenderThree(d, Day2, '/', Month2, Year);
    RenderThree(d, Year, '-', Month2, Day2);
    Regroup(dd, '/', mm, '/', yyyy);
    Regroup(yyyy, '-', mm, '-', dd);
    NoSlash(dd);
    NoSlash(mm);
    NoSlash(yyyy);
    ConvertDayFirst(dd, mm, yyyy);
  }

  /** End to end: a CSV row whose `Date` cell is a real date written `dd/MM/yyyy` is
      counted under the date it names. */
  lemma UploadedRowCounted(item: CsvRow, lookup: Option<string>, d: CalendarDate)
    requires ValidDate(d) && d.hour == 0 && d.minute == 0 && d.second == 0
    requires "Date" in item && item["Date"] == Render(d, DdMmYyyy)
    ensures TransformRow(item, lookup).Success?
    ensures Accept(TransformRow(item, lookup).value) == Some(Dated(TransformRow(item, lookup).value, d))
  {
    DayFirstToIso(d);
    IsoFallback(d);
  }

  // ---------------------------------------------------------------------------
  // The activity-by-location chart
  // ---------------------------------------------------------------------------

  lemma TwoKept(r1: Record, r2: Record)
    requires Accept(r1).Some? && Accept(r2).Some?
    ensures Kept([r1, r2]) == [Accept(r1).value, Accept(r2).value]
  {
    KeptSnoc([], r1);
    KeptSnoc([r1], r2);
    assert [r1] + [r2] == [r1, r2];
  }

  lemma TwoLocations(x1: Dated, x2: Dated)
    requires LocationOf(x1) != LocationOf(x2)
    ensures Fold([x1, x2], LocationOf, CountOf).keys == [LocationOf(x1), LocationOf(x2)]
  {
    assert [x1, x2][..1] == [x1] && [x1][..0] == [];
    assert Fold([x1], LocationOf, CountOf).keys == [LocationOf(x1)];
  }

  lemma OneActivity(x: Dated)
    ensures NestedFold([x], ActivityOf, LocationOf, CountOf)
              == Dict([ActivityOf(x)], map[ActivityOf(x) := AddCount(Empty(), LocationOf(x), CountOf(x))])
  {
    assert [x][..0] == [];
  }

  lemma TwoActivities(x1: Dated, x2: Dated)
    requires ActivityOf(x1) != ActivityOf(x2)
    ensures var d := NestedFold([x1, x2], ActivityOf, LocationOf, CountOf);
            d.keys == [ActivityOf(x1), ActivityOf(x2)]
            && d.vals[ActivityOf(x2)] == AddCount(Empty(), LocationOf(x2), CountOf(x2))
  {
    OneActivity(x1);
    assert [x1, x2][..1] == [x1];
  }

  /** The views of two records with different activities and local authorities:
      two local authorities, two activities, and the second activity counted at the
      second local authority only. */
  lemma TwoRecordViews(r1: Record, r2: Record)
    requires Accept(r1).Some? && Accept(r2).Some?
    requires KeyText(r1.activity) != KeyText(r2.activity)
    requires r1.localAuthority != r2.localAuthority
    ensures var v := Aggregate([r1, r2]);
            v.location.value.keys == [r1.localAuthority, r2.localAuthority]
            && v.activityByLocation.value.keys == [KeyText(r1.activity), KeyText(r2.activity)]
            && v.activityByLocation.value.vals[KeyText(r2.activity)]
               == Dict([r2.localAuthority], map[r2.localAuthority := r2.numberOfPeople])
  {
    var x1, x2 := Accept(r1).value, Accept(r2).value;
    TwoKept(r1, r2);
    TwoLocations(x1, x2);
    TwoActivities(x1, x2);
    assert Plus(Some(0), CountOf(x2)) == r2.numberOfPeople;
  }

  /** On such views the chart as written draws the second activity's only count
      above the first local authority, where that activity has none. */
  lemma ActivityByLocationMisaligned(byLocation: Dict<Dict<Num>>, location: Dict<Num>, draw: nat -> Draw,
                                     a1: string, a2: string, l1: string, l2: string, n: int)
    requires byLocation.Valid() && AllValid(byLocation) && location.Valid()
    requires l1 != l2 && location.keys == [l1, l2]
    requires byLocation.keys == [a1, a2] && byLocation.vals[a2] == Dict([l2], map[l2 := Some(n)])
    ensures var written := ActivityByLocationAsWritten(byLocation, location, draw);
            written.labels[0] == l1 && written.datasets[1].caption == a2
            && written.datasets[1].data == [Some(n)]
            && CountAt(byLocation.vals[a2], l1) == Some(0)
  {
    var inner := byLocation.vals[a2];
    assert Values(inner) == [Some(n)];
    var written := ActivityByLocationAsWritten(byLocation, location, draw);
    assert written.datasets[1] == StackSet(a2, Values(inner), StackColour(a2, draw(1)));
  }

  /** The aligned chart draws the same count above its own local authority, and 0
      above the other. */
  lemma ActivityByLocationRealigned(byLocation: Dict<Dict<Num>>, location: Dict<Num>, draw: nat -> Draw,
                                    a1: string, a2: string, l1: string, l2: string, n: int)
    requires byLocation.Valid() && AllValid(byLocation) && location.Valid()
    requires l1 != l2 && location.keys == [l1, l2]
    requires byLocation.keys == [a1, a2] && byLocation.vals[a2] == Dict([l2], map[l2 := Some(n)])
    ensures ActivityByLocationAligned(byLocation, location, draw).datasets[1].data == [Some(0), Some(n)]
  {
    var inner := byLocation.vals[a2];
    var data := ActivityByLocationAligned(byLocation, location, draw).datasets[1].data;
    assert |data| == 2;
    assert data[0] == CountAt(inner, l1) == Some(0);
    assert data[1] == CountAt(inner, l2) == Some(n);
  }

  // ---------------------------------------------------------------------------
  // The page
  // ---------------------------------------------------------------------------

  /** The state `parsedData` starts in: six empty views and no date views, so the
      charts show their placeholder. */
  const InitialData := Views(activity := Some(Empty()), location := Some(Empty()), date := None,
                             activityByLocation := None, dateByYear := None, dateByMonth := None,
                             typeOfInsight := Some(Empty()), postcode := Some(Empty()),
                             ageRange := Some(Empty()), gender := Some(Empty()))

  /** What the page shows below the form: the charts of the uploaded batch, or the
      charts of the stored data. */
  datatype Page = UploadedCharts(screen: Screen) | StoredData

  /** The `Dataviz` component and its two pieces of state. */
  class Dashboard {
    var parsedData: Views
    var showSupabaseData: bool

    ghost predicate Valid()
      reads this
    {
      parsedData.Valid()
    }

    constructor ()
      ensures Valid() && parsedData == InitialData && !showSupabaseData
    {
      parsedData := InitialData;
      showSupabaseData := false;
    }

    /** `handleDataParsed`: a batch with at least one record replaces the views by its
        aggregate; a missing or empty batch changes nothing. */
    method HandleDataParsed(data: Option<seq<Record>>)
      requires Valid()
      modifies this
      ensures Valid()
      ensures data.Some? && |data.value| > 0 ==> parsedData == Aggregate(data.value)
      ensures !(data.Some? && |data.value| > 0) ==> parsedData == old(parsedData)
      ensures showSupabaseData == old(showSupabaseData)
    {
      if data.Some? && |data.value| > 0 {
        var processedData := ProcessDataForCharts(data.value);
        parsedData := processedData;
      }
    }

    /** `handleContributeClicked`: after a contribution the stored data is shown. */
    method HandleContributeClicked()
      modifies this
      ensures showSupabaseData && parsedData == old(parsedData)
    {
      showSupabaseData := true;
    }

    /** `!showSupabaseData ? <Charts data={parsedData} /> : <AllData />` */
    function Shown(draws: Draws): (p: Page)
      reads this
      requires Valid()
      ensures p.StoredData? <==> showSupabaseData
      ensures p.UploadedCharts? ==> (p.screen.Panels? <==> Guard(parsedData))
    {
      if !showSupabaseData then UploadedCharts(ChartsScreen(parsedData, draws)) else StoredData
    }
  }

  /** Before any upload the charts show their placeholder; after a batch with at
      least one record they show panels, even when no record had a readable date. */
  lemma PlaceholderUntilUpload(data: seq<Record>, draws: Draws)
    ensures InitialData.Valid() && ChartsScreen(InitialData, draws) == Placeholder
    ensures ChartsScreen(Aggregate(data), draws).Panels?
  {
  }
}
