/** The charts of one uploaded batch: which charts are drawn from the aggregated
    views, and the labels, values and colours of each. */
module Charts {
  import opened Wrappers
  import opened JsText
  import opened Counts
  import opened JsObject
  import opened Colors
  import opened ChartJs

  /** The `data` object the charts receive: each view may be present or not. */
  datatype Views = Views(
    activity: Option<Dict<Num>>,
    location: Option<Dict<Num>>,
    date: Option<Dict<Num>>,
    activityByLocation: Option<Dict<Dict<Num>>>,
    dateByYear: Option<Dict<Num>>,
    dateByMonth: Option<Dict<Num>>,
    typeOfInsight: Option<Dict<Num>>,
    postcode: Option<Dict<Num>>,
    ageRange: Option<Dict<Num>>,
    gender: Option<Dict<Num>>)
  {
    ghost predicate Valid()
    {
      (activity.Some? ==> activity.value.Valid())
      && (location.Some? ==> location.value.Valid())
      && (date.Some? ==> date.value.Valid())
      && (activityByLocation.Some? ==> activityByLocation.value.Valid() && AllValid(activityByLocation.value))
      && (dateByYear.Some? ==> dateByYear.value.Valid())
      && (dateByMonth.Some? ==> dateByMonth.value.Valid())
      && (typeOfInsight.Some? ==> typeOfInsight.value.Valid())
      && (postcode.Some? ==> postcode.value.Valid())
      && (ageRange.Some? ==> ageRange.value.Valid())
      && (gender.Some? ==> gender.value.Valid())
    }

    /** `Object.keys(data).length`: how many views are present. */
    function FieldCount(): nat
    {
      (if activity.Some? then 1 else 0) + (if location.Some? then 1 else 0)
      + (if date.Some? then 1 else 0) + (if activityByLocation.Some? then 1 else 0)
      + (if dateByYear.Some? then 1 else 0) + (if dateByMonth.Some? then 1 else 0)
      + (if typeOfInsight.Some? then 1 else 0) + (if postcode.Some? then 1 else 0)
      + (if ageRange.Some? then 1 else 0) + (if gender.Some? then 1 else 0)
    }
  }

  /** The charts are drawn only when the activity, location, date and
      activity-by-location views are all present; an empty view (`{}`) counts as
      present. */
  predicate Guard(v: Views)
  {
    v.FieldCount() != 0 && v.activity.Some? && v.location.Some? && v.date.Some? && v.activityByLocation.Some?
  }

  /** `data.x && Object.keys(data.x).length > 0` */
  predicate HasData<V>(view: Option<Dict<V>>)
  {
    view.Some? && |view.value.keys| > 0
  }

  // ---------------------------------------------------------------------------
  // Colours
  // ---------------------------------------------------------------------------

  /** The fixed colours of the known activities. */
  const ActivityColors: map<string, Rgba> := map[
    "Housing" := Rgba(255, 99, 132, "0.5"),
    "Energy" := Rgba(54, 162, 235, "0.5"),
    "Transport" := Rgba(255, 206, 86, "0.5"),
    "Finance" := Rgba(75, 192, 192, "0.5")]

  const Grey := Rgba(128, 128, 128, "0.5")
  const Blue := Rgba(54, 162, 235, "0.5")

  /** `activityColors[label] || grey` */
  function ActivityRgba(name: string): (c: Rgba)
    ensures c.alpha == "0.5"
    ensures name in ActivityColors ==> c == ActivityColors[name]
    ensures name !in ActivityColors ==> c == Grey
  {
    if name in ActivityColors then ActivityColors[name] else Grey
  }

  /** The same colour with alpha 1. */
  function Opaque(c: Rgba): Rgba
  {
    c.(alpha := "1")
  }

  // ---------------------------------------------------------------------------
  // generateChartData
  // ---------------------------------------------------------------------------

  /** The background colours of `generateChartData`: the activity colour of each
      label (grey when unknown) for the activity chart, blue for every label
      otherwise. */
  function Backgrounds(labels: seq<string>, isActivityChart: bool): (bg: seq<string>)
    ensures |bg| == |labels|
    ensures forall i :: 0 <= i < |labels| ==>
              bg[i] == Show(if isActivityChart then ActivityRgba(labels[i]) else Blue)
  {
    if isActivityChart then seq(|labels|, i requires 0 <= i < |labels| => Show(ActivityRgba(labels[i])))
    else seq(|labels|, i => Show(Blue))
  }

  /** `backgroundColors.map(...)` with the `rgba(...)` pattern. */
  function Borders(bg: seq<string>): (border: seq<string>)
    ensures |border| == |bg|
    ensures forall i :: 0 <= i < |bg| ==> border[i] == Border(bg[i])
  {
    seq(|bg|, i requires 0 <= i < |bg| => Border(bg[i]))
  }

  /** `generateChartData(labels, datasetLabel, dataPoints, isActivityChart)`: the
      labels and values as given, one background colour per label, and as border
      the same colour made opaque. */
  function GenerateChartData(labels: seq<string>, datasetLabel: string, dataPoints: seq<Num>,
                             isActivityChart: bool): (r: ChartData)
    ensures r.labels == labels && |r.datasets| == 1
    ensures var ds := r.datasets[0];
            ds.BarSet? && ds.caption == datasetLabel && ds.data == dataPoints
            && ds.background.Each? && ds.border.Each?
            && |ds.background.colours| == |labels| && |ds.border.colours| == |labels|
            && forall i :: 0 <= i < |labels| ==>
                 var c := if isActivityChart then ActivityRgba(labels[i]) else Blue;
                 ds.background.colours[i] == Show(c) && ds.border.colours[i] == Show(Opaque(c))
  {
    var bg := Backgrounds(labels, isActivityChart);
    var border := Borders(bg);
    assert forall i :: 0 <= i < |labels| ==>
             var c := if isActivityChart then ActivityRgba(labels[i]) else Blue;
             border[i] == Show(Opaque(c)) by {
      forall i | 0 <= i < |labels|
        ensures var c := if isActivityChart then ActivityRgba(labels[i]) else Blue;
                border[i] == Show(Opaque(c))
      {
        var c := if isActivityChart then ActivityRgba(labels[i]) else Blue;
        BorderOfHalfAlpha(c.r, c.g, c.b);
      }
    }
    ChartData(labels, [BarSet(datasetLabel, dataPoints, Each(bg), Each(border))])
  }

  // ---------------------------------------------------------------------------
  // Sorted series
  // ---------------------------------------------------------------------------

  /** `Object.keys(view).sort()` and the value of each label, in that order. */
  function SortedLabels(view: Dict<Num>): (labels: seq<string>)
    requires view.Valid()
    ensures Sorted(labels) && multiset(labels) == multiset(view.keys)
    ensures forall i :: 0 <= i < |labels| ==> labels[i] in view.vals
  {
    var labels := Sort(view.keys);
    assert forall i :: 0 <= i < |labels| ==> labels[i] in view.vals by {
      forall i | 0 <= i < |labels| ensures labels[i] in view.vals {
        assert labels[i] in multiset(view.keys);
      }
    }
    labels
  }

  /** `labels.map(label => view[label])` */
  function ValuesAt(view: Dict<Num>, labels: seq<string>): (data: seq<Num>)
    requires forall i :: 0 <= i < |labels| ==> labels[i] in view.vals
    ensures |data| == |labels| && forall i :: 0 <= i < |labels| ==> data[i] == view.vals[labels[i]]
  {
    seq(|labels|, i requires 0 <= i < |labels| => view.vals[labels[i]])
  }

  /** A bar chart of one view with its labels sorted and a fixed colour. */
  function SortedBars(view: Dict<Num>, datasetLabel: string, colour: Rgba): (r: ChartData)
    requires view.Valid()
    ensures Sorted(r.labels) && multiset(r.labels) == multiset(view.keys)
    ensures forall i :: 0 <= i < |r.labels| ==> r.labels[i] in view.vals
    ensures r.datasets == [BarSet(datasetLabel, ValuesAt(view, r.labels), One(Show(colour)), One(Show(Opaque(colour))))]
  {
    var labels := SortedLabels(view);
    ChartData(labels, [BarSet(datasetLabel, ValuesAt(view, labels), One(Show(colour)), One(Show(Opaque(colour))))])
  }

  const Teal := Rgba(75, 192, 192, "0.5")
  const Purple := Rgba(153, 102, 255, "0.5")

  /** `generateChartDataForDate`: blue bars. */
  function GenerateChartDataForDate(date: Dict<Num>): (r: ChartData)
    requires date.Valid()
    ensures Sorted(r.labels) && multiset(r.labels) == multiset(date.keys)
    ensures forall i :: 0 <= i < |r.labels| ==> r.labels[i] in date.vals
    ensures r.datasets == [BarSet("Number of People by Month", ValuesAt(date, r.labels),
                                  One(Show(Blue)), One(Show(Opaque(Blue))))]
  {
    SortedBars(date, "Number of People by Month", Blue)
  }

  /** `generateChartDataForDateByMonth`: teal bars. */
  function GenerateChartDataForDateByMonth(dateByMonth: Dict<Num>): (r: ChartData)
    requires dateByMonth.Valid()
    ensures Sorted(r.labels) && multiset(r.labels) == multiset(dateByMonth.keys)
    ensures forall i :: 0 <= i < |r.labels| ==> r.labels[i] in dateByMonth.vals
    ensures r.datasets == [BarSet("Number of People by Month", ValuesAt(dateByMonth, r.labels),
                                  One(Show(Teal)), One(Show(Opaque(Teal))))]
  {
    SortedBars(dateByMonth, "Number of People by Month", Teal)
  }

  /** `generateChartDataForDateByYear`: purple bars. */
  function GenerateChartDataForDateByYear(dateByYear: Dict<Num>): (r: ChartData)
    requires dateByYear.Valid()
    ensures Sorted(r.labels) && multiset(r.labels) == multiset(dateByYear.keys)
    ensures forall i :: 0 <= i < |r.labels| ==> r.labels[i] in dateByYear.vals
    ensures r.datasets == [BarSet("Number of People by Year", ValuesAt(dateByYear, r.labels),
                                  One(Show(Purple)), One(Show(Opaque(Purple))))]
  {
    SortedBars(dateByYear, "Number of People by Year", Purple)
  }

  /** A bar chart of one view with its labels sorted, a random colour per label and
      its border from the trailing-`0.5)` replacement. */
  function RandomBars(view: Dict<Num>, datasetLabel: string, draw: nat -> Draw): (r: ChartData)
    requires view.Valid()
    ensures Sorted(r.labels) && multiset(r.labels) == multiset(view.keys)
    ensures forall i :: 0 <= i < |r.labels| ==> r.labels[i] in view.vals
    ensures |r.datasets| == 1
    ensures var ds := r.datasets[0];
            ds.BarSet? && ds.caption == datasetLabel && ds.data == ValuesAt(view, r.labels)
            && ds.background.Each? && ds.border.Each?
            && |ds.background.colours| == |r.labels| && |ds.border.colours| == |r.labels|
            && forall i :: 0 <= i < |r.labels| ==>
                 var d := draw(i);
                 ds.background.colours[i] == Show(Rgba(d.r, d.g, d.b, "0.5"))
                 && ds.border.colours[i] == Show(Rgba(d.r, d.g, d.b, "1"))
  {
    var labels := SortedLabels(view);
    var bg := seq(|labels|, i requires 0 <= i < |labels| => RandomColor(draw(i)));
    var border := seq(|labels|, i requires 0 <= i < |labels| => ReplaceHalfAlpha(bg[i]));
    assert forall i :: 0 <= i < |labels| ==> border[i] == Show(Rgba(draw(i).r, draw(i).g, draw(i).b, "1")) by {
      forall i | 0 <= i < |labels| ensures border[i] == Show(Rgba(draw(i).r, draw(i).g, draw(i).b, "1")) {
        ReplaceHalfAlphaOpaque(draw(i).r, draw(i).g, draw(i).b);
      }
    }
    ChartData(labels, [BarSet(datasetLabel, ValuesAt(view, labels), Each(bg), Each(border))])
  }

  /** `generateChartDataForTypeOfInsight` */
  function GenerateChartDataForTypeOfInsight(typeOfInsight: Dict<Num>, draw: nat -> Draw): (r: ChartData)
    requires typeOfInsight.Valid()
    ensures Sorted(r.labels) && multiset(r.labels) == multiset(typeOfInsight.keys)
    ensures forall i :: 0 <= i < |r.labels| ==> r.labels[i] in typeOfInsight.vals
    ensures |r.datasets| == 1 && r.datasets[0].BarSet? && r.datasets[0].caption == "Type of Insight"
            && r.datasets[0].data == ValuesAt(typeOfInsight, r.labels)
  {
    RandomBars(typeOfInsight, "Type of Insight", draw)
  }

  /** `generateChartDataForAgeRange` */
  function GenerateChartDataForAgeRange(ageRange: Dict<Num>, draw: nat -> Draw): (r: ChartData)
    requires ageRange.Valid()
    ensures Sorted(r.labels) && multiset(r.labels) == multiset(ageRange.keys)
    ensures forall i :: 0 <= i < |r.labels| ==> r.labels[i] in ageRange.vals
    ensures |r.datasets| == 1 && r.datasets[0].BarSet? && r.datasets[0].caption == "Age Range"
            && r.datasets[0].data == ValuesAt(ageRange, r.labels)
  {
    RandomBars(ageRange, "Age Range", draw)
  }

  // ---------------------------------------------------------------------------
  // Activity by location
  // ---------------------------------------------------------------------------

  /** `activityColors[activity] || generateRandomColor()` */
  function StackColour(activity: string, d: Draw): (c: string)
    ensures activity in ActivityColors ==> c == Show(ActivityColors[activity])
    ensures activity !in ActivityColors ==> c == Show(Rgba(d.r, d.g, d.b, "0.5"))
  {
    if activity in ActivityColors then Show(ActivityColors[activity]) else RandomColor(d)
  }

  /** `generateChartDataForActivityByLocation` as written: one stack per activity,
      whose values are the activity's own location counts in the order its
      locations first appeared, while the x labels are the keys of the location
      view. */
  function ActivityByLocationAsWritten(activityByLocation: Dict<Dict<Num>>, location: Dict<Num>,
                                       draw: nat -> Draw): (r: ChartData)
    requires activityByLocation.Valid() && AllValid(activityByLocation) && location.Valid()
    ensures r.labels == location.keys && |r.datasets| == |activityByLocation.keys|
    ensures forall i :: 0 <= i < |r.datasets| ==>
              var a := activityByLocation.keys[i];
              r.datasets[i] == StackSet(a, Values(activityByLocation.vals[a]), StackColour(a, draw(i)))
  {
    var keys := activityByLocation.keys;
    ChartData(location.keys,
      seq(|keys|, i requires 0 <= i < |keys| =>
        StackSet(keys[i], Values(activityByLocation.vals[keys[i]]), StackColour(keys[i], draw(i)))))
  }

  /** The count of one activity at one location, 0 where it has none. */
  function CountAt(inner: Dict<Num>, loc: string): Num
  {
    if loc in inner.vals then inner.vals[loc] else Some(0)
  }

  /** The chart as evidently intended: each stack has one value per x label, the
      activity's count at that location. */
  function ActivityByLocationAligned(activityByLocation: Dict<Dict<Num>>, location: Dict<Num>,
                                     draw: nat -> Draw): (r: ChartData)
    requires activityByLocation.Valid() && AllValid(activityByLocation) && location.Valid()
    ensures r.labels == location.keys && |r.datasets| == |activityByLocation.keys|
    ensures forall i :: 0 <= i < |r.datasets| ==>
              var a := activityByLocation.keys[i];
              r.datasets[i].StackSet? && r.datasets[i].caption == a
              && |r.datasets[i].data| == |r.labels|
              && forall j :: 0 <= j < |r.labels| ==>
                   r.datasets[i].data[j] == CountAt(activityByLocation.vals[a], r.labels[j])
  {
    var keys := activityByLocation.keys;
    var locs := location.keys;
    ChartData(locs,
      seq(|keys|, i requires 0 <= i < |keys| =>
        StackSet(keys[i], seq(|locs|, j requires 0 <= j < |locs| => CountAt(activityByLocation.vals[keys[i]], locs[j])),
                 StackColour(keys[i], draw(i)))))
  }

  // ---------------------------------------------------------------------------
  // The pie chart and the whole screen
  // ---------------------------------------------------------------------------

  /** `activities.map(activity => activityColors[activity] || generateRandomColor())`:
      one colour per activity, the i-th drawn at position i. */
  function PieColours(activities: seq<string>, draw: nat -> Draw): (cs: seq<string>)
    ensures |cs| == |activities|
    ensures forall i :: 0 <= i < |activities| ==> cs[i] == StackColour(activities[i], draw(i))
  {
    seq(|activities|, i requires 0 <= i < |activities| => StackColour(activities[i], draw(i)))
  }

  /** `generatePieChartData`, without its percentages: the activities as labels
      and one pie dataset with a slice colour per activity, the activity's own
      colour when it is a known one and the i-th random colour otherwise. */
  function GeneratePieChartData(activity: Dict<Num>, draw: nat -> Draw): (r: ChartData)
    ensures r.labels == activity.keys
    ensures |r.datasets| == 1 && r.datasets[0].PieSet?
    ensures |r.datasets[0].sliceColours| == |activity.keys|
    ensures forall i :: 0 <= i < |activity.keys| && activity.keys[i] in ActivityColors ==>
              r.datasets[0].sliceColours[i] == Show(ActivityColors[activity.keys[i]])
    ensures forall i :: 0 <= i < |activity.keys| && activity.keys[i] !in ActivityColors ==>
              r.datasets[0].sliceColours[i] == Show(Rgba(draw(i).r, draw(i).g, draw(i).b, "0.5"))
  {
    var cs := PieColours(activity.keys, draw);
    assert forall i :: 0 <= i < |activity.keys| ==> cs[i] == StackColour(activity.keys[i], draw(i));
    ChartData(activity.keys, [PieSet(cs)])
  }

  /** The pie chart and the activity chart (`generateChartData(data.activity, ...,
      true)`) label the same keys. A slice has its bar's colour exactly when the
      activity is a known one, or when its random colour happens to be grey. */
  lemma PieMatchesActivityBars(activity: Dict<Num>, draw: nat -> Draw, i: nat)
    requires i < |activity.keys|
    ensures var pie := GeneratePieChartData(activity, draw).datasets[0].sliceColours;
            var bars := Backgrounds(activity.keys, true);
            pie[i] == bars[i] <==> activity.keys[i] in ActivityColors || draw(i) == Draw(128, 128, 128)
  {
    var d := draw(i);
    if activity.keys[i] !in ActivityColors {
      HalfAlphaTextInjective(Rgba(d.r, d.g, d.b, "0.5"), Grey);
    }
  }

  /** The random draws of each chart that uses random colours. */
  datatype Draws = Draws(pie: nat -> Draw, typeOfInsight: nat -> Draw, ageRange: nat -> Draw,
                         activityByLocation: nat -> Draw)

  datatype Panel = Panel(title: string, chart: ChartData)

  /** What the component shows: an empty placeholder, or the charts in page order. */
  datatype Screen = Placeholder | Panels(panels: seq<Panel>)

  function PanelIf(present: bool, title: string, chart: ChartData): seq<Panel>
  {
    if present then [Panel(title, chart)] else []
  }

  /** The panels between the pie chart and the stacked chart, in page order. */
  function MiddlePanels(v: Views): seq<Panel>
    requires v.Valid() && Guard(v)
  {
    var activity, location := v.activity.value, v.location.value;
    (if HasData(v.dateByMonth) then
       [Panel("Number of People by Month", GenerateChartDataForDateByMonth(v.dateByMonth.value))] else [])
    + (if HasData(v.dateByYear) then
         [Panel("Number of People by Year", GenerateChartDataForDateByYear(v.dateByYear.value))] else [])
    + PanelIf(HasData(v.activity), "Number of People by Activity",
              GenerateChartData(activity.keys, "Number of People by Activity", Values(activity), true))
    + PanelIf(HasData(v.location), "Number of People by Location",
              GenerateChartData(location.keys, "Number of People by Location", Values(location), false))
  }

  /** The `Charts` component: the placeholder unless the guard holds, otherwise one
      panel for each view with data (two for the activity view). */
  function ChartsScreen(v: Views, draws: Draws): (s: Screen)
    requires v.Valid()
    ensures s.Placeholder? <==> !Guard(v)
    ensures s.Panels? && HasData(v.activity) ==>
              s.panels != [] && s.panels[0] == Panel("Activity Participation Share", GeneratePieChartData(v.activity.value, draws.pie))
    ensures s.Panels? && HasData(v.activityByLocation) ==>
              s.panels != []
              && s.panels[|s.panels| - 1]
                 == Panel("Number of People by Activity by Location",
                          ActivityByLocationAsWritten(v.activityByLocation.value, v.location.value, draws.activityByLocation))
  {
    if !Guard(v) then Placeholder
    else
      var pie := PanelIf(HasData(v.activity), "Activity Participation Share", GeneratePieChartData(v.activity.value, draws.pie));
      var stacked := PanelIf(HasData(v.activityByLocation), "Number of People by Activity by Location",
                             ActivityByLocationAsWritten(v.activityByLocation.value, v.location.value, draws.activityByLocation));
      var rest :=
        MiddlePanels(v)
        + (if HasData(v.typeOfInsight) then
             [Panel("Type of Insight", GenerateChartDataForTypeOfInsight(v.typeOfInsight.value, draws.typeOfInsight))] else [])
        + (if HasData(v.ageRange) then
             [Panel("Age Range", GenerateChartDataForAgeRange(v.ageRange.value, draws.ageRange))] else [])
        + PanelIf(HasData(v.date), "Number of People by Month", GenerateChartDataForDate(v.date.value));
      assert HasData(v.activity) ==> (pie + rest + stacked)[0] == pie[0];
      assert HasData(v.activityByLocation) ==> (pie + rest + stacked)[|pie + rest + stacked| - 1] == stacked[0];
      Panels(pie + rest + stacked)
  }
}
