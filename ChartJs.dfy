/** The chart data objects the dashboard hands to Chart.js: a list of labels and a
    list of datasets, each dataset a list of values and its colours. */
module ChartJs {
  import opened Counts

  /** A colour option: one colour for every bar, or one per label. */
  datatype Paint = One(colour: string) | Each(colours: seq<string>)

  datatype Dataset =
      /** `{ label (caption), data, backgroundColor, borderColor, borderWidth: 1 }` */
    | BarSet(caption: string, data: seq<Num>, background: Paint, border: Paint)
      /** `{ label (caption), data, fill: false, borderColor, tension: 0.1 }` */
    | LineSet(caption: string, data: seq<Num>, lineColour: string)
      /** `{ label (caption), data, backgroundColor }`, one stack of a stacked bar chart */
    | StackSet(caption: string, data: seq<Num>, fillColour: string)
      /** `{ data, backgroundColor, hoverOffset: 4 }` of a pie chart; the slice
          percentages are floating point and not modelled */
    | PieSet(sliceColours: seq<string>)

  datatype ChartData = ChartData(labels: seq<string>, datasets: seq<Dataset>)

  /** The chart `{ labels: [], datasets: [] }` a view starts from. */
  const NoChart := ChartData([], [])
}
