/**
 * The chart factory: a dispatch from a type tag to one of three chart kinds,
 * or an "Unsupported chart type" error.
 */
module Factory {
  import opened Wrappers

  /** The three chart classes the factory can construct. */
  datatype ChartKind = Bar | Line | Pie

  /** A constructed chart: its class and the two constructor arguments. */
  datatype Chart<D, O> = Chart(kind: ChartKind, data: D, options: O)

  /** The error thrown for a type tag the switch does not know. */
  datatype FactoryError = FactoryError(message: string)

  const UnsupportedChartType: FactoryError := FactoryError("Unsupported chart type")

  /** The type tag whose `case` constructs a chart of the given kind. */
  function TypeTag(kind: ChartKind): (tag: string)
    ensures tag in {"bar", "line", "pie"}
  {
    match kind
    case Bar => "bar"
    case Line => "line"
    case Pie => "pie"
  }

  /** ChartFactory(type, data, options): the strict-equality switch over `type`. */
  function ChartFactory<D, O>(chartType: string, data: D, options: O): (r: Result<Chart<D, O>, FactoryError>)
    ensures r.Ok? <==> chartType in {"bar", "line", "pie"}
    ensures r.Err? ==> r.error == UnsupportedChartType
    ensures r.Ok? ==> r.value.data == data && r.value.options == options
    ensures r.Ok? ==> TypeTag(r.value.kind) == chartType
  {
    if chartType == "bar" then Ok(Chart(Bar, data, options))
    else if chartType == "line" then Ok(Chart(Line, data, options))
    else if chartType == "pie" then Ok(Chart(Pie, data, options))
    else Err(UnsupportedChartType)
  }

  /** Type 'bar' gives a BarChart, 'line' a LineChart, 'pie' a PieChart, each over the given arguments. */
  lemma KnownTagsConstruct<D, O>(data: D, options: O)
    ensures ChartFactory("bar", data, options) == Ok(Chart(Bar, data, options))
    ensures ChartFactory("line", data, options) == Ok(Chart(Line, data, options))
    ensures ChartFactory("pie", data, options) == Ok(Chart(Pie, data, options))
  {
  }

  /** Every chart kind is reachable from exactly its own tag: the factory inverts TypeTag. */
  lemma TypeTagRoundTrip<D, O>(kind: ChartKind, data: D, options: O)
    ensures ChartFactory(TypeTag(kind), data, options) == Ok(Chart(kind, data, options))
  {
  }

  /**
   * The factory is total and exclusive: each input yields exactly one outcome, and a
   * chart is produced precisely for the tag of its kind.
   */
  lemma FactoryExclusive<D, O>(chartType: string, data: D, options: O, kind: ChartKind)
    ensures ChartFactory(chartType, data, options) == Ok(Chart(kind, data, options)) <==> chartType == TypeTag(kind)
  {
  }

  /** Any tag outside the three cases (including a different letter case) throws and constructs nothing. */
  lemma UnknownTagFails<D, O>(chartType: string, data: D, options: O)
    requires chartType != TypeTag(Bar) && chartType != TypeTag(Line) && chartType != TypeTag(Pie)
    ensures ChartFactory(chartType, data, options) == Err(UnsupportedChartType)
  {
  }

  /** The usage line: a 'line' chart over the dataset and the colour options. */
  lemma UsageBuildsLineChart<D, O>(dataset: D, options: O)
    ensures ChartFactory("line", dataset, options).Ok?
    ensures ChartFactory("line", dataset, options).value.kind == Line
  {
  }
}
