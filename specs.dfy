/** The closed set of instance specs ("what column this is, abstractly") and the
    column associations the resolver produces for them. */
module Specs {
  import opened Wrappers

  /** A reference to an entity by name; one hop of a join path. */
  datatype EntityReference = EntityReference(elementName: string)

  /** Time granularities, smallest first. */
  datatype TimeGranularity =
    | Nanosecond | Microsecond | Millisecond | Second | Minute | Hour
    | Day | Week | Month | Quarter | Year

  /** Stand-in for `TimeGranularity.to_int`: a rank that orders the
      granularities from the smallest to the largest. */
  function GranularityRank(g: TimeGranularity): (rank: nat)
    ensures rank <= 10
  {
    match g
    case Nanosecond => 0
    case Microsecond => 1
    case Millisecond => 2
    case Second => 3
    case Minute => 4
    case Hour => 5
    case Day => 6
    case Week => 7
    case Month => 8
    case Quarter => 9
    case Year => 10
  }

  /** Lower-case name of a granularity, as used in column names. */
  function GranularityName(g: TimeGranularity): (name: string)
  {
    match g
    case Nanosecond => "nanosecond"
    case Microsecond => "microsecond"
    case Millisecond => "millisecond"
    case Second => "second"
    case Minute => "minute"
    case Hour => "hour"
    case Day => "day"
    case Week => "week"
    case Month => "month"
    case Quarter => "quarter"
    case Year => "year"
  }

  /** A part of a date that can be extracted from a time dimension. */
  datatype DatePart = YearPart | QuarterPart | MonthPart | DayPart | DayOfWeek | DayOfYear

  function DatePartName(p: DatePart): (name: string)
  {
    match p
    case YearPart => "year"
    case QuarterPart => "quarter"
    case MonthPart => "month"
    case DayPart => "day"
    case DayOfWeek => "dow"
    case DayOfYear => "doy"
  }

  /** How a time value was aggregated; `value` is the enum member's string value. */
  datatype AggregationState = AggregationState(value: string)

  datatype MetricSpec = MetricSpec(elementName: string, alias: Option<string>)

  datatype MeasureSpec = MeasureSpec(elementName: string)

  datatype DimensionSpec = DimensionSpec(elementName: string, entityLinks: seq<EntityReference>)

  datatype TimeDimensionSpec = TimeDimensionSpec(
    elementName: string,
    entityLinks: seq<EntityReference>,
    timeGranularity: TimeGranularity,
    datePart: Option<DatePart>,
    aggregationState: Option<AggregationState>)

  datatype EntitySpec = EntitySpec(elementName: string, entityLinks: seq<EntityReference>)

  datatype GroupByMetricSpec = GroupByMetricSpec(elementName: string, entityLinks: seq<EntityReference>)

  /** A metadata column; `qualifiedName` is the spec's own precomputed name. */
  datatype MetadataSpec = MetadataSpec(qualifiedName: string)

  /** Every kind of spec the resolver has to handle. */
  datatype InstanceSpec =
    | Metric(metric: MetricSpec)
    | Measure(measure: MeasureSpec)
    | Dimension(dimension: DimensionSpec)
    | TimeDimension(timeDimension: TimeDimensionSpec)
    | Entity(entity: EntitySpec)
    | GroupByMetric(groupByMetric: GroupByMetricSpec)
    | Metadata(metadata: MetadataSpec)

  /** How a column is matched against a column of another dataset; only the
      single-column kind (matched by name) exists. */
  datatype ColumnCorrelationKey = SingleColumnCorrelationKey

  datatype ColumnAssociation = ColumnAssociation(columnName: string, correlationKey: ColumnCorrelationKey)
}
