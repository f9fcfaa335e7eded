/** Maps every kind of instance spec to the column that holds it, using the
    dunder naming scheme. The resolver's only state, a semantic-manifest lookup,
    is never consulted, so the resolver is a family of functions. */
module DunderColumnAssociationResolver {
  import opened Wrappers
  import opened Specs
  import opened Naming

  /** The element names of a join path, in order. */
  function LinkNames(links: seq<EntityReference>): (names: seq<string>)
    ensures |names| == |links|
    ensures forall i :: 0 <= i < |links| ==> names[i] == links[i].elementName
  {
    seq(|links|, i requires 0 <= i < |links| => links[i].elementName)
  }

  function VisitMetricSpec(metricSpec: MetricSpec): (association: ColumnAssociation)
  {
    ColumnAssociation(
      if metricSpec.alias.None? then metricSpec.elementName else metricSpec.alias.value,
      SingleColumnCorrelationKey)
  }

  function VisitMeasureSpec(measureSpec: MeasureSpec): (association: ColumnAssociation)
  {
    ColumnAssociation(measureSpec.elementName, SingleColumnCorrelationKey)
  }

  function VisitDimensionSpec(dimensionSpec: DimensionSpec): (association: ColumnAssociation)
  {
    ColumnAssociation(
      QualifiedName(LinkNames(dimensionSpec.entityLinks), dimensionSpec.elementName, None, None),
      SingleColumnCorrelationKey)
  }

  function VisitTimeDimensionSpec(timeDimensionSpec: TimeDimensionSpec): (association: ColumnAssociation)
  {
    var columnName := QualifiedName(
      LinkNames(timeDimensionSpec.entityLinks),
      timeDimensionSpec.elementName,
      Some(timeDimensionSpec.timeGranularity),
      timeDimensionSpec.datePart);
    ColumnAssociation(
      columnName + (
        if timeDimensionSpec.aggregationState.Some?
        then Dunder + Lower(timeDimensionSpec.aggregationState.value.value)
        else ""),
      SingleColumnCorrelationKey)
  }

  function VisitEntitySpec(entitySpec: EntitySpec): (association: ColumnAssociation)
  {
    ColumnAssociation(
      QualifiedName(LinkNames(entitySpec.entityLinks), entitySpec.elementName, None, None),
      SingleColumnCorrelationKey)
  }

  function VisitGroupByMetricSpec(groupByMetricSpec: GroupByMetricSpec): (association: ColumnAssociation)
  {
    ColumnAssociation(
      QualifiedName(LinkNames(groupByMetricSpec.entityLinks), groupByMetricSpec.elementName, None, None),
      SingleColumnCorrelationKey)
  }

  function VisitMetadataSpec(metadataSpec: MetadataSpec): (association: ColumnAssociation)
  {
    ColumnAssociation(metadataSpec.qualifiedName, SingleColumnCorrelationKey)
  }

  /** `resolve_spec`: a total dispatch over the seven spec kinds, each to its own visitor. */
  function ResolveSpec(spec: InstanceSpec): (association: ColumnAssociation)
    ensures spec.Metric? ==> association == VisitMetricSpec(spec.metric)
    ensures spec.Measure? ==> association == VisitMeasureSpec(spec.measure)
    ensures spec.Dimension? ==> association == VisitDimensionSpec(spec.dimension)
    ensures spec.TimeDimension? ==> association == VisitTimeDimensionSpec(spec.timeDimension)
    ensures spec.Entity? ==> association == VisitEntitySpec(spec.entity)
    ensures spec.GroupByMetric? ==> association == VisitGroupByMetricSpec(spec.groupByMetric)
    ensures spec.Metadata? ==> association == VisitMetadataSpec(spec.metadata)
  {
    match spec
    case Metric(s) => VisitMetricSpec(s)
    case Measure(s) => VisitMeasureSpec(s)
    case Dimension(s) => VisitDimensionSpec(s)
    case TimeDimension(s) => VisitTimeDimensionSpec(s)
    case Entity(s) => VisitEntitySpec(s)
    case GroupByMetric(s) => VisitGroupByMetricSpec(s)
    case Metadata(s) => VisitMetadataSpec(s)
  }

  /** A metric's column is its alias when it has one, and its element name otherwise. */
  lemma MetricResolvesToAliasOrElementName(m: MetricSpec)
    ensures m.alias.Some? ==> ResolveSpec(Metric(m)).columnName == m.alias.value
    ensures m.alias.None? ==> ResolveSpec(Metric(m)).columnName == m.elementName
  {
  }

  /** The alias overrides the element name: two metrics with the same alias share
      a column whatever their element names; an unaliased metric shares its column
      with the measure of the same name. */
  lemma MetricAliasOverridesElementName(m1: MetricSpec, m2: MetricSpec, measure: MeasureSpec)
    ensures m1.alias.Some? && m1.alias == m2.alias ==>
              ResolveSpec(Metric(m1)).columnName == ResolveSpec(Metric(m2)).columnName
    ensures m1.alias.None? && m1.elementName == measure.elementName ==>
              ResolveSpec(Metric(m1)).columnName == ResolveSpec(Measure(measure)).columnName
  {
  }

  /** A measure's column is its element name, verbatim. */
  lemma MeasureResolvesToElementName(m: MeasureSpec)
    ensures ResolveSpec(Measure(m)).columnName == m.elementName
  {
  }

  /** Dimension, entity and group-by-metric specs with the same join path and
      element name share one column, the dunder join of the link names (in
      order) and the element name. */
  lemma LinkableSpecsShareColumnName(links: seq<EntityReference>, elementName: string)
    ensures ResolveSpec(Dimension(DimensionSpec(elementName, links))).columnName
         == DunderJoin(LinkNames(links) + [elementName])
    ensures ResolveSpec(Entity(EntitySpec(elementName, links))).columnName
         == ResolveSpec(Dimension(DimensionSpec(elementName, links))).columnName
    ensures ResolveSpec(GroupByMetric(GroupByMetricSpec(elementName, links))).columnName
         == ResolveSpec(Dimension(DimensionSpec(elementName, links))).columnName
  {
  }

  /** A dimension with no join path is named by its element name alone. */
  lemma RootDimensionIsElementName(elementName: string)
    ensures ResolveSpec(Dimension(DimensionSpec(elementName, []))).columnName == elementName
  {
  }

  /** The documented example: `country` reached through `listing` is `listing__country`. */
  lemma DocumentedDimensionExample()
    ensures ResolveSpec(Dimension(DimensionSpec("country", [EntityReference("listing")]))).columnName
         == "listing__country"
  {
    assert LinkNames([EntityReference("listing")]) + ["country"] == ["listing", "country"];
    assert DunderJoin(["listing", "country"]) == "listing" + Dunder + DunderJoin(["country"]);
  }

  /** A time dimension's column is the qualified name for its join path,
      element, granularity and date part, followed by the separator and the
      lower-cased aggregation state when it has one. */
  lemma TimeDimensionColumnName(t: TimeDimensionSpec)
    ensures var base := QualifiedName(LinkNames(t.entityLinks), t.elementName, Some(t.timeGranularity), t.datePart);
            && (t.aggregationState.None? ==> ResolveSpec(TimeDimension(t)).columnName == base)
            && (t.aggregationState.Some? ==>
                  ResolveSpec(TimeDimension(t)).columnName == base + "__" + Lower(t.aggregationState.value.value))
  {
  }

  /** A time dimension with an aggregation state never shares its column with the
      same time dimension without one. */
  lemma AggregatedTimeDimensionIsDistinct(t: TimeDimensionSpec, state: AggregationState)
    ensures ResolveSpec(TimeDimension(t.(aggregationState := Some(state)))).columnName
         != ResolveSpec(TimeDimension(t.(aggregationState := None))).columnName
  {
  }

  /** A metadata spec's column is its own qualified name. */
  lemma MetadataResolvesToQualifiedName(m: MetadataSpec)
    ensures ResolveSpec(Metadata(m)).columnName == m.qualifiedName
  {
  }

  /** Every spec gets a single-column correlation key. */
  lemma ResolvesToSingleColumnKey(spec: InstanceSpec)
    ensures ResolveSpec(spec).correlationKey == SingleColumnCorrelationKey
  {
  }

  /** Link names and element names that contain no separator and do not end
      with an underscore. */
  predicate WellFormedNames(links: seq<EntityReference>, elementName: string)
  {
    (forall i :: 0 <= i < |links| ==> IsNamePart(links[i].elementName)) && IsNamePart(elementName)
  }

  /** With well-formed names, distinct dimension specs get distinct columns: the
      column name determines the join path and the element name. */
  lemma DimensionColumnNamesInjective(d1: DimensionSpec, d2: DimensionSpec)
    requires WellFormedNames(d1.entityLinks, d1.elementName)
    requires WellFormedNames(d2.entityLinks, d2.elementName)
    requires ResolveSpec(Dimension(d1)).columnName == ResolveSpec(Dimension(d2)).columnName
    ensures d1 == d2
  {
    var p := LinkNames(d1.entityLinks) + [d1.elementName];
    var q := LinkNames(d2.entityLinks) + [d2.elementName];
    assert forall k :: 0 <= k < |p| ==> IsNamePart(p[k]);
    assert forall k :: 0 <= k < |q| ==> IsNamePart(q[k]);
    DunderJoinInjective(p, q);
    assert |d1.entityLinks| == |d2.entityLinks|;
    assert d1.elementName == p[|p| - 1] == q[|q| - 1] == d2.elementName;
    forall i | 0 <= i < |d1.entityLinks|
      ensures d1.entityLinks[i] == d2.entityLinks[i]
    {
      assert p[i] == q[i];
    }
  }
}
