# MetricFlow join builder and dunder column resolver, modelled in Dafny

This project models two pieces of MetricFlow's compile-time logic.

1. **Dunder column naming.** `DunderColumnAssociationResolver` maps each kind of
   instance spec to its column: Metric, Measure, Dimension, TimeDimension,
   Entity, GroupByMetric and Metadata. Each maps to a `ColumnAssociation`
   (a column name plus a single-column correlation key). Linkable specs are
   named by joining their entity-link names and their element name with `__`.
   A time dimension's name also gets `__<aggregation state, lower-cased>` when
   it has an aggregation state. A metric's alias replaces its element name.
2. **SQL join construction.** `SqlQueryPlanJoinBuilder` builds the
   `SqlJoinDescription` (right source, alias, ON condition, join type) for
   three kinds of join:
   - an equality join on a list of column-equality descriptions, each one
     plain or null-safe;
   - a LEFT OUTER join of two base outputs on identifier and partition
     columns, plus the bounds of a validity window (slowly changing
     dimension) when one is requested;
   - the INNER time-range join of a cumulative metric against a time spine.

Files and modules:

- `wrappers.dfy` (`Wrappers`): `Option` and `Result`.
- `specs.dfy` (`Specs`): the spec variants, time granularities with a rank,
  date parts, aggregation states and `ColumnAssociation`.
- `naming.dfy` (`Naming`): the dunder join and its inverse split, with the
  round-trip lemma. It also holds an ASCII lower-casing function and a stand-in
  for `StructuredLinkableSpecName.qualified_name`.
- `column_association_resolver.dfy` (`DunderColumnAssociationResolver`): the
  seven `visit_*` functions, `ResolveSpec`, and the naming properties.
- `sql_plan.dfy` (`SqlPlan`): the SQL expression nodes (column reference,
  comparison, IS NULL, AND/OR, time delta, date trunc), the join types and
  `SqlJoinDescription`. These are constructors only.
- `sql_semantics.dfy` (`SqlSemantics`): a reference semantics for join
  conditions in SQL's three-valued logic. It is not taken from the source. It
  exists so that the ON conditions can be given a meaning (TRUE, FALSE,
  UNKNOWN on a row).
- `sql_join_builder.dfy` (`SqlJoinBuilder`): the builder. The steps built from
  expressions are functions (`_make_validity_window_on_condition`,
  `metric_time_column_name`). The three builders are methods. Their loops and
  conditional appends match the source, and each method is proved against
  specification functions.
- `join_condition_semantics.dfy` (`JoinConditionSemantics`): lemmas about
  what the built conditions mean.

Python `assert` failures are modelled as `Failure(JoinBuildError)` results.
Each error carries data instead of the message text. Mostly this is what the message names. One exception: `MissingMetricTimeColumnName` also carries the dataset's alias, which the message does not name.

Where the documentation and the code disagree, the model follows the code.
The docstring at `metricflow/plan_conversion/sql_join_builder.py:36` writes the
validity window as `start >= metric_time AND (end < metric_time OR end IS NULL)`.
Lines 39-68 build `left.t >= right.start` and `left.t < right.end`. So the model,
like the code, keeps the right-hand row valid at the left-hand time. Lemma
`JoinConditionSemantics.ValidityWindowMeaning` states exactly that.

## Model

| member | source | states |
|---|---|---|
| `DunderColumnAssociationResolver.ResolveSpec` | metricflow-semantics/metricflow_semantics/specs/dunder_column_association_resolver.py:38-39 | Resolution is total over the seven spec kinds, and each kind is resolved by its own visitor. |
| `DunderColumnAssociationResolver.VisitMetricSpec` | metricflow-semantics/metricflow_semantics/specs/dunder_column_association_resolver.py:48-52 | `visit_metric_spec`: the alias when set, else the element name. Stated by `MetricResolvesToAliasOrElementName` and `MetricAliasOverridesElementName`. |
| `DunderColumnAssociationResolver.VisitMeasureSpec` | metricflow-semantics/metricflow_semantics/specs/dunder_column_association_resolver.py:54-58 | `visit_measure_spec`: the element name verbatim. Stated by `MeasureResolvesToElementName`. |
| `DunderColumnAssociationResolver.VisitDimensionSpec` | metricflow-semantics/metricflow_semantics/specs/dunder_column_association_resolver.py:60-67 | `visit_dimension_spec`: the qualified name of the link names and element, with no granularity or date part. Stated by `LinkableSpecsShareColumnName`, `RootDimensionIsElementName`, `DocumentedDimensionExample` and `DimensionColumnNamesInjective`. |
| `DunderColumnAssociationResolver.VisitTimeDimensionSpec` | metricflow-semantics/metricflow_semantics/specs/dunder_column_association_resolver.py:69-85 | `visit_time_dimension_spec`: the qualified name, with or without the aggregation-state suffix. Stated by `TimeDimensionColumnName` and `AggregatedTimeDimensionIsDistinct`. |
| `DunderColumnAssociationResolver.VisitEntitySpec` | metricflow-semantics/metricflow_semantics/specs/dunder_column_association_resolver.py:87-94 | `visit_entity_spec`: the same name as a dimension with the same links and element. Stated by `LinkableSpecsShareColumnName`. |
| `DunderColumnAssociationResolver.VisitGroupByMetricSpec` | metricflow-semantics/metricflow_semantics/specs/dunder_column_association_resolver.py:96-103 | `visit_group_by_metric_spec`: the same name as a dimension with the same links and element. Stated by `LinkableSpecsShareColumnName`. |
| `DunderColumnAssociationResolver.VisitMetadataSpec` | metricflow-semantics/metricflow_semantics/specs/dunder_column_association_resolver.py:105-109 | `visit_metadata_spec`: the spec's own qualified name. Stated by `MetadataResolvesToQualifiedName`. |
| `DunderColumnAssociationResolver.MetricResolvesToAliasOrElementName` | metricflow-semantics/metricflow_semantics/specs/dunder_column_association_resolver.py:48-52 | A metric's column is its alias when the alias is set, and its element name otherwise. |
| `DunderColumnAssociationResolver.MetricAliasOverridesElementName` | metricflow-semantics/metricflow_semantics/specs/dunder_column_association_resolver.py:48-58 | Two metrics with the same alias share a column whatever their element names. An unaliased metric shares its column with the measure of the same element name. |
| `DunderColumnAssociationResolver.MeasureResolvesToElementName` | metricflow-semantics/metricflow_semantics/specs/dunder_column_association_resolver.py:54-58 | A measure's column is its element name, verbatim. |
| `DunderColumnAssociationResolver.LinkNames` | metricflow-semantics/metricflow_semantics/specs/dunder_column_association_resolver.py:63 | The link names passed on are the links' element names, same length, same order. |
| `DunderColumnAssociationResolver.LinkableSpecsShareColumnName` | metricflow-semantics/metricflow_semantics/specs/dunder_column_association_resolver.py:60-103 | Dimension, Entity and GroupByMetric specs with the same links and element name resolve to the same column: the `__`-join of the link names, in order, followed by the element name. |
| `DunderColumnAssociationResolver.RootDimensionIsElementName` | metricflow-semantics/metricflow_semantics/specs/dunder_column_association_resolver.py:60-67 | A dimension with no entity links is named by its element name alone. |
| `DunderColumnAssociationResolver.DocumentedDimensionExample` | metricflow-semantics/metricflow_semantics/specs/dunder_column_association_resolver.py:26-32 | `DimensionSpec('country', ['listing'])` resolves to `listing__country`. |
| `DunderColumnAssociationResolver.TimeDimensionColumnName` | metricflow-semantics/metricflow_semantics/specs/dunder_column_association_resolver.py:69-85 | A time dimension's column is the qualified name for (links, element, granularity, date part). With an aggregation state, `"__"` and the lower-cased state value follow. Without one, nothing follows. |
| `DunderColumnAssociationResolver.AggregatedTimeDimensionIsDistinct` | metricflow-semantics/metricflow_semantics/specs/dunder_column_association_resolver.py:77-83 | Giving a time dimension an aggregation state always changes its column name. |
| `DunderColumnAssociationResolver.MetadataResolvesToQualifiedName` | metricflow-semantics/metricflow_semantics/specs/dunder_column_association_resolver.py:105-109 | A metadata spec's column is its own qualified name. |
| `DunderColumnAssociationResolver.ResolvesToSingleColumnKey` | metricflow-semantics/metricflow_semantics/specs/dunder_column_association_resolver.py:48-109 | Every spec kind gets a single-column correlation key. The type guarantees this: `ColumnCorrelationKey` has only that one constructor. |
| `DunderColumnAssociationResolver.DimensionColumnNamesInjective` | metricflow-semantics/metricflow_semantics/specs/dunder_column_association_resolver.py:60-67 | Take names that contain no `__` and do not end in `_`. Then two dimension specs with the same column are the same spec, so no two distinct specs collide. |
| `Naming.DunderSplitJoin` | metricflow-semantics/metricflow_semantics/specs/dunder_column_association_resolver.py:62-65 | Splitting a `__`-joined name at each separator gives back its parts. This holds for every non-empty list of parts in which no part contains `__` or ends in `_`. The empty list is excluded because its join, `""`, splits to `[""]`. |
| `Naming.DunderJoinInjective` | metricflow-semantics/metricflow_semantics/specs/dunder_column_association_resolver.py:62-65 | Two non-empty lists of such parts that join to the same name are equal. |
| `SqlJoinBuilder.ValidityWindowOnCondition` | metricflow/plan_conversion/sql_join_builder.py:24-81 | There are exactly two conjuncts: `left.t >= right.start`, and `(left.t < right.end OR right.end IS NULL)`. |
| `JoinConditionSemantics.ValidityWindowMeaning` | metricflow/plan_conversion/sql_join_builder.py:39-81 | The two window conjuncts are TRUE on a row exactly when t and start are non-NULL, start <= t, and end is NULL or t < end. |
| `SqlJoinBuilder.MetricTimeColumnName` | metricflow/plan_conversion/sql_join_builder.py:109-115 | The accessor succeeds exactly when the stored name is set and non-empty, and then returns it. Otherwise it fails with the dataset's alias. |
| `SqlJoinBuilder.ColumnEqualityConditionsAt` | metricflow/plan_conversion/sql_join_builder.py:152-181 | Each equality description contributes exactly one conjunct, in input order. |
| `JoinConditionSemantics.PlainEqualityMeaning` | metricflow/plan_conversion/sql_join_builder.py:165-181 | A plain (default) equality is TRUE only for equal non-NULL values. A NULL on either side makes it UNKNOWN. |
| `JoinConditionSemantics.NullSafeEqualityMeaning` | metricflow/plan_conversion/sql_join_builder.py:170-179 | A null-safe equality `(l = r) OR (l IS NULL AND r IS NULL)` is TRUE exactly when the values are equal, two NULLs included. It is UNKNOWN for a NULL against a value, and FALSE otherwise. |
| `SqlJoinBuilder.ColumnEqualityCondition` | metricflow/plan_conversion/sql_join_builder.py:152-181 | The conjunct for one description: a plain equality, or the null-safe OR when `treat_nulls_as_equal` is set. Its meaning is stated by `PlainEqualityMeaning` and `NullSafeEqualityMeaning`. |
| `SqlJoinBuilder.ColumnEqualityConditions` | metricflow/plan_conversion/sql_join_builder.py:151-181 | The conjunct list the loop builds, one per description. Length and order are stated by `ColumnEqualityConditionsAt`; `MakeSqlJoinDescription` is proved against it. |
| `SqlJoinBuilder.IdentifierColumns` | metricflow/plan_conversion/sql_join_builder.py:218-227 | The column names backing the join identifier in one dataset. `MakeBaseOutputJoinDescription` compares them and fails on a count mismatch. |
| `SqlJoinBuilder.BaseOutputEqualityDescriptions` | metricflow/plan_conversion/sql_join_builder.py:233-266 | The equality descriptions built by the three loops: identifier pairs, partition dimensions, partition time dimensions. Its count, pairing and null-safety are stated by `BaseOutputEqualityDescriptionsShape`. |
| `SqlJoinBuilder.AnchorKeyLe` | metricflow/plan_conversion/sql_join_builder.py:277 | The sort key (granularity rank, link count), compared lexicographically. Its minimum is stated by `FirstMinimalIndex`, `MetricTimeAnchor` and `MetricTimeAnchorTieBreak`. |
| `SqlJoinBuilder.ConjoinConditions` | metricflow/plan_conversion/sql_join_builder.py:185-191 | The ON condition is absent exactly when there are no conjuncts. |
| `JoinConditionSemantics.ConjoinConditionsMeaning` | metricflow/plan_conversion/sql_join_builder.py:185-191 | For a non-empty list of conditions, the ON condition evaluates to the three-valued AND of all of them. This includes a single condition left unwrapped. |
| `SqlJoinBuilder.MakeSqlJoinDescription` | metricflow/plan_conversion/sql_join_builder.py:121-198 | Fails exactly when there are no equality descriptions and the join is not a cross join. Otherwise it passes the source, alias and join type through. Its ON condition conjoins the equality conjuncts, in order, then the additional conditions. |
| `SqlJoinBuilder.ColumnNames` | metricflow/plan_conversion/sql_join_builder.py:223 | Gives the column names of the associations, one each, in order. |
| `SqlJoinBuilder.IdentifierEqualities` | metricflow/plan_conversion/sql_join_builder.py:235-242 | Pairs the left and right identifier columns index by index, with the default (not null-safe) flag. |
| `SqlJoinBuilder.PartitionDimensionEqualities` | metricflow/plan_conversion/sql_join_builder.py:244-254 | Gives one equality per partition dimension, from each side's column for its own spec. |
| `SqlJoinBuilder.PartitionTimeDimensionEqualities` | metricflow/plan_conversion/sql_join_builder.py:256-266 | Gives one equality per partition time dimension, from each side's column for its own spec. |
| `SqlJoinBuilder.BaseOutputEqualityDescriptionsShape` | metricflow/plan_conversion/sql_join_builder.py:229-266 | The number of equalities is identifier columns + partition dimensions + partition time dimensions. The identifier pairs come first, index by index. None is null-safe. |
| `SqlJoinBuilder.FirstMinimalIndex` | metricflow/plan_conversion/sql_join_builder.py:275-278 | Gives the first index whose (granularity rank, link count) is lexicographically minimal, i.e. the head of the stable sort. |
| `SqlJoinBuilder.MetricTimeAnchor` | metricflow/plan_conversion/sql_join_builder.py:275-286 | The anchor is absent exactly when there are no metric-time instances. Otherwise it is an instance that is minimal by (granularity rank, link count). |
| `SqlJoinBuilder.MetricTimeAnchorTieBreak` | metricflow/plan_conversion/sql_join_builder.py:273-278 | A finer granularity beats a coarser one whatever the link counts. At equal granularity, an instance with more links is not chosen. |
| `SqlJoinBuilder.BaseOutputValidityConditions` | metricflow/plan_conversion/sql_join_builder.py:268-299 | Without a validity window there are no extra conditions. With one, there are the two window bounds on the anchor's column. It fails exactly when a window is requested and the left dataset has no metric-time instance. |
| `SqlJoinBuilder.BaseOutputOnConditionShape` | metricflow/plan_conversion/sql_join_builder.py:268-308 | With a validity window, the ON condition is an AND: the equalities, then the two window bounds last. Without one, it is built from the equalities alone. |
| `SqlJoinBuilder.MakeBaseOutputJoinDescription` | metricflow/plan_conversion/sql_join_builder.py:200-308 | Fails on an identifier column-count mismatch, then on a window with no metric-time anchor, then when there are no equalities at all. It succeeds exactly when none of these holds. Then it is a LEFT OUTER join of the right sub-select under its alias, and its ON condition conjoins the specified equalities and then the validity conditions. |
| `SqlJoinBuilder.MakeCumulativeMetricTimeRangeJoinDescription` | metricflow/plan_conversion/sql_join_builder.py:310-375 | Fails exactly when either dataset lacks a metric-time column name; the metric dataset is checked first. Otherwise it is an INNER join of the metric sub-select under its alias. Its ON condition is an AND whose first argument is `metric_time <= spine_time`. A second argument comes only with a window (`> TimeDelta(spine, count, grain)`) or, failing that, a grain-to-date (`>= DateTrunc(spine, grain)`). |

## Left out

- SQL rendering and the behaviour of the SQL nodes are not modelled. The select node of a dataset is an opaque type parameter `Node`.
- `SqlSemantics.Eval` does not evaluate time deltas or date truncation, so the cumulative join's start bounds are stated by shape only.
- Dataset lookups (`column_associations_for_identifier`, `column_association_for_dimension`, `column_association_for_time_dimension`) are total functions supplied as fields of `SqlDataSet`. The source's failure for a spec the dataset does not hold is not modelled. `metric_time_dimension_instances` is modelled as the list of the instances' specs.
- The anchor's link count is the spec's `entityLinks` length. The source's sort key reads `identifier_links`, and the spec classes that define it are not part of this model.
- `Naming.QualifiedName` is a stand-in for `StructuredLinkableSpecName.qualified_name`, which is not part of this model. Its base (link names and element joined with `__`) is the naming scheme. Its granularity and date-part suffixes are a guess, and no property of them is claimed.
- `Naming.Lower` lower-cases ASCII letters only, where Python's `str.lower` covers all of Unicode.
- `TimeGranularity.to_int` is modelled by `Specs.GranularityRank`, a rank from the smallest granularity to the largest. The granularity, date-part and join-type enums list the usual members; their defining files are not part of this model.
- `SemanticManifestLookup` is left out: the resolver stores it but never reads it.
- Spec fields the resolver and builder never read are left out: GroupByMetric's subquery links, Metadata's element and aggregation fields (only its qualified name is kept), and the time-range node's other fields.
- Python truthiness: a window object and an aggregation-state enum member are always truthy, so `if node.window`, `elif node.grain_to_date` and `if aggregation_state` are modelled as the presence of an optional value.
- The text of assertion messages is left out. Failures carry the values those messages name. `MissingMetricTimeColumnName` adds the dataset's alias, which its message does not name.
- `DunderColumnAssociationResolver.DimensionColumnNamesInjective`: collision freedom is proved only for names that contain no `__` and do not end in `_`. Outside that set, distinct specs can collide, as they can in the source.
