/** Builds the join descriptions of a SQL query plan: equality joins on
    identifier and partition columns, validity-window (slowly changing dimension)
    bounds, and the backward-looking time-range join of a cumulative metric
    against a time spine. */
module SqlJoinBuilder {
  import opened Wrappers
  import opened Specs
  import opened SqlPlan

  /** The programming-error failures the builder raises, with what identifies them. */
  datatype JoinBuildError =
    | NoColumnEqualityForJoinType(joinType: SqlJoinType)
    | IdentifierColumnCountMismatch(leftColumns: seq<string>, rightColumns: seq<string>)
    | NoMetricTimeForValidityWindow(rightAlias: string, validityWindow: ValidityWindowJoinDescription, leftAlias: string)
    | MissingMetricTimeColumnName(alias: string)

  /** A dataset as the builder sees it: its sub-select and its column lookups. */
  datatype SqlDataSet<Node> = SqlDataSet(
    sqlSelectNode: Node,
    columnAssociationsForIdentifier: EntitySpec -> seq<ColumnAssociation>,
    columnAssociationForDimension: DimensionSpec -> ColumnAssociation,
    columnAssociationForTimeDimension: TimeDimensionSpec -> ColumnAssociation,
    metricTimeDimensionInstances: seq<TimeDimensionSpec>)

  /** A dataset bound to its alias in the query and, optionally, to the name of
      its metric-time column. */
  datatype AnnotatedSqlDataSet<Node> = AnnotatedSqlDataSet(
    dataSet: SqlDataSet<Node>,
    alias: string,
    storedMetricTimeColumnName: Option<string> := None)

  /** One equality constraint of an ON clause, optionally null-safe. */
  datatype ColumnEqualityDescription = ColumnEqualityDescription(
    leftColumnAlias: string,
    rightColumnAlias: string,
    treatNullsAsEqual: bool := false)

  datatype PartitionDimensionJoinDescription = PartitionDimensionJoinDescription(
    startNodeDimensionSpec: DimensionSpec,
    nodeToJoinDimensionSpec: DimensionSpec)

  datatype PartitionTimeDimensionJoinDescription = PartitionTimeDimensionJoinDescription(
    startNodeTimeDimensionSpec: TimeDimensionSpec,
    nodeToJoinTimeDimensionSpec: TimeDimensionSpec)

  datatype ValidityWindowJoinDescription = ValidityWindowJoinDescription(
    windowStartDimension: TimeDimensionSpec,
    windowEndDimension: TimeDimensionSpec)

  /** The dataflow plan's request to join a base output: on an identifier, on
      partition columns and, for a slowly changing dimension, on a validity window. */
  datatype JoinDescription = JoinDescription(
    joinOnIdentifier: EntitySpec,
    joinOnPartitionDimensions: seq<PartitionDimensionJoinDescription>,
    joinOnPartitionTimeDimensions: seq<PartitionTimeDimensionJoinDescription>,
    validityWindow: Option<ValidityWindowJoinDescription>)

  datatype MetricTimeWindow = MetricTimeWindow(count: int, granularity: TimeGranularity)

  /** The parts of a time-range join node that the builder reads. */
  datatype JoinOverTimeRangeNode = JoinOverTimeRangeNode(
    window: Option<MetricTimeWindow>,
    grainToDate: Option<TimeGranularity>)

  /** The two conditions that keep the right-hand row valid at the left-hand time:
      `left.t >= right.start` and `(left.t < right.end OR right.end IS NULL)`. */
  function ValidityWindowOnCondition(
    leftSourceAlias: string,
    leftSourceTimeDimensionName: string,
    rightSourceAlias: string,
    windowStartDimensionName: string,
    windowEndDimensionName: string): (conditions: seq<SqlExpr>)
    ensures |conditions| == 2
    ensures conditions[0] == ComparisonExpr(
              ColumnExpr(leftSourceAlias, leftSourceTimeDimensionName),
              GreaterThanOrEquals,
              ColumnExpr(rightSourceAlias, windowStartDimensionName))
    ensures conditions[1] == LogicalExpr(Or, [
              ComparisonExpr(
                ColumnExpr(leftSourceAlias, leftSourceTimeDimensionName),
                LessThan,
                ColumnExpr(rightSourceAlias, windowEndDimensionName)),
              IsNullExpr(ColumnExpr(rightSourceAlias, windowEndDimensionName))])
  {
    var windowStartCondition := ComparisonExpr(
      ColumnReferenceExpr(SqlColumnReference(leftSourceAlias, leftSourceTimeDimensionName)),
      GreaterThanOrEquals,
      ColumnReferenceExpr(SqlColumnReference(rightSourceAlias, windowStartDimensionName)));
    var windowEndByTime := ComparisonExpr(
      ColumnReferenceExpr(SqlColumnReference(leftSourceAlias, leftSourceTimeDimensionName)),
      LessThan,
      ColumnReferenceExpr(SqlColumnReference(rightSourceAlias, windowEndDimensionName)));
    var windowEndIsNull := IsNullExpr(
      ColumnReferenceExpr(SqlColumnReference(rightSourceAlias, windowEndDimensionName)));
    [windowStartCondition, LogicalExpr(Or, [windowEndByTime, windowEndIsNull])]
  }

  /** The `metric_time_column_name` accessor: the stored name, which must be set
      and non-empty. */
  function MetricTimeColumnName<Node>(ds: AnnotatedSqlDataSet<Node>): (r: Result<string, JoinBuildError>)
    ensures r.Success? <==> ds.storedMetricTimeColumnName.Some? && ds.storedMetricTimeColumnName.value != ""
    ensures r.Success? ==> ds.storedMetricTimeColumnName == Some(r.value)
    ensures r.Failure? ==> r.error == MissingMetricTimeColumnName(ds.alias)
  {
    match ds.storedMetricTimeColumnName
    case Some(name) => if name != "" then Success(name) else Failure(MissingMetricTimeColumnName(ds.alias))
    case None => Failure(MissingMetricTimeColumnName(ds.alias))
  }

  /** The ON-clause conjunct for one equality description. */
  function ColumnEqualityCondition(
    leftSourceAlias: string, rightSourceAlias: string, d: ColumnEqualityDescription): (condition: SqlExpr)
  {
    var leftColumn := ColumnExpr(leftSourceAlias, d.leftColumnAlias);
    var rightColumn := ColumnExpr(rightSourceAlias, d.rightColumnAlias);
    var equality := ComparisonExpr(leftColumn, Equals, rightColumn);
    if d.treatNullsAsEqual then
      LogicalExpr(Or, [equality, LogicalExpr(And, [IsNullExpr(leftColumn), IsNullExpr(rightColumn)])])
    else equality
  }

  /** The conjuncts for a list of equality descriptions, in order. */
  function ColumnEqualityConditions(
    leftSourceAlias: string, rightSourceAlias: string, ds: seq<ColumnEqualityDescription>): (conditions: seq<SqlExpr>)
  {
    if |ds| == 0 then []
    else ColumnEqualityConditions(leftSourceAlias, rightSourceAlias, ds[..|ds| - 1])
         + [ColumnEqualityCondition(leftSourceAlias, rightSourceAlias, ds[|ds| - 1])]
  }

  /** Each description contributes exactly one conjunct, in input order. */
  lemma {:induction false} ColumnEqualityConditionsAt(
    leftSourceAlias: string, rightSourceAlias: string, ds: seq<ColumnEqualityDescription>)
    ensures |ColumnEqualityConditions(leftSourceAlias, rightSourceAlias, ds)| == |ds|
    ensures forall i :: 0 <= i < |ds| ==>
              ColumnEqualityConditions(leftSourceAlias, rightSourceAlias, ds)[i]
              == ColumnEqualityCondition(leftSourceAlias, rightSourceAlias, ds[i])
  {
    if |ds| > 0 {
      ColumnEqualityConditionsAt(leftSourceAlias, rightSourceAlias, ds[..|ds| - 1]);
    }
  }

  /** The ON condition for a list of conjuncts: none for an empty list, the
      conjunct itself for one, their AND otherwise. */
  function ConjoinConditions(conditions: seq<SqlExpr>): (onCondition: Option<SqlExpr>)
    ensures onCondition.None? <==> |conditions| == 0
  {
    if |conditions| == 0 then None
    else if |conditions| == 1 then Some(conditions[0])
    else Some(LogicalExpr(And, conditions))
  }

  /** `make_sql_join_description`: an equality join, which needs at least one
      equality unless it is a cross join. */
  method MakeSqlJoinDescription<Node>(
    rightSourceNode: Node,
    leftSourceAlias: string,
    rightSourceAlias: string,
    columnEqualityDescriptions: seq<ColumnEqualityDescription>,
    joinType: SqlJoinType,
    additionalOnConditions: seq<SqlExpr> := [])
    returns (r: Result<SqlJoinDescription<Node>, JoinBuildError>)
    ensures r.Failure? <==> |columnEqualityDescriptions| == 0 && joinType != CrossJoin
    ensures r.Failure? ==> r.error == NoColumnEqualityForJoinType(joinType)
    ensures r.Success? ==>
              && r.value.rightSource == rightSourceNode
              && r.value.rightSourceAlias == rightSourceAlias
              && r.value.joinType == joinType
    ensures r.Success? ==>
              r.value.onCondition == ConjoinConditions(
                ColumnEqualityConditions(leftSourceAlias, rightSourceAlias, columnEqualityDescriptions)
                + additionalOnConditions)
  {
    if |columnEqualityDescriptions| == 0 && joinType != CrossJoin {
      return Failure(NoColumnEqualityForJoinType(joinType));
    }
    var andConditions: seq<SqlExpr> := [];
    var i := 0;
    while i < |columnEqualityDescriptions|
      invariant 0 <= i <= |columnEqualityDescriptions|
      invariant andConditions
                == ColumnEqualityConditions(leftSourceAlias, rightSourceAlias, columnEqualityDescriptions[..i])
    {
      var description := columnEqualityDescriptions[i];
      var leftColumn := ColumnReferenceExpr(SqlColumnReference(leftSourceAlias, description.leftColumnAlias));
      var rightColumn := ColumnReferenceExpr(SqlColumnReference(rightSourceAlias, description.rightColumnAlias));
      var columnEqualityExpression := ComparisonExpr(leftColumn, Equals, rightColumn);
      if description.treatNullsAsEqual {
        var nullComparisonExpression := LogicalExpr(And, [IsNullExpr(leftColumn), IsNullExpr(rightColumn)]);
        andConditions := andConditions + [LogicalExpr(Or, [columnEqualityExpression, nullComparisonExpression])];
      } else {
        andConditions := andConditions + [columnEqualityExpression];
      }
      assert columnEqualityDescriptions[..i + 1][..i] == columnEqualityDescriptions[..i];
      i := i + 1;
    }
    assert columnEqualityDescriptions[..i] == columnEqualityDescriptions;
    andConditions := andConditions + additionalOnConditions;

    var onCondition: Option<SqlExpr>;
    if |andConditions| == 0 {
      onCondition := None;
    } else if |andConditions| == 1 {
      onCondition := Some(andConditions[0]);
    } else {
      onCondition := Some(LogicalExpr(And, andConditions));
    }
    r := Success(SqlJoinDescription(rightSourceNode, rightSourceAlias, onCondition, joinType));
  }

  /** The column names of a list of column associations, in order. */
  function ColumnNames(associations: seq<ColumnAssociation>): (names: seq<string>)
    ensures |names| == |associations|
    ensures forall i :: 0 <= i < |associations| ==> names[i] == associations[i].columnName
  {
    seq(|associations|, i requires 0 <= i < |associations| => associations[i].columnName)
  }

  function IdentifierColumns<Node>(ds: SqlDataSet<Node>, identifier: EntitySpec): (columns: seq<string>)
  {
    ColumnNames(ds.columnAssociationsForIdentifier(identifier))
  }

  /** The identifier columns of the two sides, paired index by index. */
  function IdentifierEqualities(leftColumns: seq<string>, rightColumns: seq<string>)
    : (descriptions: seq<ColumnEqualityDescription>)
    requires |leftColumns| == |rightColumns|
    ensures |descriptions| == |leftColumns|
    ensures forall i :: 0 <= i < |leftColumns| ==>
              descriptions[i] == ColumnEqualityDescription(leftColumns[i], rightColumns[i])
  {
    seq(|leftColumns|, i requires 0 <= i < |leftColumns| =>
      ColumnEqualityDescription(leftColumns[i], rightColumns[i]))
  }

  /** One equality per partition dimension, each side's column for its own spec. */
  function PartitionDimensionEqualities<Node>(
    left: SqlDataSet<Node>, right: SqlDataSet<Node>, ps: seq<PartitionDimensionJoinDescription>)
    : (descriptions: seq<ColumnEqualityDescription>)
    ensures |descriptions| == |ps|
    ensures forall k :: 0 <= k < |ps| ==>
              descriptions[k] == ColumnEqualityDescription(
                left.columnAssociationForDimension(ps[k].startNodeDimensionSpec).columnName,
                right.columnAssociationForDimension(ps[k].nodeToJoinDimensionSpec).columnName)
  {
    seq(|ps|, k requires 0 <= k < |ps| =>
      ColumnEqualityDescription(
        left.columnAssociationForDimension(ps[k].startNodeDimensionSpec).columnName,
        right.columnAssociationForDimension(ps[k].nodeToJoinDimensionSpec).columnName))
  }

  /** One equality per partition time dimension, each side's column for its own spec. */
  function PartitionTimeDimensionEqualities<Node>(
    left: SqlDataSet<Node>, right: SqlDataSet<Node>, ts: seq<PartitionTimeDimensionJoinDescription>)
    : (descriptions: seq<ColumnEqualityDescription>)
    ensures |descriptions| == |ts|
    ensures forall k :: 0 <= k < |ts| ==>
              descriptions[k] == ColumnEqualityDescription(
                left.columnAssociationForTimeDimension(ts[k].startNodeTimeDimensionSpec).columnName,
                right.columnAssociationForTimeDimension(ts[k].nodeToJoinTimeDimensionSpec).columnName)
  {
    seq(|ts|, k requires 0 <= k < |ts| =>
      ColumnEqualityDescription(
        left.columnAssociationForTimeDimension(ts[k].startNodeTimeDimensionSpec).columnName,
        right.columnAssociationForTimeDimension(ts[k].nodeToJoinTimeDimensionSpec).columnName))
  }

  /** The equality descriptions of a base-output join: the identifier pairs,
      then the partition dimensions, then the partition time dimensions. */
  function BaseOutputEqualityDescriptions<Node>(
    left: SqlDataSet<Node>, right: SqlDataSet<Node>, jd: JoinDescription): (descriptions: seq<ColumnEqualityDescription>)
    requires |IdentifierColumns(left, jd.joinOnIdentifier)| == |IdentifierColumns(right, jd.joinOnIdentifier)|
  {
    IdentifierEqualities(IdentifierColumns(left, jd.joinOnIdentifier), IdentifierColumns(right, jd.joinOnIdentifier))
    + PartitionDimensionEqualities(left, right, jd.joinOnPartitionDimensions)
    + PartitionTimeDimensionEqualities(left, right, jd.joinOnPartitionTimeDimensions)
  }

  /** A base-output join has one equality per identifier column, partition
      dimension and partition time dimension, the identifier columns paired
      index by index up front, and none of them null-safe. */
  lemma BaseOutputEqualityDescriptionsShape<Node>(left: SqlDataSet<Node>, right: SqlDataSet<Node>, jd: JoinDescription)
    requires |IdentifierColumns(left, jd.joinOnIdentifier)| == |IdentifierColumns(right, jd.joinOnIdentifier)|
    ensures var descriptions := BaseOutputEqualityDescriptions(left, right, jd);
            var leftColumns := IdentifierColumns(left, jd.joinOnIdentifier);
            var rightColumns := IdentifierColumns(right, jd.joinOnIdentifier);
            && |descriptions| == |leftColumns| + |jd.joinOnPartitionDimensions| + |jd.joinOnPartitionTimeDimensions|
            && (forall i :: 0 <= i < |descriptions| ==> !descriptions[i].treatNullsAsEqual)
            && (forall i :: 0 <= i < |leftColumns| ==>
                  descriptions[i] == ColumnEqualityDescription(leftColumns[i], rightColumns[i]))
  {
  }

  /** The sort key of a metric-time instance: (granularity rank, number of links),
      compared lexicographically. */
  predicate AnchorKeyLe(a: TimeDimensionSpec, b: TimeDimensionSpec)
  {
    GranularityRank(a.timeGranularity) < GranularityRank(b.timeGranularity)
    || (GranularityRank(a.timeGranularity) == GranularityRank(b.timeGranularity)
        && |a.entityLinks| <= |b.entityLinks|)
  }

  /** The index of the first instance with the smallest key, which is the head
      of a stable sort by that key. */
  function FirstMinimalIndex(instances: seq<TimeDimensionSpec>): (k: nat)
    requires |instances| > 0
    ensures k < |instances|
    ensures forall j :: 0 <= j < |instances| ==> AnchorKeyLe(instances[k], instances[j])
    ensures forall j :: 0 <= j < k ==> !AnchorKeyLe(instances[j], instances[k])
  {
    if |instances| == 1 then 0
    else
      var k := FirstMinimalIndex(instances[1..]);
      if AnchorKeyLe(instances[0], instances[k + 1]) then 0 else k + 1
  }

  /** A finer granularity always wins the anchor choice, whatever the link
      counts; among equal granularities, fewer links win. */
  lemma MetricTimeAnchorTieBreak(instances: seq<TimeDimensionSpec>, i: nat, j: nat)
    requires i < |instances| && j < |instances|
    ensures var anchor := MetricTimeAnchor(instances).value;
            && (GranularityRank(instances[i].timeGranularity) < GranularityRank(instances[j].timeGranularity)
                ==> GranularityRank(anchor.timeGranularity) < GranularityRank(instances[j].timeGranularity))
            && (instances[i].timeGranularity == instances[j].timeGranularity
                && |instances[i].entityLinks| < |instances[j].entityLinks|
                ==> anchor != instances[j])
  {
  }

  /** The metric-time instance that anchors a validity window: one with the
      smallest granularity and, among those, the fewest links. */
  function MetricTimeAnchor(instances: seq<TimeDimensionSpec>): (anchor: Option<TimeDimensionSpec>)
    ensures anchor.None? <==> |instances| == 0
    ensures anchor.Some? ==>
              && anchor.value in instances
              && forall j :: 0 <= j < |instances| ==> AnchorKeyLe(anchor.value, instances[j])
  {
    if |instances| == 0 then None else Some(instances[FirstMinimalIndex(instances)])
  }

  /** The extra conditions of a base-output join: none without a validity
      window; with one, the two window bounds anchored on the left dataset's
      metric time, which must exist. */
  function BaseOutputValidityConditions<Node>(
    left: AnnotatedSqlDataSet<Node>, right: AnnotatedSqlDataSet<Node>, jd: JoinDescription)
    : (r: Result<seq<SqlExpr>, JoinBuildError>)
    ensures r.Failure? <==> jd.validityWindow.Some? && |left.dataSet.metricTimeDimensionInstances| == 0
    ensures r.Failure? ==> r.error == NoMetricTimeForValidityWindow(right.alias, jd.validityWindow.value, left.alias)
    ensures r.Success? && jd.validityWindow.None? ==> r.value == []
    ensures r.Success? && jd.validityWindow.Some? ==>
              var anchor := MetricTimeAnchor(left.dataSet.metricTimeDimensionInstances).value;
              var w := jd.validityWindow.value;
              r.value == ValidityWindowOnCondition(
                left.alias,
                left.dataSet.columnAssociationForTimeDimension(anchor).columnName,
                right.alias,
                right.dataSet.columnAssociationForTimeDimension(w.windowStartDimension).columnName,
                right.dataSet.columnAssociationForTimeDimension(w.windowEndDimension).columnName)
  {
    match jd.validityWindow
    case None => Success([])
    case Some(w) =>
      match MetricTimeAnchor(left.dataSet.metricTimeDimensionInstances)
      case None => Failure(NoMetricTimeForValidityWindow(right.alias, w, left.alias))
      case Some(anchor) =>
        Success(ValidityWindowOnCondition(
          left.alias,
          left.dataSet.columnAssociationForTimeDimension(anchor).columnName,
          right.alias,
          right.dataSet.columnAssociationForTimeDimension(w.windowStartDimension).columnName,
          right.dataSet.columnAssociationForTimeDimension(w.windowEndDimension).columnName))
  }

  /** With a validity window, the ON condition of a base-output join is always
      an AND whose last two arguments are the window bounds, after at least one
      equality; without one, it is built from the equalities alone. */
  lemma BaseOutputOnConditionShape<Node>(
    left: AnnotatedSqlDataSet<Node>, right: AnnotatedSqlDataSet<Node>, jd: JoinDescription)
    requires |IdentifierColumns(left.dataSet, jd.joinOnIdentifier)| == |IdentifierColumns(right.dataSet, jd.joinOnIdentifier)|
    requires BaseOutputValidityConditions(left, right, jd).Success?
    requires |BaseOutputEqualityDescriptions(left.dataSet, right.dataSet, jd)| > 0
    ensures var equalities := ColumnEqualityConditions(
              left.alias, right.alias, BaseOutputEqualityDescriptions(left.dataSet, right.dataSet, jd));
            var validity := BaseOutputValidityConditions(left, right, jd).value;
            var onCondition := ConjoinConditions(equalities + validity);
            && (jd.validityWindow.None? ==> onCondition == ConjoinConditions(equalities))
            && (jd.validityWindow.Some? ==>
                  && onCondition.Some?
                  && onCondition.value.LogicalExpr?
                  && onCondition.value.operator == And
                  && |onCondition.value.args| >= 3
                  && onCondition.value.args[..|onCondition.value.args| - 2] == equalities
                  && onCondition.value.args[|onCondition.value.args| - 2..] == validity)
  {
    var descriptions := BaseOutputEqualityDescriptions(left.dataSet, right.dataSet, jd);
    var equalities := ColumnEqualityConditions(left.alias, right.alias, descriptions);
    ColumnEqualityConditionsAt(left.alias, right.alias, descriptions);
    var validity := BaseOutputValidityConditions(left, right, jd).value;
    if jd.validityWindow.None? {
      assert equalities + validity == equalities;
    } else {
      var all := equalities + validity;
      assert all[..|all| - 2] == equalities;
      assert all[|all| - 2..] == validity;
    }
  }

  /** `make_base_output_join_description`: a LEFT OUTER join of two base
      outputs on the identifier's columns, the partition columns and, when the
      right dataset has a validity window, the window bounds. */
  method MakeBaseOutputJoinDescription<Node>(
    annotatedLeftDataSet: AnnotatedSqlDataSet<Node>,
    annotatedRightDataSet: AnnotatedSqlDataSet<Node>,
    joinDescription: JoinDescription)
    returns (r: Result<SqlJoinDescription<Node>, JoinBuildError>)
    ensures var leftColumns := IdentifierColumns(annotatedLeftDataSet.dataSet, joinDescription.joinOnIdentifier);
            var rightColumns := IdentifierColumns(annotatedRightDataSet.dataSet, joinDescription.joinOnIdentifier);
            |leftColumns| != |rightColumns| ==> r == Failure(IdentifierColumnCountMismatch(leftColumns, rightColumns))
    ensures var leftColumns := IdentifierColumns(annotatedLeftDataSet.dataSet, joinDescription.joinOnIdentifier);
            var rightColumns := IdentifierColumns(annotatedRightDataSet.dataSet, joinDescription.joinOnIdentifier);
            var validity := BaseOutputValidityConditions(annotatedLeftDataSet, annotatedRightDataSet, joinDescription);
            |leftColumns| == |rightColumns| ==>
              && (validity.Failure? ==> r == Failure(validity.error))
              && (validity.Success? && |leftColumns| + |joinDescription.joinOnPartitionDimensions|
                    + |joinDescription.joinOnPartitionTimeDimensions| == 0
                  ==> r == Failure(NoColumnEqualityForJoinType(LeftOuter)))
    ensures var leftColumns := IdentifierColumns(annotatedLeftDataSet.dataSet, joinDescription.joinOnIdentifier);
            var rightColumns := IdentifierColumns(annotatedRightDataSet.dataSet, joinDescription.joinOnIdentifier);
            var validity := BaseOutputValidityConditions(annotatedLeftDataSet, annotatedRightDataSet, joinDescription);
            r.Success? <==>
              && |leftColumns| == |rightColumns|
              && validity.Success?
              && |leftColumns| + |joinDescription.joinOnPartitionDimensions|
                 + |joinDescription.joinOnPartitionTimeDimensions| > 0
    ensures r.Success? ==>
              var descriptions := BaseOutputEqualityDescriptions(
                annotatedLeftDataSet.dataSet, annotatedRightDataSet.dataSet, joinDescription);
              var validity := BaseOutputValidityConditions(annotatedLeftDataSet, annotatedRightDataSet, joinDescription);
              && validity.Success?
              && |descriptions| > 0
              && r.value.rightSource == annotatedRightDataSet.dataSet.sqlSelectNode
              && r.value.rightSourceAlias == annotatedRightDataSet.alias
              && r.value.joinType == LeftOuter
              && r.value.onCondition == ConjoinConditions(
                   ColumnEqualityConditions(annotatedLeftDataSet.alias, annotatedRightDataSet.alias, descriptions)
                   + validity.value)
  {
    var fromDataSet := annotatedLeftDataSet.dataSet;
    var fromDataSetAlias := annotatedLeftDataSet.alias;
    var rightDataSet := annotatedRightDataSet.dataSet;
    var rightDataSetAlias := annotatedRightDataSet.alias;
    var joinOnIdentifier := joinDescription.joinOnIdentifier;

    var fromDataSetIdentifierCols := ColumnNames(fromDataSet.columnAssociationsForIdentifier(joinOnIdentifier));
    var rightDataSetIdentifierCols := ColumnNames(rightDataSet.columnAssociationsForIdentifier(joinOnIdentifier));
    if |fromDataSetIdentifierCols| != |rightDataSetIdentifierCols| {
      return Failure(IdentifierColumnCountMismatch(fromDataSetIdentifierCols, rightDataSetIdentifierCols));
    }

    ghost var identifierPairs := IdentifierEqualities(fromDataSetIdentifierCols, rightDataSetIdentifierCols);
    var columnEqualityDescriptions: seq<ColumnEqualityDescription> := [];
    var idx := 0;
    while idx < |fromDataSetIdentifierCols|
      invariant 0 <= idx <= |fromDataSetIdentifierCols|
      invariant columnEqualityDescriptions == identifierPairs[..idx]
    {
      columnEqualityDescriptions := columnEqualityDescriptions
        + [ColumnEqualityDescription(fromDataSetIdentifierCols[idx], rightDataSetIdentifierCols[idx])];
      idx := idx + 1;
    }

    assert identifierPairs[..idx] == identifierPairs;
    var partitions := joinDescription.joinOnPartitionDimensions;
    ghost var partitionPairs := PartitionDimensionEqualities(fromDataSet, rightDataSet, partitions);
    var k := 0;
    while k < |partitions|
      invariant 0 <= k <= |partitions|
      invariant columnEqualityDescriptions == identifierPairs + partitionPairs[..k]
    {
      var dimensionJoinDescription := partitions[k];
      columnEqualityDescriptions := columnEqualityDescriptions + [ColumnEqualityDescription(
        fromDataSet.columnAssociationForDimension(dimensionJoinDescription.startNodeDimensionSpec).columnName,
        rightDataSet.columnAssociationForDimension(dimensionJoinDescription.nodeToJoinDimensionSpec).columnName)];
      k := k + 1;
    }

    assert partitionPairs[..k] == partitionPairs;
    var timePartitions := joinDescription.joinOnPartitionTimeDimensions;
    ghost var timePartitionPairs := PartitionTimeDimensionEqualities(fromDataSet, rightDataSet, timePartitions);
    k := 0;
    while k < |timePartitions|
      invariant 0 <= k <= |timePartitions|
      invariant columnEqualityDescriptions == identifierPairs + partitionPairs + timePartitionPairs[..k]
    {
      var timeDimensionJoinDescription := timePartitions[k];
      columnEqualityDescriptions := columnEqualityDescriptions + [ColumnEqualityDescription(
        fromDataSet.columnAssociationForTimeDimension(timeDimensionJoinDescription.startNodeTimeDimensionSpec).columnName,
        rightDataSet.columnAssociationForTimeDimension(timeDimensionJoinDescription.nodeToJoinTimeDimensionSpec).columnName)];
      k := k + 1;
    }
    assert timePartitionPairs[..k] == timePartitionPairs;
    assert columnEqualityDescriptions == BaseOutputEqualityDescriptions(fromDataSet, rightDataSet, joinDescription);

    var validityConditions: seq<SqlExpr>;
    if joinDescription.validityWindow.None? {
      validityConditions := [];
    } else {
      var window := joinDescription.validityWindow.value;
      var anchor := MetricTimeAnchor(fromDataSet.metricTimeDimensionInstances);
      if anchor.None? {
        return Failure(NoMetricTimeForValidityWindow(rightDataSetAlias, window, fromDataSetAlias));
      }
      var fromDataSetTimeDimensionName := fromDataSet.columnAssociationForTimeDimension(anchor.value).columnName;
      var windowStartDimensionName := rightDataSet.columnAssociationForTimeDimension(window.windowStartDimension).columnName;
      var windowEndDimensionName := rightDataSet.columnAssociationForTimeDimension(window.windowEndDimension).columnName;
      validityConditions := ValidityWindowOnCondition(
        fromDataSetAlias, fromDataSetTimeDimensionName, rightDataSetAlias,
        windowStartDimensionName, windowEndDimensionName);
    }

    r := MakeSqlJoinDescription(
      rightDataSet.sqlSelectNode, fromDataSetAlias, rightDataSetAlias,
      columnEqualityDescriptions, LeftOuter, validityConditions);
  }

  /** `make_cumulative_metric_time_range_join_description`: an INNER join of
      the metric dataset that keeps the metric rows whose time is at or before
      the spine time and, with a window, after the spine time minus the window
      or, with a grain-to-date instead, at or after the spine time truncated to
      that grain. */
  method MakeCumulativeMetricTimeRangeJoinDescription<Node>(
    node: JoinOverTimeRangeNode,
    metricDataSet: AnnotatedSqlDataSet<Node>,
    timeSpineDataSet: AnnotatedSqlDataSet<Node>)
    returns (r: Result<SqlJoinDescription<Node>, JoinBuildError>)
    ensures var metricName := MetricTimeColumnName(metricDataSet);
            var spineName := MetricTimeColumnName(timeSpineDataSet);
            && (metricName.Failure? ==> r == Failure(metricName.error))
            && (metricName.Success? && spineName.Failure? ==> r == Failure(spineName.error))
            && (r.Success? <==> metricName.Success? && spineName.Success?)
    ensures r.Success? ==>
              && r.value.rightSource == metricDataSet.dataSet.sqlSelectNode
              && r.value.rightSourceAlias == metricDataSet.alias
              && r.value.joinType == Inner
    ensures r.Success? ==>
              var metricTime := ColumnExpr(metricDataSet.alias, MetricTimeColumnName(metricDataSet).value);
              var spineTime := ColumnExpr(timeSpineDataSet.alias, MetricTimeColumnName(timeSpineDataSet).value);
              && r.value.onCondition.Some?
              && r.value.onCondition.value.LogicalExpr?
              && r.value.onCondition.value.operator == And
              && var args := r.value.onCondition.value.args;
              && |args| == (if node.window.Some? || node.grainToDate.Some? then 2 else 1)
              && args[0] == ComparisonExpr(metricTime, LessThanOrEquals, spineTime)
              && (node.window.Some? ==>
                    args[1] == ComparisonExpr(metricTime, GreaterThan,
                      TimeDeltaExpr(spineTime, node.window.value.count, node.window.value.granularity)))
              && (node.window.None? && node.grainToDate.Some? ==>
                    args[1] == ComparisonExpr(metricTime, GreaterThanOrEquals,
                      DateTruncExpr(spineTime, node.grainToDate.value)))
  {
    var metricTimeColumnName := MetricTimeColumnName(metricDataSet);
    if metricTimeColumnName.Failure? {
      return Failure(metricTimeColumnName.error);
    }
    var metricTimeColumnExpr := ColumnReferenceExpr(SqlColumnReference(metricDataSet.alias, metricTimeColumnName.value));
    var timeSpineColumnName := MetricTimeColumnName(timeSpineDataSet);
    if timeSpineColumnName.Failure? {
      return Failure(timeSpineColumnName.error);
    }
    var timeSpineColumnExpr := ColumnReferenceExpr(SqlColumnReference(timeSpineDataSet.alias, timeSpineColumnName.value));

    var endOfRangeComparisonExpression := ComparisonExpr(metricTimeColumnExpr, LessThanOrEquals, timeSpineColumnExpr);
    var comparisonExpressions := [endOfRangeComparisonExpression];
    if node.window.Some? {
      var startOfRangeComparisonExpr := ComparisonExpr(
        metricTimeColumnExpr, GreaterThan,
        TimeDeltaExpr(timeSpineColumnExpr, node.window.value.count, node.window.value.granularity));
      comparisonExpressions := comparisonExpressions + [startOfRangeComparisonExpr];
    } else if node.grainToDate.Some? {
      var startOfRangeComparisonExpr := ComparisonExpr(
        metricTimeColumnExpr, GreaterThanOrEquals,
        DateTruncExpr(timeSpineColumnExpr, node.grainToDate.value));
      comparisonExpressions := comparisonExpressions + [startOfRangeComparisonExpr];
    }

    var cumulativeJoinCondition := LogicalExpr(And, comparisonExpressions);
    r := Success(SqlJoinDescription(metricDataSet.dataSet.sqlSelectNode, metricDataSet.alias, Some(cumulativeJoinCondition), Inner));
  }
}
