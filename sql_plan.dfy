/** The SQL expression and join nodes that the join builder constructs. They are
    constructors only; rendering them to SQL text is not part of this model. */
module SqlPlan {
  import opened Wrappers
  import opened Specs

  datatype SqlColumnReference = SqlColumnReference(tableAlias: string, columnName: string)

  datatype SqlComparison =
    | LessThan | GreaterThan | LessThanOrEquals | GreaterThanOrEquals | Equals | NotEquals

  datatype SqlLogicalOperator = And | Or

  datatype SqlExpr =
    | ColumnReferenceExpr(columnReference: SqlColumnReference)
    | ComparisonExpr(left: SqlExpr, comparison: SqlComparison, right: SqlExpr)
    | IsNullExpr(arg: SqlExpr)
    | LogicalExpr(operator: SqlLogicalOperator, args: seq<SqlExpr>)
    | TimeDeltaExpr(deltaArg: SqlExpr, count: int, granularity: TimeGranularity)
    | DateTruncExpr(truncArg: SqlExpr, timeGranularity: TimeGranularity)

  /** `alias.column` as an expression. */
  function ColumnExpr(tableAlias: string, columnName: string): SqlExpr
  {
    ColumnReferenceExpr(SqlColumnReference(tableAlias, columnName))
  }

  datatype SqlJoinType = LeftOuter | FullOuter | Inner | CrossJoin

  /** One join of a select statement; `Node` is the opaque type of the joined sub-select. */
  datatype SqlJoinDescription<Node> = SqlJoinDescription(
    rightSource: Node,
    rightSourceAlias: string,
    onCondition: Option<SqlExpr>,
    joinType: SqlJoinType)
}
