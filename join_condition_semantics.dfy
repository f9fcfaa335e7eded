/** What the ON conditions built by the join builder mean under SQL's
    three-valued logic. */
module JoinConditionSemantics {
  import opened Wrappers
  import opened SqlPlan
  import opened SqlSemantics
  import opened SqlJoinBuilder

  /** A plain equality is TRUE only when both columns hold the same non-NULL
      value; a NULL on either side makes it UNKNOWN, so NULL rows never match. */
  lemma PlainEqualityMeaning(
    leftSourceAlias: string, rightSourceAlias: string, d: ColumnEqualityDescription, row: Row)
    requires !d.treatNullsAsEqual
    ensures var l := row(SqlColumnReference(leftSourceAlias, d.leftColumnAlias));
            var r := row(SqlColumnReference(rightSourceAlias, d.rightColumnAlias));
            Eval(ColumnEqualityCondition(leftSourceAlias, rightSourceAlias, d), row)
            == Some(Logic(if l.Null? || r.Null? then Unknown else if l == r then True else False))
  {
  }

  /** A null-safe equality is TRUE exactly when the two columns hold the same
      value, two NULLs included; a NULL against a value leaves it UNKNOWN, which
      an ON clause treats as no match. */
  lemma NullSafeEqualityMeaning(
    leftSourceAlias: string, rightSourceAlias: string, d: ColumnEqualityDescription, row: Row)
    requires d.treatNullsAsEqual
    ensures var l := row(SqlColumnReference(leftSourceAlias, d.leftColumnAlias));
            var r := row(SqlColumnReference(rightSourceAlias, d.rightColumnAlias));
            Eval(ColumnEqualityCondition(leftSourceAlias, rightSourceAlias, d), row)
            == Some(Logic(if l == r then True else if l.Null? || r.Null? then Unknown else False))
  {
    var leftColumn := ColumnExpr(leftSourceAlias, d.leftColumnAlias);
    var rightColumn := ColumnExpr(rightSourceAlias, d.rightColumnAlias);
    var equality := ComparisonExpr(leftColumn, Equals, rightColumn);
    EvalBinaryLogical(And, IsNullExpr(leftColumn), IsNullExpr(rightColumn), row);
    var bothNull := LogicalExpr(And, [IsNullExpr(leftColumn), IsNullExpr(rightColumn)]);
    EvalBinaryLogical(Or, equality, bothNull, row);
  }

  /** The validity-window conditions, conjoined, are TRUE exactly when the
      left time and the window start are known, the start is at or before the
      time, and the window end is open (NULL) or after the time. */
  lemma ValidityWindowMeaning(
    leftSourceAlias: string,
    leftSourceTimeDimensionName: string,
    rightSourceAlias: string,
    windowStartDimensionName: string,
    windowEndDimensionName: string,
    row: Row)
    ensures var t := row(SqlColumnReference(leftSourceAlias, leftSourceTimeDimensionName));
            var start := row(SqlColumnReference(rightSourceAlias, windowStartDimensionName));
            var end := row(SqlColumnReference(rightSourceAlias, windowEndDimensionName));
            var conditions := ValidityWindowOnCondition(
              leftSourceAlias, leftSourceTimeDimensionName, rightSourceAlias,
              windowStartDimensionName, windowEndDimensionName);
            Eval(LogicalExpr(And, conditions), row) == Some(Logic(True))
            <==> t.Val? && start.Val? && start.v <= t.v && (end.Null? || t.v < end.v)
  {
    var conditions := ValidityWindowOnCondition(
      leftSourceAlias, leftSourceTimeDimensionName, rightSourceAlias,
      windowStartDimensionName, windowEndDimensionName);
    var t := row(SqlColumnReference(leftSourceAlias, leftSourceTimeDimensionName));
    var start := row(SqlColumnReference(rightSourceAlias, windowStartDimensionName));
    var end := row(SqlColumnReference(rightSourceAlias, windowEndDimensionName));
    var endByTime := conditions[1].args[0];
    var endIsNull := conditions[1].args[1];
    EvalBinaryLogical(Or, endByTime, endIsNull, row);
    assert conditions == [conditions[0], conditions[1]];
    EvalBinaryLogical(And, conditions[0], conditions[1], row);
  }

  /** Conjoining never changes what a non-empty list of conditions means: a
      single condition left unwrapped evaluates like the AND of all of them. */
  lemma ConjoinConditionsMeaning(conditions: seq<SqlExpr>, row: Row)
    requires |conditions| > 0
    requires forall i :: 0 <= i < |conditions| ==> Eval(conditions[i], row).Some? && Eval(conditions[i], row).value.Logic?
    ensures var values := seq(|conditions|, i requires 0 <= i < |conditions| => Eval(conditions[i], row));
            AllTruths(values) && Eval(ConjoinConditions(conditions).value, row) == Some(Logic(AndAll(Truths(values))))
  {
  }
}
