/** A reference semantics for the fragment of SQL that join conditions use:
    column references, comparisons, IS NULL, AND and OR under SQL's three-valued
    logic. Time arithmetic (time deltas, date truncation) is not evaluated. */
module SqlSemantics {
  import opened Wrappers
  import opened SqlPlan

  /** A column value: NULL, or a value from a totally ordered domain. */
  datatype Datum = Null | Val(v: int)

  datatype Truth = True | False | Unknown

  /** What an expression evaluates to: a column value or a truth value. */
  datatype Outcome = Scalar(datum: Datum) | Logic(truth: Truth)

  /** The values of the columns of the row pair being joined. */
  type Row = SqlColumnReference -> Datum

  function CompareValues(op: SqlComparison, a: int, b: int): bool
  {
    match op
    case LessThan => a < b
    case GreaterThan => a > b
    case LessThanOrEquals => a <= b
    case GreaterThanOrEquals => a >= b
    case Equals => a == b
    case NotEquals => a != b
  }

  function AndTruth(a: Truth, b: Truth): Truth
  {
    if a == False || b == False then False
    else if a == True && b == True then True
    else Unknown
  }

  function OrTruth(a: Truth, b: Truth): Truth
  {
    if a == True || b == True then True
    else if a == False && b == False then False
    else Unknown
  }

  /** AND over any number of truth values (TRUE for none). */
  function AndAll(ts: seq<Truth>): Truth
  {
    if |ts| == 0 then True else AndTruth(ts[0], AndAll(ts[1..]))
  }

  /** OR over any number of truth values (FALSE for none). */
  function OrAll(ts: seq<Truth>): Truth
  {
    if |ts| == 0 then False else OrTruth(ts[0], OrAll(ts[1..]))
  }

  predicate AllTruths(vs: seq<Option<Outcome>>)
  {
    forall i :: 0 <= i < |vs| ==> vs[i].Some? && vs[i].value.Logic?
  }

  function Truths(vs: seq<Option<Outcome>>): seq<Truth>
    requires AllTruths(vs)
  {
    seq(|vs|, i requires 0 <= i < |vs| => vs[i].value.truth)
  }

  function Combine(op: SqlLogicalOperator, vs: seq<Option<Outcome>>): Option<Outcome>
  {
    if !AllTruths(vs) then None
    else if op == And then Some(Logic(AndAll(Truths(vs))))
    else Some(Logic(OrAll(Truths(vs))))
  }

  /** The value of `e` on `row`, or None outside the evaluated fragment. */
  function Eval(e: SqlExpr, row: Row): Option<Outcome>
    decreases e
  {
    match e
    case ColumnReferenceExpr(c) => Some(Scalar(row(c)))
    case ComparisonExpr(l, op, r) =>
      var lv := Eval(l, row);
      var rv := Eval(r, row);
      if lv.Some? && lv.value.Scalar? && rv.Some? && rv.value.Scalar? then
        var a := lv.value.datum;
        var b := rv.value.datum;
        if a.Null? || b.Null? then Some(Logic(Unknown))
        else Some(Logic(if CompareValues(op, a.v, b.v) then True else False))
      else None
    case IsNullExpr(a) =>
      var av := Eval(a, row);
      if av.None? then None
      else if av.value == Scalar(Null) || av.value == Logic(Unknown) then Some(Logic(True))
      else Some(Logic(False))
    case LogicalExpr(op, args) =>
      Combine(op, seq(|args|, i requires 0 <= i < |args| => Eval(args[i], row)))
    case TimeDeltaExpr(_, _, _) => None
    case DateTruncExpr(_, _) => None
  }

  /** A two-argument AND or OR of truth values combines them with the binary
      three-valued operator. */
  lemma {:induction false} EvalBinaryLogical(op: SqlLogicalOperator, a: SqlExpr, b: SqlExpr, row: Row)
    requires Eval(a, row).Some? && Eval(a, row).value.Logic?
    requires Eval(b, row).Some? && Eval(b, row).value.Logic?
    ensures var ta := Eval(a, row).value.truth;
            var tb := Eval(b, row).value.truth;
            Eval(LogicalExpr(op, [a, b]), row)
            == Some(Logic(if op == And then AndTruth(ta, tb) else OrTruth(ta, tb)))
  {
    var args := [a, b];
    var vs := seq(|args|, i requires 0 <= i < |args| => Eval(args[i], row));
    assert vs == [Eval(a, row), Eval(b, row)];
    var ta := Eval(a, row).value.truth;
    var tb := Eval(b, row).value.truth;
    assert Truths(vs) == [ta, tb];
    assert Truths(vs)[1..] == [tb];
    assert AndAll([tb]) == AndTruth(tb, AndAll([]));
    assert OrAll([tb]) == OrTruth(tb, OrAll([]));
  }
}
