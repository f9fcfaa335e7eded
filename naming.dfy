/** The dunder naming scheme: a column name joins the entity-link names and the
    element name with a double underscore. */
module Naming {
  import opened Wrappers
  import opened Specs

  /** The separator placed between the parts of a qualified name. */
  const Dunder: string := "__"

  /** `"__".join(parts)`. */
  function DunderJoin(parts: seq<string>): (name: string)
  {
    if |parts| == 0 then ""
    else if |parts| == 1 then parts[0]
    else parts[0] + Dunder + DunderJoin(parts[1..])
  }

  /** True when a separator starts at position `i` of `s`. */
  predicate DunderAt(s: string, i: int)
  {
    0 <= i && i + 1 < |s| && s[i] == '_' && s[i + 1] == '_'
  }

  /** A part that can be recovered from a joined name: it holds no separator and
      does not end with an underscore (which would merge with the next separator). */
  predicate IsNamePart(p: string)
  {
    (forall i :: 0 <= i < |p| ==> !DunderAt(p, i)) && (|p| == 0 || p[|p| - 1] != '_')
  }

  /** The position of the first separator in `s`, if any. */
  function FirstDunder(s: string): (r: Option<nat>)
    ensures r.None? <==> forall i :: 0 <= i < |s| ==> !DunderAt(s, i)
    ensures r.Some? ==> DunderAt(s, r.value) && forall i :: 0 <= i < r.value ==> !DunderAt(s, i)
  {
    if |s| < 2 then None
    else if s[0] == '_' && s[1] == '_' then assert DunderAt(s, 0); Some(0)
    else
      match FirstDunder(s[1..])
      case None =>
        assert forall i :: 1 <= i < |s| ==> DunderAt(s, i) == DunderAt(s[1..], i - 1);
        None
      case Some(k) =>
        assert forall i :: 1 <= i < |s| ==> DunderAt(s, i) == DunderAt(s[1..], i - 1);
        assert DunderAt(s, k + 1);
        Some(k + 1)
  }

  /** Splits a joined name at every separator, left to right; the partner of `DunderJoin`. */
  function DunderSplit(s: string): (parts: seq<string>)
    ensures |parts| >= 1
    decreases |s|
  {
    match FirstDunder(s)
    case None => [s]
    case Some(i) => [s[..i]] + DunderSplit(s[i + 2..])
  }

  /** In `a + "__" + b` with `a` a name part, the first separator is the one after `a`. */
  lemma {:induction false} FirstDunderAfterPart(a: string, b: string)
    requires IsNamePart(a)
    ensures FirstDunder(a + Dunder + b) == Some(|a|)
  {
    var s := a + Dunder + b;
    assert DunderAt(s, |a|);
    forall i | 0 <= i < |a|
      ensures !DunderAt(s, i)
    {
      if i + 1 < |a| {
        assert !DunderAt(a, i);
        assert s[i] == a[i] && s[i + 1] == a[i + 1];
      } else {
        assert s[i] == a[|a| - 1];
      }
    }
  }

  /** Splitting undoes joining, for non-empty lists of name parts. */
  lemma {:induction false} DunderSplitJoin(parts: seq<string>)
    requires |parts| >= 1
    requires forall k :: 0 <= k < |parts| ==> IsNamePart(parts[k])
    ensures DunderSplit(DunderJoin(parts)) == parts
  {
    if |parts| == 1 {
      assert IsNamePart(parts[0]);
      assert DunderJoin(parts) == parts[0];
    } else {
      var rest := DunderJoin(parts[1..]);
      var s := parts[0] + Dunder + rest;
      assert DunderJoin(parts) == s;
      FirstDunderAfterPart(parts[0], rest);
      assert s[..|parts[0]|] == parts[0];
      assert s[|parts[0]| + 2..] == rest;
      DunderSplitJoin(parts[1..]);
      assert DunderSplit(s) == [parts[0]] + parts[1..];
    }
  }

  /** Two non-empty lists of name parts that join to the same name are equal. */
  lemma DunderJoinInjective(p: seq<string>, q: seq<string>)
    requires |p| >= 1 && |q| >= 1
    requires forall k :: 0 <= k < |p| ==> IsNamePart(p[k])
    requires forall k :: 0 <= k < |q| ==> IsNamePart(q[k])
    requires DunderJoin(p) == DunderJoin(q)
    ensures p == q
  {
    DunderSplitJoin(p);
    DunderSplitJoin(q);
  }

  /** ASCII lower-casing of one character. */
  function LowerChar(c: char): char
  {
    if 'A' <= c <= 'Z' then (c as int + 32) as char else c
  }

  /** ASCII stand-in for Python's `str.lower`. */
  function Lower(s: string): (r: string)
    ensures |r| == |s|
  {
    seq(|s|, i requires 0 <= i < |s| => LowerChar(s[i]))
  }

  /** Stand-in for `StructuredLinkableSpecName(...).qualified_name`. The base
      (entity-link names, then the element name, joined with the separator) is
      the naming scheme; the granularity and date-part suffixes are a labelled
      guess, since that class is not part of this model. */
  function QualifiedName(
    entityLinkNames: seq<string>,
    elementName: string,
    timeGranularity: Option<TimeGranularity>,
    datePart: Option<DatePart>): (name: string)
  {
    var items := entityLinkNames + [elementName];
    if datePart.Some? then DunderJoin(items + ["extract_" + DatePartName(datePart.value)])
    else if timeGranularity.Some? then DunderJoin(items + [GranularityName(timeGranularity.value)])
    else DunderJoin(items)
  }
}
