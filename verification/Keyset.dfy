/** The order behind keyset pagination: mixed ascending and descending columns, the boundary filter that
    selects the rows past a boundary, and the ordering a query is given. */
module Keyset {

  /** CursorValueKind. */
  datatype Kind = TEXT | INTEGER | DATETIME | UUID

  /** A column value, by its place in the database's order of its kind. */
  datatype Value = Value(kind: Kind, rank: int)

  datatype Column = Column(field: string, kind: Kind, descending: bool)

  datatype Row = Row(id: nat, fields: map<string, Value>)

  type Boundary = seq<Value>

  /** The fixed columns of a read path name fields of their kind. */
  predicate HasColumns(row: Row, columns: seq<Column>) {
    forall i :: 0 <= i < |columns| ==> columns[i].field in row.fields && row.fields[columns[i].field].kind == columns[i].kind
  }

  predicate Typed(values: Boundary, columns: seq<Column>) {
    |values| == |columns| && forall i :: 0 <= i < |columns| ==> values[i].kind == columns[i].kind
  }

  function Key(row: Row, columns: seq<Column>): (k: Boundary)
    requires HasColumns(row, columns)
    ensures Typed(k, columns)
  {
    seq(|columns|, i requires 0 <= i < |columns| => row.fields[columns[i].field])
  }

  // The order of the columns

  predicate ColumnBefore(c: Column, a: Value, b: Value) {
    if c.descending then b.rank < a.rank else a.rank < b.rank
  }

  predicate EqualUpTo(a: Boundary, b: Boundary, n: nat)
    requires n <= |a| && n <= |b|
  {
    forall k :: 0 <= k < n ==> a[k].rank == b[k].rank
  }

  /** The first column that tells the two apart puts `a` first. */
  predicate DecidedAt(columns: seq<Column>, a: Boundary, b: Boundary, j: nat)
    requires |a| == |b| == |columns| && j < |columns|
  {
    EqualUpTo(a, b, j) && ColumnBefore(columns[j], a[j], b[j])
  }

  ghost predicate Precedes(columns: seq<Column>, a: Boundary, b: Boundary)
    requires |a| == |b| == |columns|
  {
    exists j :: 0 <= j < |columns| && DecidedAt(columns, a, b, j)
  }

  lemma PrecedesTransitive(columns: seq<Column>, a: Boundary, b: Boundary, c: Boundary)
    requires |a| == |b| == |c| == |columns| && Precedes(columns, a, b) && Precedes(columns, b, c)
    ensures Precedes(columns, a, c)
  {
    var i :| 0 <= i < |columns| && DecidedAt(columns, a, b, i);
    var j :| 0 <= j < |columns| && DecidedAt(columns, b, c, j);
    assert DecidedAt(columns, a, c, if i <= j then i else j);
  }

  lemma PrecedesAsymmetric(columns: seq<Column>, a: Boundary, b: Boundary)
    requires |a| == |b| == |columns| && Precedes(columns, a, b)
    ensures !Precedes(columns, b, a) && a != b
  {
    var i :| 0 <= i < |columns| && DecidedAt(columns, a, b, i);
    forall j: nat | j < |columns| ensures !DecidedAt(columns, b, a, j) {
      assert j < i && EqualUpTo(b, a, j) ==> a[j].rank == b[j].rank;
    }
  }

  lemma {:induction false} FirstDifference(a: Boundary, b: Boundary) returns (j: nat)
    requires |a| == |b| && a != b
    ensures j < |a| && a[j] != b[j] && forall k :: 0 <= k < j ==> a[k] == b[k]
    decreases |a|
  {
    if a[0] != b[0] { return 0; }
    assert a == [a[0]] + a[1..] && b == [b[0]] + b[1..];
    j := FirstDifference(a[1..], b[1..]);
    j := j + 1;
    assert forall k :: 0 < k < j ==> a[k] == a[1..][k - 1] && b[k] == b[1..][k - 1];
  }

  /** Different keys are comparable, whatever the directions. */
  lemma PrecedesTotal(columns: seq<Column>, a: Boundary, b: Boundary)
    requires Typed(a, columns) && Typed(b, columns) && a != b
    ensures Precedes(columns, a, b) || Precedes(columns, b, a)
  {
    var j := FirstDifference(a, b);
    assert DecidedAt(columns, a, b, j) || DecidedAt(columns, b, a, j);
  }

  // Query conditions

  /** A condition; `Empty` is Django's `Q()`, the identity of both operators. */
  datatype Q = Empty | Greater(field: string, value: Value) | Less(field: string, value: Value) | Equal(field: string, value: Value)
    | Both(left: Q, right: Q) | Either(left: Q, right: Q)

  function And(p: Q, q: Q): Q {
    if p.Empty? then q else if q.Empty? then p else Both(p, q)
  }

  function Or(p: Q, q: Q): Q {
    if p.Empty? then q else if q.Empty? then p else Either(p, q)
  }

  predicate Holds(q: Q, row: Row) {
    match q
    case Empty => true
    case Greater(f, v) => f in row.fields && v.rank < row.fields[f].rank
    case Less(f, v) => f in row.fields && row.fields[f].rank < v.rank
    case Equal(f, v) => f in row.fields && v.rank == row.fields[f].rank
    case Both(p, r) => Holds(p, row) && Holds(r, row)
    case Either(p, r) => Holds(p, row) || Holds(r, row)
  }

  /** Past the boundary, in the direction of travel. */
  ghost predicate Past(columns: seq<Column>, row: Row, boundary: Boundary, previous: bool)
    requires HasColumns(row, columns) && |boundary| == |columns|
  {
    if previous then Precedes(columns, Key(row, columns), boundary) else Precedes(columns, boundary, Key(row, columns))
  }

  ghost predicate PastWithin(columns: seq<Column>, row: Row, boundary: Boundary, previous: bool, n: nat)
    requires HasColumns(row, columns) && |boundary| == |columns| && n <= |columns|
  {
    exists j :: 0 <= j < n && (if previous then DecidedAt(columns, Key(row, columns), boundary, j)
                               else DecidedAt(columns, boundary, Key(row, columns), j))
  }

  /** `_boundary_filter`: the condition selects exactly the rows strictly past the boundary. */
  method BoundaryFilter(columns: seq<Column>, values: Boundary, previous: bool) returns (result: Q)
    requires |values| == |columns|
    ensures result.Empty? <==> columns == []
    ensures columns != [] ==> forall row :: HasColumns(row, columns) ==> (Holds(result, row) <==> Past(columns, row, values, previous))
  {
    result := Empty;
    var equalPrefix := Empty;
    for i := 0 to |columns|
      invariant result.Empty? <==> i == 0
      invariant forall row :: HasColumns(row, columns) ==> (Holds(equalPrefix, row) <==> EqualUpTo(Key(row, columns), values, i))
      invariant i > 0 ==> forall row :: HasColumns(row, columns) ==> (Holds(result, row) <==> PastWithin(columns, row, values, previous, i))
    {
      var column, value := columns[i], values[i];
      var greaterThan := column.descending == previous;
      var comparison := if greaterThan then Greater(column.field, value) else Less(column.field, value);
      ghost var before, prefix := result, equalPrefix;
      result := Or(result, And(equalPrefix, comparison));
      equalPrefix := And(equalPrefix, Equal(column.field, value));
      forall row | HasColumns(row, columns) ensures Holds(equalPrefix, row) <==> EqualUpTo(Key(row, columns), values, i + 1) {
        assert Holds(prefix, row) <==> EqualUpTo(Key(row, columns), values, i);
      }
      forall row | HasColumns(row, columns) ensures Holds(result, row) <==> PastWithin(columns, row, values, previous, i + 1) {
        OneMoreColumn(columns, row, values, previous, i, before, prefix);
      }
    }
  }

  lemma OneMoreColumn(columns: seq<Column>, row: Row, values: Boundary, previous: bool, i: nat, before: Q, prefix: Q)
    requires |values| == |columns| && i < |columns| && HasColumns(row, columns)
    requires before.Empty? <==> i == 0
    requires i > 0 ==> (Holds(before, row) <==> PastWithin(columns, row, values, previous, i))
    requires Holds(prefix, row) <==> EqualUpTo(Key(row, columns), values, i)
    ensures var comparison := if columns[i].descending == previous then Greater(columns[i].field, values[i]) else Less(columns[i].field, values[i]);
            Holds(Or(before, And(prefix, comparison)), row) <==> PastWithin(columns, row, values, previous, i + 1)
  {
    var key := Key(row, columns);
    var comparison := if columns[i].descending == previous then Greater(columns[i].field, values[i]) else Less(columns[i].field, values[i]);
    var here := if previous then DecidedAt(columns, key, values, i) else DecidedAt(columns, values, key, i);
    assert Holds(And(prefix, comparison), row) <==> here;
    assert PastWithin(columns, row, values, previous, i + 1) <==> PastWithin(columns, row, values, previous, i) || here;
  }

  // Query orderings

  /** One term of `order_by`: a field, with "-" when descending. */
  datatype Term = Term(field: string, descending: bool)

  /** `_ordering`. */
  function Ordering(columns: seq<Column>, reverse: bool): (r: seq<Term>)
    ensures |r| == |columns|
  {
    seq(|columns|, i requires 0 <= i < |columns| => Term(columns[i].field, columns[i].descending != reverse))
  }

  predicate TermDecides(ordering: seq<Term>, r: Row, s: Row, j: nat)
    requires j < |ordering| && forall k :: 0 <= k < |ordering| ==> ordering[k].field in r.fields && ordering[k].field in s.fields
  {
    && (forall k :: 0 <= k < j ==> r.fields[ordering[k].field].rank == s.fields[ordering[k].field].rank)
    && var a, b := r.fields[ordering[j].field].rank, s.fields[ordering[j].field].rank;
       if ordering[j].descending then b < a else a < b
  }

  /** The order in which the database returns rows. */
  predicate Sorts(ordering: seq<Term>, r: Row, s: Row)
    requires forall k :: 0 <= k < |ordering| ==> ordering[k].field in r.fields && ordering[k].field in s.fields
  {
    exists j :: 0 <= j < |ordering| && TermDecides(ordering, r, s, j)
  }

  ghost predicate Lt(columns: seq<Column>, r: Row, s: Row)
    requires HasColumns(r, columns) && HasColumns(s, columns)
  {
    Precedes(columns, Key(r, columns), Key(s, columns))
  }

  /** The forward ordering is the order of the columns, and the reversed one its exact inverse. */
  lemma OrderingSorts(columns: seq<Column>, reverse: bool, r: Row, s: Row)
    requires HasColumns(r, columns) && HasColumns(s, columns)
    ensures Sorts(Ordering(columns, reverse), r, s) <==> if reverse then Lt(columns, s, r) else Lt(columns, r, s)
  {
    var ordering := Ordering(columns, reverse);
    var a, b := Key(r, columns), Key(s, columns);
    assert forall k :: 0 <= k < |columns| ==> a[k] == r.fields[ordering[k].field] && b[k] == s.fields[ordering[k].field];
    forall j: nat | j < |columns| ensures TermDecides(ordering, r, s, j) <==> if reverse then DecidedAt(columns, b, a, j) else DecidedAt(columns, a, b, j) {
      assert EqualUpTo(a, b, j) <==> EqualUpTo(b, a, j);
      assert EqualUpTo(a, b, j) <==> forall k :: 0 <= k < j ==> r.fields[ordering[k].field].rank == s.fields[ordering[k].field].rank;
    }
  }
}
