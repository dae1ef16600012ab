/** `paginate_keyset`: one page of at most `pageSize` rows, found by one sentinel row more. */
module Pagination {
  import opened Wrappers
  import opened Keyset

  datatype Error = ValueError | InvalidCursor

  // Cursors

  const CURSOR_MAX_LENGTH: nat := 2_048
  const CURSOR_VERSION: int := 1

  datatype Salt = Salt(namespace: string, contextDigest: nat)

  datatype Payload = Payload(version: int, direction: string, values: seq<Value>)

  /** A text that verifies under a salt, or any other. */
  datatype Cursor = Signed(salt: Salt, payload: Payload, signedAt: int) | Unsigned(length: nat)

  /** Digest and text length, which the model leaves open. */
  datatype Signer = Signer(digest: string -> nat, length: Payload -> nat)

  function Length(signer: Signer, cursor: Cursor): nat {
    match cursor
    case Signed(_, payload, _) => signer.length(payload)
    case Unsigned(length) => length
  }

  /** The validated direction and boundary of a cursor. */
  datatype Visit = Visit(previous: bool, boundary: Boundary)

  function DirectionText(previous: bool): string {
    if previous then "previous" else "next"
  }

  function EncodeCursor(signer: Signer, visit: Visit, namespace: string, context: string, now: int): Cursor {
    Signed(Salt(namespace, signer.digest(context)), Payload(CURSOR_VERSION, DirectionText(visit.previous), visit.boundary), now)
  }

  function DecodeCursor(signer: Signer, cursor: Cursor, columns: seq<Column>, namespace: string, context: string, maxAge: int, now: int)
    : (r: Result<Visit, Error>)
    ensures r.Ok? ==> Typed(r.value.boundary, columns)
  {
    if !(1 <= Length(signer, cursor) <= CURSOR_MAX_LENGTH) then Err(InvalidCursor)
    else if cursor.Unsigned? || cursor.salt != Salt(namespace, signer.digest(context)) then Err(InvalidCursor)
    else if now - cursor.signedAt > maxAge then Err(InvalidCursor)
    else
      var p := cursor.payload;
      if p.version != CURSOR_VERSION || (p.direction != "next" && p.direction != "previous") then Err(InvalidCursor)
      else if |p.values| != |columns| then Err(InvalidCursor)
      else if exists i :: 0 <= i < |columns| && p.values[i].kind != columns[i].kind then Err(InvalidCursor)
      else Ok(Visit(p.direction == "previous", p.values))
  }

  /** An issued cursor comes back as what was put in exactly on the same read path and context, while it
      is fresh and its text is not too long; otherwise it is an invalid cursor. */
  lemma CursorRoundTrip(signer: Signer, visit: Visit, columns: seq<Column>, namespace: string, context: string, issued: int,
                        namespace': string, context': string, maxAge: int, now: int)
    requires Typed(visit.boundary, columns)
    ensures var r := DecodeCursor(signer, EncodeCursor(signer, visit, namespace, context, issued), columns, namespace', context', maxAge, now);
            if namespace == namespace' && signer.digest(context) == signer.digest(context') && now - issued <= maxAge
               && 1 <= signer.length(Payload(CURSOR_VERSION, DirectionText(visit.previous), visit.boundary)) <= CURSOR_MAX_LENGTH
            then r == Ok(visit) else r == Err(InvalidCursor)
  {
    assert "next"[0] != "previous"[0];
  }

  // The query

  predicate AllHaveColumns(columns: seq<Column>, rows: set<Row>) {
    forall r :: r in rows ==> HasColumns(r, columns)
  }

  /** What the fixed columns of a read path have to provide: ids and keys name the rows. */
  ghost predicate TableOk(columns: seq<Column>, rows: set<Row>) {
    && AllHaveColumns(columns, rows)
    && (forall r, s :: r in rows && s in rows && r.id == s.id ==> r == s)
    && (forall r, s {:trigger Key(r, columns), Key(s, columns)} :: r in rows && s in rows && Key(r, columns) == Key(s, columns) ==> r == s)
  }

  /** In the direction of travel `r` comes before `s`. */
  ghost predicate Ahead(columns: seq<Column>, reverse: bool, r: Row, s: Row)
    requires HasColumns(r, columns) && HasColumns(s, columns)
  {
    if reverse then Lt(columns, s, r) else Lt(columns, r, s)
  }

  /** `order_by(...)[:limit]`: rows that tie come in any order. */
  ghost predicate IsSlice(columns: seq<Column>, reverse: bool, rows: set<Row>, limit: nat, fetched: seq<Row>)
    requires AllHaveColumns(columns, rows)
  {
    && |fetched| == (if limit <= |rows| then limit else |rows|)
    && (forall i :: 0 <= i < |fetched| ==> fetched[i] in rows)
    && (forall i, j :: 0 <= i < j < |fetched| ==> fetched[i] != fetched[j] && !Ahead(columns, reverse, fetched[j], fetched[i]))
    && (forall r, i :: r in rows && r !in fetched && 0 <= i < |fetched| ==> !Ahead(columns, reverse, r, fetched[i]))
  }

  method OrderedSlice(columns: seq<Column>, reverse: bool, rows: set<Row>, limit: nat) returns (fetched: seq<Row>)
    requires AllHaveColumns(columns, rows)
    ensures IsSlice(columns, reverse, rows, limit, fetched)
  {
    fetched := [];
    var todo := rows;
    while |fetched| < limit && todo != {}
      invariant todo <= rows && |fetched| <= limit && |fetched| + |todo| == |rows|
      invariant forall i :: 0 <= i < |fetched| ==> fetched[i] in rows && fetched[i] !in todo
      invariant forall i, j :: 0 <= i < j < |fetched| ==> fetched[i] != fetched[j] && !Ahead(columns, reverse, fetched[j], fetched[i])
      invariant forall r :: r in rows ==> r in todo || r in fetched
      invariant forall i, r :: 0 <= i < |fetched| && r in todo ==> !Ahead(columns, reverse, r, fetched[i])
      decreases todo
    {
      var r := FirstOf(columns, reverse, todo);
      fetched := fetched + [r];
      todo := todo - {r};
    }
  }

  method FirstOf(columns: seq<Column>, reverse: bool, rows: set<Row>) returns (first: Row)
    requires AllHaveColumns(columns, rows) && rows != {}
    ensures first in rows && forall r :: r in rows ==> !Ahead(columns, reverse, r, first)
  {
    var ordering := Ordering(columns, reverse);
    first :| first in rows;
    AheadAsymmetric(columns, reverse, first, first);
    var todo := rows - {first};
    while todo != {}
      invariant todo <= rows && first in rows
      invariant forall r :: r in rows && r !in todo ==> !Ahead(columns, reverse, r, first)
      decreases todo
    {
      var r :| r in todo;
      OrderingSorts(columns, reverse, r, first);
      if Sorts(ordering, r, first) {
        forall s | s in rows && s !in todo ensures !Ahead(columns, reverse, s, r) {
          AheadTransitive(columns, reverse, s, r, first);
        }
        AheadAsymmetric(columns, reverse, r, r);
        first := r;
      }
      todo := todo - {r};
    }
  }

  lemma AheadTransitive(columns: seq<Column>, reverse: bool, r: Row, s: Row, t: Row)
    requires HasColumns(r, columns) && HasColumns(s, columns) && HasColumns(t, columns)
    ensures Ahead(columns, reverse, r, s) && Ahead(columns, reverse, s, t) ==> Ahead(columns, reverse, r, t)
  {
    if Ahead(columns, reverse, r, s) && Ahead(columns, reverse, s, t) {
      var a, b, c := Key(r, columns), Key(s, columns), Key(t, columns);
      if reverse { PrecedesTransitive(columns, c, b, a); } else { PrecedesTransitive(columns, a, b, c); }
    }
  }

  lemma AheadAsymmetric(columns: seq<Column>, reverse: bool, r: Row, s: Row)
    requires HasColumns(r, columns) && HasColumns(s, columns)
    ensures Ahead(columns, reverse, r, s) ==> !Ahead(columns, reverse, s, r)
    ensures !Ahead(columns, reverse, r, r)
  {
    var a, b := Key(r, columns), Key(s, columns);
    if Precedes(columns, a, b) { PrecedesAsymmetric(columns, a, b); }
    if Precedes(columns, b, a) { PrecedesAsymmetric(columns, b, a); }
    if Precedes(columns, a, a) { PrecedesAsymmetric(columns, a, a); }
  }

  lemma AheadTotal(columns: seq<Column>, reverse: bool, rows: set<Row>, r: Row, s: Row)
    requires TableOk(columns, rows) && r in rows && s in rows && r != s
    ensures Ahead(columns, reverse, r, s) || Ahead(columns, reverse, s, r)
  {
    PrecedesTotal(columns, Key(r, columns), Key(s, columns));
  }

  // One page

  datatype Page = Page(items: seq<Row>, previousCursor: Option<Cursor>, nextCursor: Option<Cursor>)

  ghost function Selected(columns: seq<Column>, table: set<Row>, visit: Option<Visit>): set<Row>
    requires AllHaveColumns(columns, table) && (visit.Some? ==> |visit.value.boundary| == |columns|)
  {
    set r | r in table && (visit.Some? ==> Past(columns, r, visit.value.boundary, visit.value.previous))
  }

  function Reversed(rows: seq<Row>): (r: seq<Row>)
    ensures |r| == |rows| && forall i :: 0 <= i < |rows| ==> r[i] == rows[|rows| - 1 - i]
  {
    seq(|rows|, i requires 0 <= i < |rows| => rows[|rows| - 1 - i])
  }

  predicate Backwards(visit: Option<Visit>) {
    visit.Some? && visit.value.previous
  }

  /** The items of the page, from the fetched rows. */
  function ItemsOf(visit: Option<Visit>, size: nat, fetched: seq<Row>): seq<Row> {
    var kept := if |fetched| > size then fetched[..size] else fetched;
    if Backwards(visit) then Reversed(kept) else kept
  }

  ghost predicate IsFetch(columns: seq<Column>, table: set<Row>, visit: Option<Visit>, size: nat, fetched: seq<Row>)
    requires AllHaveColumns(columns, table) && (visit.Some? ==> |visit.value.boundary| == |columns|)
  {
    IsSlice(columns, Backwards(visit), Selected(columns, table, visit), size + 1, fetched)
  }

  /** Where the next cursor of the page points, if there is one. */
  function NextOffer(columns: seq<Column>, visit: Option<Visit>, size: nat, fetched: seq<Row>): Option<Boundary>
    requires forall i :: 0 <= i < |fetched| ==> HasColumns(fetched[i], columns)
  {
    var items := ItemsOf(visit, size, fetched);
    if Backwards(visit) || |fetched| > size then
      if items != [] then Some(Key(items[|items| - 1], columns)) else if visit.Some? then Some(visit.value.boundary) else None
    else None
  }

  function PreviousOffer(columns: seq<Column>, visit: Option<Visit>, size: nat, fetched: seq<Row>): Option<Boundary>
    requires forall i :: 0 <= i < |fetched| ==> HasColumns(fetched[i], columns)
  {
    var items := ItemsOf(visit, size, fetched);
    if visit.Some? && (!visit.value.previous || |fetched| > size) then
      if items != [] then Some(Key(items[0], columns)) else Some(visit.value.boundary)
    else None
  }

  /** `_model_boundary`. */
  method ModelBoundary(row: Row, columns: seq<Column>) returns (values: Boundary)
    requires HasColumns(row, columns)
    ensures values == Key(row, columns)
  {
    values := [];
    for i := 0 to |columns|
      invariant |values| == i && forall k :: 0 <= k < i ==> values[k] == row.fields[columns[k].field]
    {
      values := values + [row.fields[columns[i].field]];
    }
  }

  ghost predicate Rejected(columns: seq<Column>, namespace: string, pageSize: int) {
    columns == [] || !(1 <= pageSize <= 100) || !(1 <= |namespace| <= 100)
  }

  /** The visit a request asks for; an empty cursor text is no cursor. */
  ghost function Decoded(signer: Signer, cursor: Option<Cursor>, columns: seq<Column>, namespace: string, context: string, maxAge: int, now: int)
    : (r: Result<Option<Visit>, Error>)
    ensures r.Ok? && r.value.Some? ==> |r.value.value.boundary| == |columns|
  {
    if cursor.None? || Length(signer, cursor.value) == 0 then Ok(None)
    else
      match DecodeCursor(signer, cursor.value, columns, namespace, context, maxAge, now)
      case Ok(v) => Ok(Some(v))
      case Err(e) => Err(e)
  }

  ghost function Offer(signer: Signer, offer: Option<Boundary>, previous: bool, namespace: string, context: string, now: int): Option<Cursor> {
    if offer.Some? then Some(EncodeCursor(signer, Visit(previous, offer.value), namespace, context, now)) else None
  }

  /** The filtered, ordered and bounded query of one page. */
  method FetchRows(table: set<Row>, columns: seq<Column>, visit: Option<Visit>, pageSize: nat) returns (fetched: seq<Row>)
    requires columns != [] && AllHaveColumns(columns, table) && (visit.Some? ==> |visit.value.boundary| == |columns|)
    ensures IsFetch(columns, table, visit, pageSize, fetched)
    ensures forall i :: 0 <= i < |fetched| ==> fetched[i] in table
  {
    var previous := visit.Some? && visit.value.previous;
    var rows := table;
    if visit.Some? {
      var condition := BoundaryFilter(columns, visit.value.boundary, previous);
      rows := set row | row in table && Holds(condition, row);
    }
    assert rows == Selected(columns, table, visit);
    fetched := OrderedSlice(columns, previous, rows, pageSize + 1);
    assert forall i :: 0 <= i < |fetched| ==> fetched[i] in rows;
  }

  /** The boundaries the page offers to go on from. */
  method Navigation(columns: seq<Column>, visit: Option<Visit>, items: seq<Row>, hasSentinel: bool, ghost pageSize: nat, ghost fetched: seq<Row>)
    returns (previousOffer: Option<Boundary>, nextOffer: Option<Boundary>)
    requires forall i :: 0 <= i < |fetched| ==> HasColumns(fetched[i], columns)
    requires items == ItemsOf(visit, pageSize, fetched) && hasSentinel == (|fetched| > pageSize) && pageSize >= 1
    ensures previousOffer == PreviousOffer(columns, visit, pageSize, fetched)
    ensures nextOffer == NextOffer(columns, visit, pageSize, fetched)
  {
    var previous := visit.Some? && visit.value.previous;
    var hasPrevious := (visit.Some? && !previous) || (previous && hasSentinel);
    var hasNext := (!previous && hasSentinel) || (visit.Some? && previous);
    var previousBoundary: Option<Boundary>, nextBoundary: Option<Boundary>;
    if items != [] {
      var first := ModelBoundary(items[0], columns);
      var last := ModelBoundary(items[|items| - 1], columns);
      previousBoundary, nextBoundary := Some(first), Some(last);
    } else {
      var boundary := if visit.Some? then Some(visit.value.boundary) else None;
      previousBoundary, nextBoundary := boundary, boundary;
    }
    previousOffer := if hasPrevious then previousBoundary else None;
    nextOffer := if hasNext then nextBoundary else None;
  }

  /** `paginate_keyset`; `fetched` are the rows of its query. */
  method PaginateKeyset(signer: Signer, table: set<Row>, columns: seq<Column>, namespace: string, cursor: Option<Cursor>, context: string,
                        pageSize: int, maxAge: int, now: int) returns (r: Result<Page, Error>, ghost fetched: seq<Row>)
    requires AllHaveColumns(columns, table)
    ensures r == Err(ValueError) <==> Rejected(columns, namespace, pageSize)
    ensures columns != [] && 1 <= pageSize <= 100 && 1 <= |namespace| <= 100 && cursor.None? ==> r.Ok?
    ensures r.Ok? ==> 1 <= pageSize <= 100 && |r.value.items| <= pageSize
    ensures r == Err(InvalidCursor) <==>
              !Rejected(columns, namespace, pageSize) && Decoded(signer, cursor, columns, namespace, context, maxAge, now).Err?
    ensures r.Ok? ==>
              var decoded := Decoded(signer, cursor, columns, namespace, context, maxAge, now);
              && decoded.Ok? && pageSize >= 1
              && IsFetch(columns, table, decoded.value, pageSize, fetched)
              && (forall i :: 0 <= i < |fetched| ==> fetched[i] in table)
              && r.value.items == ItemsOf(decoded.value, pageSize, fetched)
              && r.value.nextCursor == Offer(signer, NextOffer(columns, decoded.value, pageSize, fetched), false, namespace, context, now)
              && r.value.previousCursor == Offer(signer, PreviousOffer(columns, decoded.value, pageSize, fetched), true, namespace, context, now)
  {
    fetched := [];
    if columns == [] || !(1 <= pageSize <= 100) || !(1 <= |namespace| <= 100) { return Err(ValueError), fetched; }
    var decoded: Option<Visit> := None;
    if cursor.Some? && Length(signer, cursor.value) != 0 {
      var d := DecodeCursor(signer, cursor.value, columns, namespace, context, maxAge, now);
      if d.Err? { return Err(InvalidCursor), fetched; }
      decoded := Some(d.value);
    }
    var found := FetchRows(table, columns, decoded, pageSize);
    fetched := found;
    var items := ItemsOf(decoded, pageSize, found);
    var previousOffer, nextOffer := Navigation(columns, decoded, items, |found| > pageSize, pageSize, found);
    var previousCursor := if previousOffer.Some? then Some(EncodeCursor(signer, Visit(true, previousOffer.value), namespace, context, now)) else None;
    var nextCursor := if nextOffer.Some? then Some(EncodeCursor(signer, Visit(false, nextOffer.value), namespace, context, now)) else None;
    return Ok(Page(items, previousCursor, nextCursor)), fetched;
  }
}
