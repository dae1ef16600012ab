/** What a reader of pages sees: nothing twice, nothing skipped, in order, and back again. */
module PaginationTheorems {
  import opened Wrappers
  import opened Keyset
  import opened Pagination

  ghost predicate Ordered(columns: seq<Column>, rows: seq<Row>) {
    && (forall i :: 0 <= i < |rows| ==> HasColumns(rows[i], columns))
    && (forall i, j {:trigger Lt(columns, rows[i], rows[j])} :: 0 <= i < j < |rows| ==> Lt(columns, rows[i], rows[j]))
  }

  lemma LtTransitive(columns: seq<Column>, r: Row, s: Row, t: Row)
    requires HasColumns(r, columns) && HasColumns(s, columns) && HasColumns(t, columns)
    requires Lt(columns, r, s) && Lt(columns, s, t)
    ensures Lt(columns, r, t)
  {
    PrecedesTransitive(columns, Key(r, columns), Key(s, columns), Key(t, columns));
  }

  lemma LtIrreflexive(columns: seq<Column>, r: Row)
    requires HasColumns(r, columns)
    ensures !Lt(columns, r, r)
  {
    AheadAsymmetric(columns, false, r, r);
  }

  /** With keys that name the rows, a query has one answer: strictly in order, the first of all. */
  lemma SliceStrict(columns: seq<Column>, reverse: bool, rows: set<Row>, limit: nat, fetched: seq<Row>)
    requires TableOk(columns, rows) && IsSlice(columns, reverse, rows, limit, fetched)
    ensures forall i, j :: 0 <= i < j < |fetched| ==> Ahead(columns, reverse, fetched[i], fetched[j])
    ensures forall r, i :: r in rows && r !in fetched && 0 <= i < |fetched| ==> Ahead(columns, reverse, fetched[i], r)
  {
    forall i, j | 0 <= i < j < |fetched| ensures Ahead(columns, reverse, fetched[i], fetched[j]) {
      AheadTotal(columns, reverse, rows, fetched[i], fetched[j]);
    }
    forall r, i | r in rows && r !in fetched && 0 <= i < |fetched| ensures Ahead(columns, reverse, fetched[i], r) {
      AheadTotal(columns, reverse, rows, r, fetched[i]);
    }
  }

  function SetOf(rows: seq<Row>): set<Row> {
    set r | r in rows
  }

  lemma {:induction false} DistinctSize(rows: seq<Row>)
    requires forall i, j :: 0 <= i < j < |rows| ==> rows[i] != rows[j]
    ensures |SetOf(rows)| == |rows|
    decreases |rows|
  {
    if rows == [] {
      assert SetOf(rows) == {};
    } else {
      var init, last := rows[..|rows| - 1], rows[|rows| - 1];
      DistinctSize(init);
      assert SetOf(rows) == SetOf(init) + {last} && last !in SetOf(init);
    }
  }

  lemma {:induction false} SubsetSize(a: set<Row>, b: set<Row>)
    requires a <= b
    ensures |a| <= |b| && (a != b ==> |a| < |b|)
    decreases a
  {
    if a != {} {
      var x :| x in a;
      SubsetSize(a - {x}, b - {x});
      assert a - {x} == b - {x} ==> a == b;
    }
  }

  /** A query that returns fewer rows than its limit returned them all. */
  lemma ShortSliceIsAll(columns: seq<Column>, reverse: bool, rows: set<Row>, limit: nat, fetched: seq<Row>)
    requires AllHaveColumns(columns, rows) && IsSlice(columns, reverse, rows, limit, fetched)
    ensures |fetched| < limit ==> SetOf(fetched) == rows
  {
    DistinctSize(fetched);
    SubsetSize(SetOf(fetched), rows);
  }

  // Following next cursors while the table changes

  /** One fetch of a reader: the table as it was then. */
  datatype Stop = Stop(table: set<Row>, fetched: seq<Row>)

  function Items(size: nat, stop: Stop): seq<Row> {
    if |stop.fetched| > size then stop.fetched[..size] else stop.fetched
  }

  function At(boundary: Option<Boundary>): Option<Visit> {
    if boundary.None? then None else Some(Visit(false, boundary.value))
  }

  ghost predicate Fetched(columns: seq<Column>, size: nat, boundary: Option<Boundary>, stop: Stop) {
    && TableOk(columns, stop.table) && (boundary.Some? ==> |boundary.value| == |columns|)
    && IsFetch(columns, stop.table, At(boundary), size, stop.fetched)
    && (forall i :: 0 <= i < |stop.fetched| ==> HasColumns(stop.fetched[i], columns))
  }

  /** The reader starts at `boundary`, follows each next cursor and ends when none is offered. */
  ghost predicate Reads(columns: seq<Column>, size: nat, boundary: Option<Boundary>, stops: seq<Stop>)
    requires size >= 1
    decreases |stops|
  {
    && stops != [] && Fetched(columns, size, boundary, stops[0])
    && var offer := NextOffer(columns, At(boundary), size, stops[0].fetched);
       if |stops| == 1 then offer.None? else offer.Some? && Reads(columns, size, offer, stops[1..])
  }

  function AllItems(size: nat, stops: seq<Stop>): seq<Row> {
    if stops == [] then [] else Items(size, stops[0]) + AllItems(size, stops[1..])
  }

  ghost predicate After(columns: seq<Column>, boundary: Option<Boundary>, r: Row)
    requires HasColumns(r, columns) && (boundary.Some? ==> |boundary.value| == |columns|)
  {
    boundary.Some? ==> Precedes(columns, boundary.value, Key(r, columns))
  }

  /** The items of one fetch are in order and past the boundary. */
  lemma ItemsInOrder(columns: seq<Column>, size: nat, boundary: Option<Boundary>, stop: Stop)
    requires size >= 1 && Fetched(columns, size, boundary, stop)
    ensures Ordered(columns, stop.fetched) && Ordered(columns, Items(size, stop))
    ensures forall r :: r in stop.fetched ==> r in stop.table && After(columns, boundary, r)
  {
    var rows := Selected(columns, stop.table, At(boundary));
    SliceStrict(columns, false, rows, size + 1, stop.fetched);
    assert forall i :: 0 <= i < |stop.fetched| ==> stop.fetched[i] in rows;
    assert forall i :: 0 <= i < |Items(size, stop)| ==> Items(size, stop)[i] == stop.fetched[i];
  }

  /** What it selected and did not take is past the last item, and a next cursor is offered. */
  lemma RestIsAfter(columns: seq<Column>, size: nat, boundary: Option<Boundary>, stop: Stop, r: Row)
    requires size >= 1 && Fetched(columns, size, boundary, stop)
    requires r in stop.table && After(columns, boundary, r) && r !in Items(size, stop)
    ensures |stop.fetched| > size && Lt(columns, stop.fetched[size - 1], r)
  {
    var rows := Selected(columns, stop.table, At(boundary));
    var fetched := stop.fetched;
    assert r in rows;
    SliceStrict(columns, false, rows, size + 1, fetched);
    ShortSliceIsAll(columns, false, rows, size + 1, fetched);
    assert forall s :: s in SetOf(fetched) <==> s in fetched;
    assert |fetched| <= size ==> Items(size, stop) == fetched;
    assert forall k :: 0 <= k < |Items(size, stop)| ==> Items(size, stop)[k] == fetched[k];
    if r in fetched {
      var i :| 0 <= i < |fetched| && fetched[i] == r;
      assert Ahead(columns, false, fetched[size - 1], fetched[i]);
    }
  }

  lemma OfferIsLast(columns: seq<Column>, size: nat, boundary: Option<Boundary>, stop: Stop)
    requires size >= 1 && Fetched(columns, size, boundary, stop)
    ensures var offer := NextOffer(columns, At(boundary), size, stop.fetched);
            && (offer.Some? <==> |stop.fetched| > size)
            && (offer.Some? ==> |Items(size, stop)| == size && offer.value == Key(stop.fetched[size - 1], columns))
  {
    assert ItemsOf(At(boundary), size, stop.fetched) == Items(size, stop);
  }

  lemma FetchFacts(columns: seq<Column>, size: nat, boundary: Option<Boundary>, stop: Stop)
    requires size >= 1 && Fetched(columns, size, boundary, stop)
    ensures Ordered(columns, Items(size, stop))
    ensures forall r :: r in Items(size, stop) ==> r in stop.table && After(columns, boundary, r)
    ensures var offer := NextOffer(columns, At(boundary), size, stop.fetched);
            forall r :: r in stop.table && After(columns, boundary, r) && r !in Items(size, stop) ==> offer.Some? && After(columns, offer, r)
    ensures var offer := NextOffer(columns, At(boundary), size, stop.fetched);
            offer.Some? ==> |Items(size, stop)| == size && offer.value == Key(Items(size, stop)[size - 1], columns)
  {
    ItemsInOrder(columns, size, boundary, stop);
    OfferIsLast(columns, size, boundary, stop);
    forall r | r in stop.table && After(columns, boundary, r) && r !in Items(size, stop)
      ensures |stop.fetched| > size && Lt(columns, stop.fetched[size - 1], r)
    {
      RestIsAfter(columns, size, boundary, stop, r);
    }
    assert forall r :: r in Items(size, stop) ==> r in stop.fetched;
  }

  /** Everything read is past the boundary, and strictly in order, whatever happened to the table. */
  lemma {:induction false} ReadInOrder(columns: seq<Column>, size: nat, boundary: Option<Boundary>, stops: seq<Stop>)
    requires size >= 1 && Reads(columns, size, boundary, stops)
    ensures Ordered(columns, AllItems(size, stops))
    ensures forall r :: r in AllItems(size, stops) ==> After(columns, boundary, r)
    decreases |stops|
  {
    var items := Items(size, stops[0]);
    FetchFacts(columns, size, boundary, stops[0]);
    if |stops| > 1 {
      var offer := NextOffer(columns, At(boundary), size, stops[0].fetched);
      var rest := AllItems(size, stops[1..]);
      ReadInOrder(columns, size, offer, stops[1..]);
      LaterItems(columns, size, boundary, items, offer.value, rest);
    } else {
      assert AllItems(size, stops[1..]) == [];
      assert AllItems(size, stops) == items;
    }
  }

  lemma LaterItems(columns: seq<Column>, size: nat, boundary: Option<Boundary>, items: seq<Row>, offer: Boundary, rest: seq<Row>)
    requires size >= 1 && |items| == size && Ordered(columns, items) && Ordered(columns, rest)
    requires boundary.Some? ==> |boundary.value| == |columns|
    requires offer == Key(items[size - 1], columns)
    requires forall r :: r in items ==> After(columns, boundary, r)
    requires forall r :: r in rest ==> After(columns, Some(offer), r)
    ensures Ordered(columns, items + rest)
    ensures forall r :: r in items + rest ==> After(columns, boundary, r)
  {
    var last := items[size - 1];
    assert last in items;
    forall r | r in rest ensures After(columns, boundary, r) && forall i :: 0 <= i < size ==> Lt(columns, items[i], r) {
      var k :| 0 <= k < |rest| && rest[k] == r;
      assert HasColumns(rest[k], columns) && After(columns, Some(offer), r);
      assert Lt(columns, last, r);
      if boundary.Some? { PrecedesTransitive(columns, boundary.value, offer, Key(r, columns)); }
      forall i | 0 <= i < size ensures Lt(columns, items[i], r) {
        if i < size - 1 { LtTransitive(columns, items[i], last, r); }
      }
    }
    var all := items + rest;
    forall i, j | 0 <= i < j < |all| ensures Lt(columns, all[i], all[j]) {
      if i < size <= j { assert all[j] in rest; }
    }
  }

  ghost predicate InTable(columns: seq<Column>, table: set<Row>, id: nat, key: Boundary) {
    exists r :: r in table && HasColumns(r, columns) && r.id == id && Key(r, columns) == key
  }

  /** A row with this id and key is there at every fetch. */
  ghost predicate Throughout(columns: seq<Column>, stops: seq<Stop>, id: nat, key: Boundary) {
    forall i :: 0 <= i < |stops| ==> InTable(columns, stops[i].table, id, key)
  }

  ghost predicate HasRow(columns: seq<Column>, rows: seq<Row>, id: nat, key: Boundary) {
    exists r :: r in rows && HasColumns(r, columns) && r.id == id && Key(r, columns) == key
  }

  /** A row past the boundary is among the items, or past the cursor to go on from. */
  lemma ReadNowOrLater(columns: seq<Column>, size: nat, boundary: Option<Boundary>, stop: Stop, id: nat, key: Boundary)
    requires size >= 1 && Fetched(columns, size, boundary, stop) && |key| == |columns|
    requires InTable(columns, stop.table, id, key)
    requires boundary.Some? ==> Precedes(columns, boundary.value, key)
    ensures var offer := NextOffer(columns, At(boundary), size, stop.fetched);
            HasRow(columns, Items(size, stop), id, key)
            || (offer.Some? && |offer.value| == |columns| && Precedes(columns, offer.value, key))
  {
    var r :| r in stop.table && HasColumns(r, columns) && r.id == id && Key(r, columns) == key;
    FetchFacts(columns, size, boundary, stop);
    if r !in Items(size, stop) { assert After(columns, boundary, r); }
  }

  lemma ThroughoutLater(columns: seq<Column>, stops: seq<Stop>, id: nat, key: Boundary)
    requires Throughout(columns, stops, id, key) && stops != []
    ensures Throughout(columns, stops[1..], id, key)
  {
    assert forall i :: 0 <= i < |stops[1..]| ==> stops[1..][i] == stops[i + 1];
  }

  lemma {:induction false} ReadsWhatStays(columns: seq<Column>, size: nat, boundary: Option<Boundary>, stops: seq<Stop>, id: nat, key: Boundary)
    requires size >= 1 && Reads(columns, size, boundary, stops) && Throughout(columns, stops, id, key)
    requires |key| == |columns| && (boundary.Some? ==> Precedes(columns, boundary.value, key))
    ensures HasRow(columns, AllItems(size, stops), id, key)
    decreases |stops|
  {
    ReadNowOrLater(columns, size, boundary, stops[0], id, key);
    var items := Items(size, stops[0]);
    var found := items;
    if !HasRow(columns, items, id, key) {
      ThroughoutLater(columns, stops, id, key);
      ReadsWhatStays(columns, size, NextOffer(columns, At(boundary), size, stops[0].fetched), stops[1..], id, key);
      found := AllItems(size, stops[1..]);
    }
    var r :| r in found && HasColumns(r, columns) && r.id == id && Key(r, columns) == key;
    assert r in items + AllItems(size, stops[1..]);
  }

  lemma ItemsInTable(columns: seq<Column>, size: nat, boundary: Option<Boundary>, stop: Stop)
    requires size >= 1 && Fetched(columns, size, boundary, stop)
    ensures forall r :: r in Items(size, stop) ==> r in stop.table
  {
    var rows := Selected(columns, stop.table, At(boundary));
    assert forall i :: 0 <= i < |stop.fetched| ==> stop.fetched[i] in rows;
  }

  ghost predicate WasThere(columns: seq<Column>, stops: seq<Stop>, r: Row) {
    exists i :: 0 <= i < |stops| && TableOk(columns, stops[i].table) && r in stops[i].table
  }

  lemma WasThereLater(columns: seq<Column>, stops: seq<Stop>, r: Row)
    requires stops != [] && WasThere(columns, stops[1..], r)
    ensures WasThere(columns, stops, r)
  {
    var i :| 0 <= i < |stops[1..]| && TableOk(columns, stops[1..][i].table) && r in stops[1..][i].table;
    assert stops[1..][i] == stops[i + 1];
  }

  /** Each item was in the table of some fetch. */
  lemma {:induction false} ItemsWereThere(columns: seq<Column>, size: nat, boundary: Option<Boundary>, stops: seq<Stop>, r: Row)
    requires size >= 1 && Reads(columns, size, boundary, stops) && r in AllItems(size, stops)
    ensures WasThere(columns, stops, r)
    decreases |stops|
  {
    ItemsInTable(columns, size, boundary, stops[0]);
    if r in Items(size, stops[0]) {
      assert TableOk(columns, stops[0].table) && r in stops[0].table;
    } else {
      assert r in AllItems(size, stops[1..]);
      ItemsWereThere(columns, size, NextOffer(columns, At(boundary), size, stops[0].fetched), stops[1..], r);
      WasThereLater(columns, stops, r);
    }
  }

  /** A reader who follows next cursors to the end, while rows come and go between fetches, meets each
      row that stayed with its key exactly once, and everything strictly in order. */
  lemma StayingRowsReadExactlyOnce(columns: seq<Column>, size: nat, stops: seq<Stop>, id: nat, key: Boundary)
    requires size >= 1 && Reads(columns, size, None, stops) && Throughout(columns, stops, id, key) && |key| == |columns|
    ensures Ordered(columns, AllItems(size, stops))
    ensures exists i :: 0 <= i < |AllItems(size, stops)| && OnlyAt(AllItems(size, stops), id, i)
  {
    var all := AllItems(size, stops);
    ReadInOrder(columns, size, None, stops);
    ReadsWhatStays(columns, size, None, stops, id, key);
    var r :| r in all && HasColumns(r, columns) && r.id == id && Key(r, columns) == key;
    var i :| 0 <= i < |all| && all[i] == r;
    forall j | 0 <= j < |all| && all[j].id == id ensures j == i {
      SameKey(columns, size, stops, id, key, all[j]);
      KeysDiffer(columns, all, i, j);
    }
    assert OnlyAt(all, id, i);
  }

  ghost predicate OnlyAt(rows: seq<Row>, id: nat, i: nat) {
    i < |rows| && rows[i].id == id && forall j :: 0 <= j < |rows| && rows[j].id == id ==> j == i
  }

  lemma KeysDiffer(columns: seq<Column>, rows: seq<Row>, i: nat, j: nat)
    requires Ordered(columns, rows) && i < |rows| && j < |rows|
    ensures i != j ==> Key(rows[i], columns) != Key(rows[j], columns)
  {
    if i < j {
      assert Lt(columns, rows[i], rows[j]);
      PrecedesAsymmetric(columns, Key(rows[i], columns), Key(rows[j], columns));
    } else if j < i {
      assert Lt(columns, rows[j], rows[i]);
      PrecedesAsymmetric(columns, Key(rows[j], columns), Key(rows[i], columns));
    }
  }

  lemma SameKey(columns: seq<Column>, size: nat, stops: seq<Stop>, id: nat, key: Boundary, r: Row)
    requires size >= 1 && Reads(columns, size, None, stops) && Throughout(columns, stops, id, key)
    requires r in AllItems(size, stops) && r.id == id
    ensures HasColumns(r, columns) && Key(r, columns) == key
  {
    ItemsWereThere(columns, size, None, stops, r);
    var i :| 0 <= i < |stops| && TableOk(columns, stops[i].table) && r in stops[i].table;
    var s :| s in stops[i].table && HasColumns(s, columns) && s.id == id && Key(s, columns) == key;
  }

  // A table that does not change

  /** `all` is the whole table in order. */
  ghost predicate Lists(columns: seq<Column>, table: set<Row>, all: seq<Row>) {
    Ordered(columns, all) && SetOf(all) == table
  }

  lemma {:induction false} SameListing(columns: seq<Column>, a: seq<Row>, b: seq<Row>)
    requires Ordered(columns, a) && Ordered(columns, b) && SetOf(a) == SetOf(b)
    ensures a == b
    decreases |a|
  {
    OrderedSize(columns, a);
    OrderedSize(columns, b);
    if a != [] {
      assert a[0] in SetOf(a) && b[0] in SetOf(b);
      FirstIsLeast(columns, a, b[0]);
      FirstIsLeast(columns, b, a[0]);
      AheadAsymmetric(columns, false, a[0], b[0]);
      WithoutFirst(columns, a);
      WithoutFirst(columns, b);
      SameListing(columns, a[1..], b[1..]);
    }
  }

  lemma OrderedSize(columns: seq<Column>, rows: seq<Row>)
    requires Ordered(columns, rows)
    ensures |SetOf(rows)| == |rows|
  {
    forall i, j | 0 <= i < j < |rows| ensures rows[i] != rows[j] {
      KeysDiffer(columns, rows, i, j);
    }
    DistinctSize(rows);
  }

  lemma FirstIsLeast(columns: seq<Column>, a: seq<Row>, r: Row)
    requires Ordered(columns, a) && r in a
    ensures r == a[0] || Lt(columns, a[0], r)
  {
    var i :| 0 <= i < |a| && a[i] == r;
  }

  lemma WithoutFirst(columns: seq<Column>, a: seq<Row>)
    requires Ordered(columns, a) && a != []
    ensures Ordered(columns, a[1..]) && SetOf(a[1..]) == SetOf(a) - {a[0]}
  {
    assert forall i :: 0 < i < |a| ==> a[i] == a[1..][i - 1];
    forall i | 0 < i < |a| ensures a[i] != a[0] {
      assert Lt(columns, a[0], a[i]);
      LtIrreflexive(columns, a[0]);
    }
  }

  /** On a table that does not change the pages concatenate to the whole table in order. */
  lemma PagesConcatenate(columns: seq<Column>, size: nat, table: set<Row>, stops: seq<Stop>, all: seq<Row>)
    requires size >= 1 && Reads(columns, size, None, stops) && Lists(columns, table, all)
    requires forall i :: 0 <= i < |stops| ==> stops[i].table == table
    ensures AllItems(size, stops) == all
  {
    ReadInOrder(columns, size, None, stops);
    var read := AllItems(size, stops);
    assert TableOk(columns, table) by {
      assert stops[0].table == table;
    }
    forall r | r in table ensures r in read {
      ReadsWhatStays(columns, size, None, stops, r.id, Key(r, columns));
      var s :| s in read && HasColumns(s, columns) && s.id == r.id && Key(s, columns) == Key(r, columns);
      ItemsWereThere(columns, size, None, stops, s);
    }
    forall r | r in read ensures r in table {
      ItemsWereThere(columns, size, None, stops, r);
    }
    assert SetOf(read) == SetOf(all);
    SameListing(columns, read, all);
  }

  ghost predicate OrderedBy(columns: seq<Column>, reverse: bool, rows: seq<Row>) {
    && (forall i :: 0 <= i < |rows| ==> HasColumns(rows[i], columns))
    && (forall i, j {:trigger Ahead(columns, reverse, rows[i], rows[j])} :: 0 <= i < j < |rows| ==> Ahead(columns, reverse, rows[i], rows[j]))
  }

  lemma FetchedFirstIsLeast(columns: seq<Column>, reverse: bool, rows: set<Row>, limit: nat, fetched: seq<Row>, r: Row)
    requires TableOk(columns, rows) && IsSlice(columns, reverse, rows, limit, fetched) && fetched != [] && r in rows
    ensures r == fetched[0] || Ahead(columns, reverse, fetched[0], r)
  {
    SliceStrict(columns, reverse, rows, limit, fetched);
    if r in fetched {
      var i :| 0 <= i < |fetched| && fetched[i] == r;
    }
  }

  lemma ListedFirstIsLeast(columns: seq<Column>, reverse: bool, all: seq<Row>, r: Row)
    requires OrderedBy(columns, reverse, all) && r in SetOf(all)
    ensures all != [] && (r == all[0] || Ahead(columns, reverse, all[0], r))
  {
    var i :| 0 <= i < |all| && all[i] == r;
  }

  lemma SliceStartsFirst(columns: seq<Column>, reverse: bool, rows: set<Row>, limit: nat, fetched: seq<Row>, all: seq<Row>)
    requires TableOk(columns, rows) && IsSlice(columns, reverse, rows, limit, fetched) && fetched != []
    requires OrderedBy(columns, reverse, all) && SetOf(all) == rows && all != []
    ensures fetched[0] == all[0]
  {
    assert all[0] in SetOf(all) && fetched[0] in rows;
    FetchedFirstIsLeast(columns, reverse, rows, limit, fetched, all[0]);
    ListedFirstIsLeast(columns, reverse, all, fetched[0]);
    AheadAsymmetric(columns, reverse, all[0], fetched[0]);
  }

  lemma SliceGoesOn(columns: seq<Column>, reverse: bool, rows: set<Row>, limit: nat, fetched: seq<Row>)
    requires AllHaveColumns(columns, rows) && IsSlice(columns, reverse, rows, limit, fetched) && fetched != []
    ensures IsSlice(columns, reverse, rows - {fetched[0]}, limit - 1, fetched[1..])
  {
    var rest := fetched[1..];
    assert forall i :: 0 <= i < |rest| ==> rest[i] == fetched[i + 1];
    forall r | r in rows - {fetched[0]} && r !in rest ensures r !in fetched {
      assert fetched == [fetched[0]] + rest;
    }
  }

  lemma RestOrdered(columns: seq<Column>, reverse: bool, all: seq<Row>)
    requires OrderedBy(columns, reverse, all) && all != []
    ensures OrderedBy(columns, reverse, all[1..]) && SetOf(all[1..]) == SetOf(all) - {all[0]}
  {
    assert forall i :: 0 < i < |all| ==> all[i] == all[1..][i - 1];
    forall i | 0 < i < |all| ensures all[i] != all[0] {
      AheadAsymmetric(columns, reverse, all[0], all[i]);
    }
  }

  /** A query over listed rows returns the first of the list. */
  lemma {:induction false} SliceIsPrefix(columns: seq<Column>, reverse: bool, rows: set<Row>, limit: nat, fetched: seq<Row>, all: seq<Row>)
    requires TableOk(columns, rows) && IsSlice(columns, reverse, rows, limit, fetched)
    requires OrderedBy(columns, reverse, all) && SetOf(all) == rows
    ensures fetched == all[..if limit <= |all| then limit else |all|]
    decreases |all|
  {
    if all == [] {
      assert rows == {};
    } else if limit > 0 {
      assert all[0] in SetOf(all);
      SliceStartsFirst(columns, reverse, rows, limit, fetched, all);
      SliceGoesOn(columns, reverse, rows, limit, fetched);
      RestOrdered(columns, reverse, all);
      SliceIsPrefix(columns, reverse, rows - {all[0]}, limit - 1, fetched[1..], all[1..]);
      assert fetched == [fetched[0]] + fetched[1..];
    }
  }

  lemma IndexOrder(columns: seq<Column>, all: seq<Row>, i: nat, j: nat)
    requires Ordered(columns, all) && i < |all| && j < |all|
    ensures Lt(columns, all[i], all[j]) <==> i < j
  {
    if j < i {
      AheadAsymmetric(columns, false, all[j], all[i]);
    } else if i == j {
      LtIrreflexive(columns, all[i]);
    }
  }

  /** Where a page starts: at the beginning, after a row, or before one. */
  datatype From = Start | Forward(k: nat) | Back(k: nat)

  function VisitOf(columns: seq<Column>, all: seq<Row>, from: From): Option<Visit>
    requires from.Start? || (from.k < |all| && HasColumns(all[from.k], columns))
  {
    match from
    case Start => None
    case Forward(k) => Some(Visit(false, Key(all[k], columns)))
    case Back(k) => Some(Visit(true, Key(all[k], columns)))
  }

  /** The first row of the page, and the first beyond it. */
  function Low(from: From, size: nat, n: nat): (p: nat) {
    match from
    case Start => 0
    case Forward(k) => if k + 1 <= n then k + 1 else n
    case Back(k) => if k <= size then 0 else k - size
  }

  function High(from: From, size: nat, n: nat): (q: nat) {
    match from
    case Start => if size <= n then size else n
    case Forward(k) => if k + 1 + size <= n then k + 1 + size else n
    case Back(k) => k
  }

  lemma SelectedAhead(columns: seq<Column>, table: set<Row>, all: seq<Row>, from: From)
    requires TableOk(columns, table) && Lists(columns, table, all) && (from.Start? || from.k < |all|)
    ensures var selected := Selected(columns, table, VisitOf(columns, all, from));
            match from
            case Start => selected == SetOf(all)
            case Forward(k) => selected == SetOf(all[k + 1..])
            case Back(k) => selected == SetOf(all[..k])
  {
    var selected := Selected(columns, table, VisitOf(columns, all, from));
    if !from.Start? {
      forall i: nat | i < |all| ensures all[i] in selected <==> if from.Forward? then from.k < i else i < from.k {
        IndexOrder(columns, all, from.k, i);
        IndexOrder(columns, all, i, from.k);
        assert all[i] in SetOf(all);
      }
      var part := if from.Forward? then all[from.k + 1..] else all[..from.k];
      forall r ensures r in selected <==> r in part {
        if r in selected {
          assert r in SetOf(all);
          var i :| 0 <= i < |all| && all[i] == r;
          assert if from.Forward? then part[i - from.k - 1] == r else part[i] == r;
        }
        if r in part {
          var i :| 0 <= i < |part| && part[i] == r;
          assert if from.Forward? then all[i + from.k + 1] == r else all[i] == r;
        }
      }
    }
  }

  lemma SegmentOrdered(columns: seq<Column>, all: seq<Row>, from: From)
    requires Ordered(columns, all) && (from.Start? || from.k < |all|)
    ensures match from
            case Start => OrderedBy(columns, false, all)
            case Forward(k) => OrderedBy(columns, false, all[k + 1..])
            case Back(k) => OrderedBy(columns, true, Reversed(all[..k])) && SetOf(Reversed(all[..k])) == SetOf(all[..k])
  {
    if from.Back? {
      var part, back := all[..from.k], Reversed(all[..from.k]);
      assert forall i :: 0 <= i < |part| ==> part[i] == back[|part| - 1 - i];
      assert SetOf(back) == SetOf(part);
    }
  }

  lemma SelectedOk(columns: seq<Column>, table: set<Row>, visit: Option<Visit>)
    requires TableOk(columns, table) && (visit.Some? ==> |visit.value.boundary| == |columns|)
    ensures TableOk(columns, Selected(columns, table, visit))
  {
  }

  /** The rows from which the page is taken, in the order of its query. */
  function Segment(all: seq<Row>, from: From): seq<Row>
    requires from.Start? || from.k < |all|
  {
    match from
    case Start => all
    case Forward(k) => all[k + 1..]
    case Back(k) => Reversed(all[..k])
  }

  lemma FetchedSegment(columns: seq<Column>, size: nat, table: set<Row>, all: seq<Row>, from: From, fetched: seq<Row>)
    requires size >= 1 && TableOk(columns, table) && Lists(columns, table, all) && (from.Start? || from.k < |all|)
    requires IsFetch(columns, table, VisitOf(columns, all, from), size, fetched)
    ensures var seg := Segment(all, from); fetched == seg[..if size + 1 <= |seg| then size + 1 else |seg|]
  {
    var visit := VisitOf(columns, all, from);
    SelectedAhead(columns, table, all, from);
    SegmentOrdered(columns, all, from);
    SelectedOk(columns, table, visit);
    SliceIsPrefix(columns, Backwards(visit), Selected(columns, table, visit), size + 1, fetched, Segment(all, from));
  }

  lemma ReversedPrefix(rows: seq<Row>, n: nat)
    requires n <= |rows|
    ensures Reversed(Reversed(rows)[..n]) == rows[|rows| - n..]
  {
  }

  lemma ForwardItems(all: seq<Row>, low: nat, size: nat, fetched: seq<Row>)
    requires low <= |all| && var seg := all[low..]; fetched == seg[..if size + 1 <= |seg| then size + 1 else |seg|]
    ensures (if |fetched| > size then fetched[..size] else fetched) == all[low..if low + size <= |all| then low + size else |all|]
  {
  }

  lemma BackItems(all: seq<Row>, k: nat, size: nat, fetched: seq<Row>)
    requires k <= |all| && var seg := Reversed(all[..k]); fetched == seg[..if size + 1 <= |seg| then size + 1 else |seg|]
    ensures Reversed(if |fetched| > size then fetched[..size] else fetched) == all[if k <= size then 0 else k - size..k]
  {
    var part, n := all[..k], if size <= k then size else k;
    assert (if |fetched| > size then fetched[..size] else fetched) == Reversed(part)[..n];
    ReversedPrefix(part, n);
    assert part[k - n..] == all[k - n..k];
  }

  lemma ItemsAreStretch(columns: seq<Column>, size: nat, all: seq<Row>, from: From, visit: Option<Visit>, fetched: seq<Row>)
    requires size >= 1 && (from.Start? || from.k < |all|) && Backwards(visit) == from.Back?
    requires var seg := Segment(all, from); fetched == seg[..if size + 1 <= |seg| then size + 1 else |seg|]
    ensures Low(from, size, |all|) <= High(from, size, |all|) <= |all|
    ensures ItemsOf(visit, size, fetched) == all[Low(from, size, |all|)..High(from, size, |all|)]
  {
    match from {
      case Start =>
        assert all[0..] == all;
        ForwardItems(all, 0, size, fetched);
      case Forward(k) =>
        ForwardItems(all, k + 1, size, fetched);
      case Back(k) =>
        BackItems(all, k, size, fetched);
    }
  }

  /** What a reader is shown: the items and where the cursors lead. */
  datatype View = View(items: seq<Row>, next: Option<Boundary>, previous: Option<Boundary>)

  function ViewOf(columns: seq<Column>, size: nat, visit: Option<Visit>, fetched: seq<Row>): View
    requires forall i :: 0 <= i < |fetched| ==> HasColumns(fetched[i], columns)
  {
    View(ItemsOf(visit, size, fetched), NextOffer(columns, visit, size, fetched), PreviousOffer(columns, visit, size, fetched))
  }

  ghost predicate Shows(columns: seq<Column>, size: nat, table: set<Row>, visit: Option<Visit>, view: View) {
    && AllHaveColumns(columns, table) && (visit.Some? ==> |visit.value.boundary| == |columns|)
    && exists fetched ::
         && IsFetch(columns, table, visit, size, fetched)
         && (forall i :: 0 <= i < |fetched| ==> HasColumns(fetched[i], columns))
         && view == ViewOf(columns, size, visit, fetched)
  }

  /** The rows `all[p..q]` with cursors at the edges, where there is more. */
  ghost function Stretch(columns: seq<Column>, all: seq<Row>, p: nat, q: nat): View
    requires p < q <= |all| && forall i :: 0 <= i < |all| ==> HasColumns(all[i], columns)
  {
    View(all[p..q], if q < |all| then Some(Key(all[q - 1], columns)) else None, if p > 0 then Some(Key(all[p], columns)) else None)
  }

  lemma SentinelMeans(columns: seq<Column>, size: nat, all: seq<Row>, from: From, fetched: seq<Row>)
    requires size >= 1 && (from.Start? || from.k < |all|)
    requires var seg := Segment(all, from); fetched == seg[..if size + 1 <= |seg| then size + 1 else |seg|]
    ensures |fetched| > size <==> if from.Back? then Low(from, size, |all|) > 0 else High(from, size, |all|) < |all|
  {
  }

  lemma ViewIsStretch(columns: seq<Column>, size: nat, visit: Option<Visit>, fetched: seq<Row>, all: seq<Row>, p: nat, q: nat)
    requires p < q <= |all| && forall i :: 0 <= i < |all| ==> HasColumns(all[i], columns)
    requires forall i :: 0 <= i < |fetched| ==> HasColumns(fetched[i], columns)
    requires ItemsOf(visit, size, fetched) == all[p..q]
    requires |fetched| > size <==> if Backwards(visit) then p > 0 else q < |all|
    requires visit.None? ==> p == 0
    requires visit.Some? ==> if visit.value.previous then q < |all| else p > 0
    ensures ViewOf(columns, size, visit, fetched) == Stretch(columns, all, p, q)
  {
  }

  /** On a table that does not change, a page is a stretch of the list; it offers a next cursor exactly
      when a row comes after it and a previous one exactly when a row comes before it, and each points
      at the edge of the stretch. */
  lemma PageShape(columns: seq<Column>, size: nat, table: set<Row>, all: seq<Row>, from: From, visit: Option<Visit>, view: View)
    requires size >= 1 && TableOk(columns, table) && Lists(columns, table, all) && (from.Start? || from.k < |all|)
    requires visit == VisitOf(columns, all, from) && Shows(columns, size, table, visit, view)
    ensures var p, q := Low(from, size, |all|), High(from, size, |all|);
            p <= q <= |all| && view.items == all[p..q] && (p < q ==> view == Stretch(columns, all, p, q))
  {
    var p, q := Low(from, size, |all|), High(from, size, |all|);
    var fetched :|
      && IsFetch(columns, table, visit, size, fetched)
      && (forall i :: 0 <= i < |fetched| ==> HasColumns(fetched[i], columns))
      && view == ViewOf(columns, size, visit, fetched);
    FetchedSegment(columns, size, table, all, from, fetched);
    ItemsAreStretch(columns, size, all, from, visit, fetched);
    SentinelMeans(columns, size, all, from, fetched);
    if p < q { ViewIsStretch(columns, size, visit, fetched, all, p, q); }
  }

  // Walking to and fro

  /** The visit takes up one of the offers of the page. */
  ghost predicate Follows(visit: Option<Visit>, view: View) {
    visit.Some? && (if visit.value.previous then view.previous else view.next) == Some(visit.value.boundary)
  }

  /** A reader begins at a page that shows something and then follows one offer after the other. */
  ghost predicate Walk(columns: seq<Column>, size: nat, table: set<Row>, visits: seq<Option<Visit>>, views: seq<View>) {
    && |visits| == |views| && views != [] && views[0].items != []
    && (forall i :: 0 <= i < |views| ==> Shows(columns, size, table, visits[i], views[i]))
    && (forall i, j :: 0 <= i && j == i + 1 && j < |views| ==> Follows(visits[j], views[i]))
  }

  /** The page is the stretch that a visit from `from` shows, and shows something. */
  ghost predicate PageAt(columns: seq<Column>, size: nat, all: seq<Row>, from: From, visit: Option<Visit>, view: View)
    requires forall i :: 0 <= i < |all| ==> HasColumns(all[i], columns)
  {
    && (from.Start? || from.k < |all|) && visit == VisitOf(columns, all, from)
    && var p, q := Low(from, size, |all|), High(from, size, |all|);
       p < q <= |all| && view == Stretch(columns, all, p, q)
  }

  function FromAfter(from: From, size: nat, n: nat, previous: bool): From
    requires High(from, size, n) > 0
  {
    if previous then Back(Low(from, size, n)) else Forward(High(from, size, n) - 1)
  }

  lemma PageAfter(columns: seq<Column>, size: nat, table: set<Row>, all: seq<Row>, from: From, visit: Option<Visit>, view: View,
                  visit': Option<Visit>, view': View)
    requires size >= 1 && TableOk(columns, table) && Lists(columns, table, all) && PageAt(columns, size, all, from, visit, view)
    requires Follows(visit', view) && Shows(columns, size, table, visit', view')
    ensures if visit'.value.previous then Low(from, size, |all|) > 0 else High(from, size, |all|) < |all|
    ensures PageAt(columns, size, all, FromAfter(from, size, |all|, visit'.value.previous), visit', view')
  {
    OfferLeads(columns, size, all, from, visit, view, visit');
    AfterBounds(from, size, |all|, visit'.value.previous);
    PageShape(columns, size, table, all, FromAfter(from, size, |all|, visit'.value.previous), visit', view');
  }

  lemma OfferLeads(columns: seq<Column>, size: nat, all: seq<Row>, from: From, visit: Option<Visit>, view: View, visit': Option<Visit>)
    requires forall i :: 0 <= i < |all| ==> HasColumns(all[i], columns)
    requires PageAt(columns, size, all, from, visit, view) && Follows(visit', view)
    ensures if visit'.value.previous then Low(from, size, |all|) > 0 else High(from, size, |all|) < |all|
    ensures visit' == VisitOf(columns, all, FromAfter(from, size, |all|, visit'.value.previous))
  {
  }

  lemma AfterBounds(from: From, size: nat, n: nat, previous: bool)
    requires size >= 1 && (from.Start? || from.k < n) && Low(from, size, n) < High(from, size, n) <= n
    requires if previous then Low(from, size, n) > 0 else High(from, size, n) < n
    ensures var next := FromAfter(from, size, n, previous); next.k < n && Low(next, size, n) < High(next, size, n) <= n
  {
  }

  /** Wherever the walk leads, each page is a nonempty stretch of the list. */
  lemma {:induction false} WalkPage(columns: seq<Column>, size: nat, table: set<Row>, all: seq<Row>, start: From,
                                    visits: seq<Option<Visit>>, views: seq<View>, i: nat) returns (from: From)
    requires size >= 1 && TableOk(columns, table) && Lists(columns, table, all) && (start.Start? || start.k < |all|)
    requires Walk(columns, size, table, visits, views) && visits[0] == VisitOf(columns, all, start) && i < |views|
    ensures PageAt(columns, size, all, from, visits[i], views[i])
    decreases i
  {
    if i == 0 {
      PageShape(columns, size, table, all, start, visits[0], views[0]);
      from := start;
    } else {
      var before := WalkPage(columns, size, table, all, start, visits, views, i - 1);
      PageAfter(columns, size, table, all, before, visits[i - 1], views[i - 1], visits[i], views[i]);
      from := FromAfter(before, size, |all|, visits[i].value.previous);
    }
  }

  /** There and back again, from a page that offers the first step. */
  lemma SameStretch(from: From, size: nat, n: nat, previous: bool)
    requires size >= 1 && (from.Start? || from.k < n) && Low(from, size, n) < High(from, size, n) <= n
    requires if previous then Low(from, size, n) > 0 else High(from, size, n) < n
    ensures var back := FromAfter(FromAfter(from, size, n, previous), size, n, !previous);
            Low(back, size, n) == Low(from, size, n) && High(back, size, n) == High(from, size, n)
  {
  }

  /** On a table that does not change, next then previous, and previous then next, lead back to the same
      page with the same offers, at every point of every walk. */
  lemma TurningBackReturns(columns: seq<Column>, size: nat, table: set<Row>, all: seq<Row>, start: From,
                           visits: seq<Option<Visit>>, views: seq<View>, i: nat)
    requires size >= 1 && TableOk(columns, table) && Lists(columns, table, all) && (start.Start? || start.k < |all|)
    requires Walk(columns, size, table, visits, views) && visits[0] == VisitOf(columns, all, start) && i + 2 < |views|
    requires Follows(visits[i + 1], views[i]) && Follows(visits[i + 2], views[i + 1])
    requires visits[i + 1].value.previous != visits[i + 2].value.previous
    ensures views[i + 2] == views[i]
  {
    var from := WalkPage(columns, size, table, all, start, visits, views, i);
    var n, previous := |all|, visits[i + 1].value.previous;
    PageAfter(columns, size, table, all, from, visits[i], views[i], visits[i + 1], views[i + 1]);
    var away := FromAfter(from, size, n, previous);
    PageAfter(columns, size, table, all, away, visits[i + 1], views[i + 1], visits[i + 2], views[i + 2]);
    SameStretch(from, size, n, previous);
  }

  /** And the way back is always offered. */
  lemma WayBackIsOffered(columns: seq<Column>, size: nat, table: set<Row>, all: seq<Row>, start: From,
                         visits: seq<Option<Visit>>, views: seq<View>, i: nat)
    requires size >= 1 && TableOk(columns, table) && Lists(columns, table, all) && (start.Start? || start.k < |all|)
    requires Walk(columns, size, table, visits, views) && visits[0] == VisitOf(columns, all, start) && i + 1 < |views|
    requires Follows(visits[i + 1], views[i])
    ensures if visits[i + 1].value.previous then views[i + 1].next.Some? else views[i + 1].previous.Some?
  {
    var from := WalkPage(columns, size, table, all, start, visits, views, i);
    PageAfter(columns, size, table, all, from, visits[i], views[i], visits[i + 1], views[i + 1]);
  }
}
