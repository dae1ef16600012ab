/** The way back from a page, on any table: what its cursors and what its links pass over. */
module PageLinks {
  import opened Wrappers
  import opened Keyset
  import opened Pagination
  import opened PaginationTheorems

  /** The offer against the direction of travel. */
  function WayBack(visit: Visit, view: View): Option<Boundary> {
    if visit.previous then view.next else view.previous
  }

  ghost function PastIt(columns: seq<Column>, table: set<Row>, visit: Visit): set<Row>
    requires AllHaveColumns(columns, table) && |visit.boundary| == |columns|
  {
    Selected(columns, table, Some(visit))
  }

  /** The rows the page would go on to, in the direction of travel. */
  ghost function Beyond(columns: seq<Column>, table: set<Row>, visit: Visit, view: View): set<Row>
    requires AllHaveColumns(columns, table) && |visit.boundary| == |columns|
  {
    PastIt(columns, table, visit) - SetOf(view.items)
  }

  /** The rows at the boundary itself; with keys that name the rows, at most one. */
  ghost function AtBoundary(columns: seq<Column>, table: set<Row>, boundary: Boundary): set<Row>
    requires AllHaveColumns(columns, table)
  {
    set r | r in table && Key(r, columns) == boundary
  }

  lemma Trichotomy(columns: seq<Column>, r: Row, boundary: Boundary, previous: bool)
    requires HasColumns(r, columns) && Typed(boundary, columns)
    ensures Past(columns, r, boundary, previous) ==> !Past(columns, r, boundary, !previous) && Key(r, columns) != boundary
    ensures Key(r, columns) != boundary ==> Past(columns, r, boundary, previous) || Past(columns, r, boundary, !previous)
  {
    var k := Key(r, columns);
    if k != boundary { PrecedesTotal(columns, k, boundary); }
    if Precedes(columns, k, boundary) { PrecedesAsymmetric(columns, k, boundary); }
    if Precedes(columns, boundary, k) { PrecedesAsymmetric(columns, boundary, k); }
  }

  lemma NotPastFirst(columns: seq<Column>, r: Row, first: Row, boundary: Boundary, previous: bool)
    requires HasColumns(r, columns) && HasColumns(first, columns) && Typed(boundary, columns)
    requires Past(columns, first, boundary, previous) && !Past(columns, r, boundary, previous)
    ensures Past(columns, r, Key(first, columns), !previous)
  {
    Trichotomy(columns, r, boundary, previous);
    var k, f := Key(r, columns), Key(first, columns);
    if k != boundary {
      if previous { PrecedesTransitive(columns, f, boundary, k); } else { PrecedesTransitive(columns, k, boundary, f); }
    }
  }

  /** From the first row a visit selects, the way back leads to exactly the rows the visit does not select. */
  lemma BackFromFirst(columns: seq<Column>, table: set<Row>, visit: Visit, limit: nat, fetched: seq<Row>)
    requires TableOk(columns, table) && Typed(visit.boundary, columns) && fetched != []
    requires IsSlice(columns, visit.previous, PastIt(columns, table, visit), limit, fetched) && fetched[0] in table
    ensures PastIt(columns, table, Visit(!visit.previous, Key(fetched[0], columns))) == table - PastIt(columns, table, visit)
  {
    var selected, first := PastIt(columns, table, visit), fetched[0];
    SelectedOk(columns, table, Some(visit));
    forall r | r in table
      ensures Past(columns, r, Key(first, columns), !visit.previous) <==> r !in selected
    {
      if r in selected {
        FetchedFirstIsLeast(columns, visit.previous, selected, limit, fetched, r);
        AheadAsymmetric(columns, visit.previous, first, r);
      } else {
        NotPastFirst(columns, r, first, visit.boundary, visit.previous);
      }
    }
  }

  /** From the boundary, it leads to those that are not at the boundary either. */
  lemma BackFromBoundary(columns: seq<Column>, table: set<Row>, visit: Visit)
    requires TableOk(columns, table) && Typed(visit.boundary, columns)
    ensures PastIt(columns, table, Visit(!visit.previous, visit.boundary)) ==
            table - PastIt(columns, table, visit) - AtBoundary(columns, table, visit.boundary)
    ensures PastIt(columns, table, visit) !! AtBoundary(columns, table, visit.boundary)
  {
    forall r | r in table
      ensures Past(columns, r, visit.boundary, !visit.previous) <==>
                !Past(columns, r, visit.boundary, visit.previous) && Key(r, columns) != visit.boundary
      ensures Past(columns, r, visit.boundary, visit.previous) ==> Key(r, columns) != visit.boundary
    {
      Trichotomy(columns, r, visit.boundary, visit.previous);
      Trichotomy(columns, r, visit.boundary, !visit.previous);
    }
  }

  lemma ReversedMember(rows: seq<Row>, r: Row)
    requires r in Reversed(rows)
    ensures r in rows
  {
    var i :| 0 <= i < |Reversed(rows)| && Reversed(rows)[i] == r;
    assert rows[|rows| - 1 - i] == r;
  }

  lemma ShownWereFetched(visit: Visit, size: nat, fetched: seq<Row>, r: Row)
    requires r in ItemsOf(Some(visit), size, fetched)
    ensures r in fetched
  {
    var kept := if |fetched| > size then fetched[..size] else fetched;
    if visit.previous { ReversedMember(kept, r); }
    assert r in kept;
  }

  /** What a page shows and offers, read off the rows it fetched. */
  lemma PageFacts(columns: seq<Column>, size: nat, table: set<Row>, visit: Visit, fetched: seq<Row>)
    requires size >= 1 && AllHaveColumns(columns, table) && |visit.boundary| == |columns|
    requires IsFetch(columns, table, Some(visit), size, fetched)
    requires forall i :: 0 <= i < |fetched| ==> HasColumns(fetched[i], columns)
    ensures var view := ViewOf(columns, size, Some(visit), fetched);
            && (view.items == [] <==> fetched == []) && SetOf(view.items) <= PastIt(columns, table, visit)
            && (fetched == [] ==> PastIt(columns, table, visit) == {})
            && WayBack(visit, view) == Some(if fetched == [] then visit.boundary else Key(fetched[0], columns))
  {
    var view := ViewOf(columns, size, Some(visit), fetched);
    forall r | r in view.items ensures r in PastIt(columns, table, visit) {
      ShownWereFetched(visit, size, fetched, r);
    }
  }

  /** The three never overlap, and together they are the table without `omitted`. */
  ghost predicate Splits(table: set<Row>, beyond: set<Row>, items: set<Row>, back: set<Row>, omitted: set<Row>) {
    && beyond !! items && beyond !! back && items !! back
    && table - beyond - items - back == omitted
    && (beyond + items + back == table <==> omitted == {})
  }

  lemma SetsSplit(table: set<Row>, selected: set<Row>, items: set<Row>, omitted: set<Row>)
    requires items <= selected <= table && omitted <= table && selected !! omitted
    ensures Splits(table, selected - items, items, table - selected - omitted, omitted)
  {
    if omitted != {} {
      var r :| r in omitted;
      assert r in table && r !in (selected - items) + items + (table - selected - omitted);
    }
  }

  lemma FetchedSplits(columns: seq<Column>, size: nat, table: set<Row>, visit: Visit, fetched: seq<Row>, view: View)
    requires size >= 1 && TableOk(columns, table) && Typed(visit.boundary, columns)
    requires IsFetch(columns, table, Some(visit), size, fetched)
    requires forall i :: 0 <= i < |fetched| ==> HasColumns(fetched[i], columns)
    requires view == ViewOf(columns, size, Some(visit), fetched)
    ensures WayBack(visit, view).Some? && |WayBack(visit, view).value| == |columns|
    ensures Splits(table, Beyond(columns, table, visit, view), SetOf(view.items),
                   PastIt(columns, table, Visit(!visit.previous, WayBack(visit, view).value)),
                   if view.items == [] then AtBoundary(columns, table, visit.boundary) else {})
  {
    PageFacts(columns, size, table, visit, fetched);
    var selected := PastIt(columns, table, visit);
    if fetched == [] {
      BackFromBoundary(columns, table, visit);
      SetsSplit(table, selected, {}, AtBoundary(columns, table, visit.boundary));
      assert SetOf(view.items) == {};
    } else {
      assert fetched[0] in selected;
      BackFromFirst(columns, table, visit, size + 1, fetched);
      SetsSplit(table, selected, SetOf(view.items), {});
      assert table - selected - {} == table - selected;
    }
  }

  /** The way back from any page, in either direction and whether or not the boundary's row still exists:
      the rows beyond the page, those on it and those the way back leads to never overlap, and together they
      are the table if and only if the page is not empty or no row is at the boundary.  What is left out
      otherwise is the row at the boundary. */
  lemma WayBackOmitsExactly(columns: seq<Column>, size: nat, table: set<Row>, visit: Visit, view: View)
    requires size >= 1 && TableOk(columns, table) && Typed(visit.boundary, columns)
    requires Shows(columns, size, table, Some(visit), view)
    ensures WayBack(visit, view).Some? && |WayBack(visit, view).value| == |columns|
    ensures Splits(table, Beyond(columns, table, visit, view), SetOf(view.items),
                   PastIt(columns, table, Visit(!visit.previous, WayBack(visit, view).value)),
                   if view.items == [] then AtBoundary(columns, table, visit.boundary) else {})
  {
    var fetched :|
      && IsFetch(columns, table, Some(visit), size, fetched)
      && (forall i :: 0 <= i < |fetched| ==> HasColumns(fetched[i], columns))
      && view == ViewOf(columns, size, Some(visit), fetched);
    FetchedSplits(columns, size, table, visit, fetched, view);
  }

  // Links

  /** `CursorPage.with_urls`: the links of a page follow its cursors, but those of an empty page lead to the
      first page (a link to `None`). */
  function LinkOf(view: View, previous: bool): Option<Option<Visit>> {
    var offer := if previous then view.previous else view.next;
    if offer.None? then None
    else if view.items == [] then Some(None)
    else Some(Some(Visit(previous, offer.value)))
  }

  /** A reader who follows links is passed over by nothing: the rows beyond a page, those on it and those its
      way back leads to are the whole table, always. */
  lemma WayBackLinkOmitsNothing(columns: seq<Column>, size: nat, table: set<Row>, visit: Visit, view: View)
    requires size >= 1 && TableOk(columns, table) && Typed(visit.boundary, columns)
    requires Shows(columns, size, table, Some(visit), view)
    ensures LinkOf(view, !visit.previous).Some?
    ensures var link := LinkOf(view, !visit.previous).value;
            && (link.Some? ==> |link.value.boundary| == |columns|)
            && Beyond(columns, table, visit, view) + SetOf(view.items) + Selected(columns, table, link) == table
  {
    WayBackOmitsExactly(columns, size, table, visit, view);
    if view.items == [] { assert Selected(columns, table, None) == table; }
  }

  /** Going on by cursors from any boundary on a table that does not change reads exactly the rows past it. */
  lemma ReadsAllPast(columns: seq<Column>, size: nat, boundary: Option<Boundary>, table: set<Row>, stops: seq<Stop>)
    requires size >= 1 && Reads(columns, size, boundary, stops) && forall i :: 0 <= i < |stops| ==> stops[i].table == table
    ensures TableOk(columns, table) && (boundary.Some? ==> |boundary.value| == |columns|)
    ensures SetOf(AllItems(size, stops)) == Selected(columns, table, At(boundary))
  {
    ReadInOrder(columns, size, boundary, stops);
    var read := AllItems(size, stops);
    assert stops[0].table == table;
    forall r | r in Selected(columns, table, At(boundary)) ensures r in read {
      ReadsWhatStays(columns, size, boundary, stops, r.id, Key(r, columns));
      var s :| s in read && HasColumns(s, columns) && s.id == r.id && Key(s, columns) == Key(r, columns);
      ItemsWereThere(columns, size, boundary, stops, s);
    }
    forall r | r in read ensures r in Selected(columns, table, At(boundary)) {
      ItemsWereThere(columns, size, boundary, stops, r);
      assert After(columns, boundary, r);
    }
  }

  lemma EmptyPageBack(columns: seq<Column>, size: nat, table: set<Row>, visit: Visit, view: View)
    requires size >= 1 && TableOk(columns, table) && Typed(visit.boundary, columns)
    requires Shows(columns, size, table, Some(visit), view) && view.items == []
    ensures WayBack(visit, view) == Some(visit.boundary) && LinkOf(view, !visit.previous) == Some(None)
    ensures PastIt(columns, table, Visit(!visit.previous, visit.boundary)) == table - AtBoundary(columns, table, visit.boundary)
  {
    EmptyShowsAll(columns, size, table, visit, view);
    BackFromBoundary(columns, table, visit);
  }

  /** So on such a table a reader who turns back by cursor on a previous page that is empty reads everything
      except the row at the boundary, and by link everything. */
  lemma TurningBackOnEmptyPage(columns: seq<Column>, size: nat, table: set<Row>, boundary: Boundary, view: View,
                               byCursor: seq<Stop>, byLink: seq<Stop>)
    requires size >= 1 && TableOk(columns, table) && Typed(boundary, columns)
    requires Shows(columns, size, table, Some(Visit(true, boundary)), view) && view.items == []
    requires Reads(columns, size, view.next, byCursor) && forall i :: 0 <= i < |byCursor| ==> byCursor[i].table == table
    requires Reads(columns, size, None, byLink) && forall i :: 0 <= i < |byLink| ==> byLink[i].table == table
    ensures view.next == Some(boundary) && LinkOf(view, false) == Some(None)
    ensures SetOf(AllItems(size, byCursor)) == table - AtBoundary(columns, table, boundary)
    ensures SetOf(AllItems(size, byLink)) == table
  {
    EmptyPageBack(columns, size, table, Visit(true, boundary), view);
    ReadsAllPast(columns, size, view.next, table, byCursor);
    ReadsAllPast(columns, size, None, table, byLink);
    WholeTable(columns, table);
  }

  lemma WholeTable(columns: seq<Column>, table: set<Row>)
    requires AllHaveColumns(columns, table)
    ensures Selected(columns, table, None) == table
  {
  }

  lemma EmptyShowsAll(columns: seq<Column>, size: nat, table: set<Row>, visit: Visit, view: View)
    requires size >= 1 && AllHaveColumns(columns, table) && |visit.boundary| == |columns|
    requires Shows(columns, size, table, Some(visit), view) && view.items == []
    ensures PastIt(columns, table, visit) == {}
  {
    var fetched :|
      && IsFetch(columns, table, Some(visit), size, fetched)
      && (forall i :: 0 <= i < |fetched| ==> HasColumns(fetched[i], columns))
      && view == ViewOf(columns, size, Some(visit), fetched);
    PageFacts(columns, size, table, visit, fetched);
  }

  // A page emptied between two requests

  /** One ascending number column. */
  const NUMBER: seq<Column> := [Column("id", INTEGER, false)]

  function Numbered(n: nat): Row {
    Row(n, map["id" := Value(INTEGER, n)])
  }

  function NumberKey(n: nat): Boundary {
    [Value(INTEGER, n)]
  }

  lemma NumbersOrdered(m: nat, n: nat)
    ensures HasColumns(Numbered(n), NUMBER) && Key(Numbered(n), NUMBER) == NumberKey(n)
    ensures Precedes(NUMBER, NumberKey(m), NumberKey(n)) <==> m < n
  {
    if m < n { assert DecidedAt(NUMBER, NumberKey(m), NumberKey(n), 0); }
  }

  lemma ShowsNumbers(table: set<Row>, visit: Option<Visit>, fetched: seq<Row>)
    requires AllHaveColumns(NUMBER, table) && (visit.Some? ==> |visit.value.boundary| == 1)
    requires IsFetch(NUMBER, table, visit, 1, fetched) && forall i :: 0 <= i < |fetched| ==> HasColumns(fetched[i], NUMBER)
    ensures Shows(NUMBER, 1, table, visit, ViewOf(NUMBER, 1, visit, fetched))
  {
  }

  lemma NumberSlices()
    ensures AllHaveColumns(NUMBER, {Numbered(1), Numbered(2)})
    ensures IsSlice(NUMBER, false, {Numbered(1), Numbered(2)}, 2, [Numbered(1), Numbered(2)])
    ensures IsSlice(NUMBER, false, {Numbered(2)}, 2, [Numbered(2)])
  {
    NumbersOrdered(1, 2);
    NumbersOrdered(2, 1);
    assert !Ahead(NUMBER, false, Numbered(2), Numbered(1));
  }

  lemma NumberSelections()
    ensures AllHaveColumns(NUMBER, {Numbered(1), Numbered(2)})
    ensures Selected(NUMBER, {Numbered(1), Numbered(2)}, None) == {Numbered(1), Numbered(2)}
    ensures Selected(NUMBER, {Numbered(1), Numbered(2)}, Some(Visit(false, NumberKey(1)))) == {Numbered(2)}
  {
    NumbersOrdered(1, 2);
    NumbersOrdered(1, 1);
  }

  /** Two rows, one a page. */
  lemma FirstPageShown()
    ensures Shows(NUMBER, 1, {Numbered(1), Numbered(2)}, None, View([Numbered(1)], Some(NumberKey(1)), None))
  {
    NumberSlices();
    NumberSelections();
    NumbersOrdered(1, 2);
    NumbersOrdered(1, 1);
    ShowsNumbers({Numbered(1), Numbered(2)}, None, [Numbered(1), Numbered(2)]);
  }

  lemma SecondPageShown()
    ensures Shows(NUMBER, 1, {Numbered(1), Numbered(2)}, Some(Visit(false, NumberKey(1))),
                  View([Numbered(2)], None, Some(NumberKey(2))))
  {
    NumberSlices();
    NumberSelections();
    NumbersOrdered(1, 2);
    ShowsNumbers({Numbered(1), Numbered(2)}, Some(Visit(false, NumberKey(1))), [Numbered(2)]);
  }

  /** A table with the one row `n`, visited from that row in either direction. */
  lemma EmptiedPageShown(n: nat, previous: bool)
    ensures Shows(NUMBER, 1, {Numbered(n)}, Some(Visit(previous, NumberKey(n))),
                  View([], if previous then Some(NumberKey(n)) else None, if previous then None else Some(NumberKey(n))))
  {
    NumbersOrdered(n, n);
    var visit := Visit(previous, NumberKey(n));
    assert Selected(NUMBER, {Numbered(n)}, Some(visit)) == {};
    ShowsNumbers({Numbered(n)}, Some(visit), []);
  }

  /** Two rows, one a page.  On the second page the first row is deleted: the previous page is empty, and the
      page its next cursor leads to is empty as well, though the second row is still there; that page's
      previous cursor leads to the empty page again.  The same happens on the first page when the second row
      is deleted and the reader goes on and back.  The links of the empty pages lead to the first page. */
  lemma EmptiedPageRun()
    ensures var both, k1, k2 := {Numbered(1), Numbered(2)}, NumberKey(1), NumberKey(2);
            var first, second := View([Numbered(1)], Some(k1), None), View([Numbered(2)], None, Some(k2));
            && Shows(NUMBER, 1, both, None, first) && Shows(NUMBER, 1, both, Some(Visit(false, k1)), second)
            && Shows(NUMBER, 1, {Numbered(2)}, Some(Visit(true, k2)), View([], Some(k2), None))
            && Shows(NUMBER, 1, {Numbered(2)}, Some(Visit(false, k2)), View([], None, Some(k2)))
            && Shows(NUMBER, 1, {Numbered(1)}, Some(Visit(false, k1)), View([], None, Some(k1)))
            && Shows(NUMBER, 1, {Numbered(1)}, Some(Visit(true, k1)), View([], Some(k1), None))
            && LinkOf(View([], Some(k2), None), false) == Some(None) && LinkOf(View([], None, Some(k1)), true) == Some(None)
  {
    FirstPageShown();
    SecondPageShown();
    EmptiedPageShown(2, true);
    EmptiedPageShown(2, false);
    EmptiedPageShown(1, false);
    EmptiedPageShown(1, true);
  }
}
