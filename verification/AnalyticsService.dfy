/** analytics.py and its management command: capture, bounded aggregation and purge update the rows of
    the pipeline in place.  `done` is the history the rollups must agree with. */
module AnalyticsService {
  import opened Wrappers
  import opened Entitlements
  import opened Analytics

  const RETENTION: int := 90 * SECONDS_PER_DAY
  const MAX_ANALYTICS_BATCH_SIZE: nat := 1000
  const MAX_JOB_BATCHES: nat := 100

  datatype CaptureResult = Captured | AlreadyCaptured | AccessDenied

  /** `Rejected` is the ValueError for arguments out of bounds. */
  datatype AggregationResult = Rejected | Aggregated(processed: nat, lastCompleted: OpenId)

  datatype PurgeResult = Refused | Purged(removed: nat)

  datatype Report = CommandError | Report(processed: nat, removed: nat, aggregationMayRemain: bool, purgeMayRemain: bool)

  function EventsOf(opens: map<OpenId, Row>, ids: seq<OpenId>): (r: seq<Event>)
    requires forall i :: 0 <= i < |ids| ==> ids[i] in opens
    ensures |r| == |ids| && forall i :: 0 <= i < |ids| ==> r[i] == Event(ids[i], opens[ids[i]].open)
  {
    seq(|ids|, i requires 0 <= i < |ids| => Event(ids[i], opens[ids[i]].open))
  }

  function Mark(opens: map<OpenId, Row>, ids: seq<OpenId>, at: Time): map<OpenId, Row> {
    map id | id in opens :: if id in ids then opens[id].(aggregatedAt := Some(at)) else opens[id]
  }

  lemma MarkKeepsHistory(opens: map<OpenId, Row>, done: seq<Event>, captured: set<AuthorizationId>, ids: seq<OpenId>, at: Time)
    requires HistoryOk(opens, done, captured)
    requires forall i :: 0 <= i < |ids| ==> ids[i] in opens && opens[ids[i]].aggregatedAt.None?
    requires forall i, j :: 0 <= i < j < |ids| ==> ids[i] != ids[j]
    ensures HistoryOk(Mark(opens, ids, at), done + EventsOf(opens, ids), captured)
  {
    var batch := EventsOf(opens, ids);
    var marked, more := Mark(opens, ids, at), done + batch;
    assert forall e :: e in batch ==> e.id in opens && opens[e.id].open == e.open && e.id in ids && e !in done;
    assert forall e :: Known(marked, more, e) ==> Known(opens, done, e);
    forall id | id in marked ensures marked[id].aggregatedAt.Some? <==> Event(id, marked[id].open) in more {
      if id in ids {
        var i :| 0 <= i < |ids| && ids[i] == id;
        assert batch[i] == Event(id, opens[id].open);
      } else {
        assert Event(id, opens[id].open) !in batch;
      }
    }
    forall i, j | 0 <= i < j < |more| ensures more[i] != more[j] {
      if |done| <= i { assert more[i] == batch[i - |done|]; }
      if |done| <= j { assert more[j] == batch[j - |done|]; }
    }
  }

  lemma PurgeKeepsHistory(opens: map<OpenId, Row>, done: seq<Event>, captured: set<AuthorizationId>, gone: set<OpenId>)
    requires HistoryOk(opens, done, captured)
    requires forall id :: id in gone && id in opens ==> opens[id].aggregatedAt.Some?
    ensures HistoryOk(opens - gone, done, captured)
  {
    assert forall e :: Known(opens - gone, done, e) ==> Known(opens, done, e);
  }

  lemma CaptureKeepsHistory(opens: map<OpenId, Row>, done: seq<Event>, captured: set<AuthorizationId>, id: OpenId, o: Open)
    requires HistoryOk(opens, done, captured) && o.authorization !in captured
    requires forall e :: Known(opens, done, e) ==> e.id != id
    ensures HistoryOk(opens[id := Row(o, None)], done, captured + {o.authorization})
  {
    var more := opens[id := Row(o, None)];
    assert forall e :: Known(more, done, e) ==> e == Event(id, o) || Known(opens, done, e);
    assert forall j :: j in opens ==> Known(opens, done, Event(j, opens[j].open));
    assert !Known(opens, done, Event(id, o));
  }

  /** What later transactions make of the rows: aggregation is for good, a missing row was aggregated,
      and a new row was opened at `floor` or later. */
  ghost predicate Follows(opens: map<OpenId, Row>, done: seq<Event>, later: map<OpenId, Row>, doneLater: seq<Event>, floor: Time) {
    && done <= doneLater
    && (forall id :: id in opens ==>
          if id in later then later[id].open == opens[id].open && (opens[id].aggregatedAt.Some? ==> later[id].aggregatedAt.Some?)
          else Event(id, opens[id].open) in doneLater)
    && (forall id :: id in later && id !in opens ==> later[id].open.openedAt >= floor)
  }

  lemma FollowsThrough(a: map<OpenId, Row>, x: seq<Event>, b: map<OpenId, Row>, y: seq<Event>, c: map<OpenId, Row>, z: seq<Event>,
                       captured: set<AuthorizationId>, floor: Time)
    requires Follows(a, x, b, y, floor) && Follows(b, y, c, z, floor) && HistoryOk(c, z, captured)
    ensures Follows(a, x, c, z, floor)
  {
    forall id | id in a
      ensures if id in c then c[id].open == a[id].open && (a[id].aggregatedAt.Some? ==> c[id].aggregatedAt.Some?)
              else Event(id, a[id].open) in z
    {
      if id in c && id !in b {
        assert Known(c, z, Event(id, a[id].open)) && Known(c, z, Event(id, c[id].open));
        assert Alike(Event(id, a[id].open), Event(id, c[id].open));
      }
    }
  }

  lemma AggregationFollows(opens: map<OpenId, Row>, done: seq<Event>, ids: seq<OpenId>, at: Time, floor: Time)
    requires forall i :: 0 <= i < |ids| ==> ids[i] in opens
    ensures Follows(opens, done, Mark(opens, ids, at), done + EventsOf(opens, ids), floor)
  {
  }

  lemma PurgeFollows(opens: map<OpenId, Row>, done: seq<Event>, captured: set<AuthorizationId>, gone: set<OpenId>, floor: Time)
    requires HistoryOk(opens, done, captured)
    requires forall id :: id in gone ==> id in opens && opens[id].aggregatedAt.Some?
    ensures Follows(opens, done, opens - gone, done, floor)
  {
  }

  lemma NothingHappened(opens: map<OpenId, Row>, done: seq<Event>, floor: Time)
    ensures Follows(opens, done, opens, done, floor)
  {
  }

  /** The rows of so many full batches. */
  function Full(batches: nat, size: nat): nat {
    if batches == 0 then 0 else Full(batches - 1, size) + size
  }

  lemma {:induction false} FullGrows(i: nat, batches: nat, size: nat)
    requires i <= batches
    ensures Full(i, size) <= Full(batches, size)
    decreases batches
  {
    if i < batches { FullGrows(i, batches - 1, size); }
  }

  /** After `i` batches, the last of them of size `batch`. */
  lemma FullOrLess(i: nat, batches: nat, size: nat, batch: nat)
    requires 1 <= i <= batches && batch <= size
    ensures Full(i - 1, size) + size == Full(i, size)
    ensures batch < size ==> Full(i - 1, size) + batch < Full(batches, size)
  {
    FullGrows(i, batches, size);
  }

  lemma {:induction false} FullIsProduct(batches: nat, size: nat)
    ensures Full(batches, size) == batches * size
    decreases batches
  {
    if batches > 0 { FullIsProduct(batches - 1, size); }
  }

  /** The opens that entered the history between two moments, some of them or all. */
  ghost predicate NewlyCounted(before: seq<Event>, after: seq<Event>, counted: seq<Event>) {
    && (forall i, j :: 0 <= i < j < |counted| ==> counted[i] != counted[j])
    && (forall e :: e in counted ==> e in after && e !in before)
  }

  lemma BatchIsNew(before: seq<Event>, batch: seq<Event>)
    requires var after := before + batch; forall i, j :: 0 <= i < j < |after| ==> after[i] != after[j]
    ensures NewlyCounted(before, before + batch, batch)
  {
    var after := before + batch;
    assert forall i :: 0 <= i < |batch| ==> batch[i] == after[|before| + i];
    forall e | e in batch ensures e in after && e !in before {
      var j :| 0 <= j < |batch| && batch[j] == e;
      assert after[|before| + j] == e;
      assert forall i :: 0 <= i < |before| ==> before[i] == after[i];
    }
  }

  lemma CountedMore(first: seq<Event>, middle: seq<Event>, later: seq<Event>, last: seq<Event>, counted: seq<Event>, more: seq<Event>)
    requires NewlyCounted(first, middle, counted) && NewlyCounted(later, last, more)
    requires first <= middle <= later <= last
    ensures NewlyCounted(first, last, counted + more)
  {
    var all := counted + more;
    assert forall e :: e in first ==> e in later;
    forall i, j | 0 <= i < j < |all| ensures all[i] != all[j] {
      if i < |counted| <= j { assert all[i] in middle && all[i] in later && all[j] in more; }
    }
  }

  lemma BatchCounts(first: seq<Event>, before: seq<Event>, opens: map<OpenId, Row>, ids: seq<OpenId>, through: Time, limit: nat)
    requires IsWindow(opens, Pending(opens, through), limit, ids) && first <= before
    requires var after := before + EventsOf(opens, ids); forall i, j :: 0 <= i < j < |after| ==> after[i] != after[j]
    ensures NewlyCounted(first, before + EventsOf(opens, ids), EventsOf(opens, ids))
    ensures forall e :: e in EventsOf(opens, ids) ==> e.open.openedAt <= through
  {
    var batch := EventsOf(opens, ids);
    BatchIsNew(before, batch);
    CountedMore(first, first, before, before + batch, [], batch);
    assert [] + batch == batch;
    assert forall i :: 0 <= i < |ids| ==> ids[i] in Pending(opens, through);
  }

  /** Opens whose rows have been purged, each once: counted, older than the cutoff, and not there any more. */
  ghost predicate ArePurged(opens: map<OpenId, Row>, done: seq<Event>, purged: seq<Event>, cutoff: Time) {
    && (forall i, j :: 0 <= i < j < |purged| ==> purged[i] != purged[j])
    && (forall e :: e in purged ==> e in done && e.open.openedAt < cutoff && e.id !in Expired(opens, cutoff))
  }

  lemma PurgedFollow(opens: map<OpenId, Row>, done: seq<Event>, later: map<OpenId, Row>, doneLater: seq<Event>, purged: seq<Event>, cutoff: Time)
    requires ArePurged(opens, done, purged, cutoff) && Follows(opens, done, later, doneLater, cutoff)
    ensures ArePurged(later, doneLater, purged, cutoff)
  {
    forall e | e in purged ensures e in doneLater && e.id !in Expired(later, cutoff) {
      assert e in done;
    }
  }

  lemma PurgedMore(opens: map<OpenId, Row>, done: seq<Event>, captured: set<AuthorizationId>, purged: seq<Event>, gone: seq<OpenId>, cutoff: Time)
    requires HistoryOk(opens, done, captured) && ArePurged(opens, done, purged, cutoff)
    requires forall i :: 0 <= i < |gone| ==> gone[i] in opens && gone[i] in Expired(opens, cutoff) && opens[gone[i]].aggregatedAt.Some?
    requires forall i, j :: 0 <= i < j < |gone| ==> gone[i] != gone[j]
    ensures ArePurged(opens - Listed(gone), done, purged + EventsOf(opens, gone), cutoff)
  {
    var batch := EventsOf(opens, gone);
    var all := purged + batch;
    assert forall i :: 0 <= i < |gone| ==> batch[i].id == gone[i];
    forall i, j | 0 <= i < j < |all| ensures all[i] != all[j] {
      if i < |purged| <= j { assert all[i] in purged && all[j].id == gone[j - |purged|]; }
    }
    forall e | e in batch ensures e in done && e.open.openedAt < cutoff && e.id in gone {
      var i :| 0 <= i < |batch| && batch[i] == e;
      assert gone[i] in gone;
    }
  }

  /** A record that has grown by `more`. */
  ghost predicate GrownBy<T>(before: seq<T>, more: seq<T>, after: seq<T>) {
    after == before + more
  }

  lemma GrownFurther<T>(before: seq<T>, more: seq<T>, middle: seq<T>, further: seq<T>, after: seq<T>)
    requires GrownBy(before, more, middle) && GrownBy(middle, further, after)
    ensures GrownBy(before, more + further, after)
  {
  }

  /** Every row opened before the cutoff has been aggregated. */
  ghost predicate Drained(opens: map<OpenId, Row>, cutoff: Time) {
    forall id :: id in opens && opens[id].open.openedAt < cutoff ==> opens[id].aggregatedAt.Some?
  }

  lemma DrainedFollows(a: map<OpenId, Row>, x: seq<Event>, b: map<OpenId, Row>, y: seq<Event>, cutoff: Time)
    requires Drained(a, cutoff) && Follows(a, x, b, y, cutoff)
    ensures Drained(b, cutoff)
  {
  }

  /** Every open of `opens` up to `through` is in the history. */
  ghost predicate AllCounted(opens: map<OpenId, Row>, done: seq<Event>, through: Time) {
    forall id :: id in opens && opens[id].open.openedAt <= through ==> Event(id, opens[id].open) in done
  }

  lemma NothingPendingMeansCounted(a: map<OpenId, Row>, x: seq<Event>, b: map<OpenId, Row>, y: seq<Event>,
                                   captured: set<AuthorizationId>, through: Time, floor: Time)
    requires Follows(a, x, b, y, floor) && HistoryOk(b, y, captured) && Pending(b, through) == {}
    ensures AllCounted(a, y, through)
    ensures floor <= through ==> Drained(b, floor)
  {
    forall id | id in b && b[id].open.openedAt <= through ensures b[id].aggregatedAt.Some? {
      assert id !in Pending(b, through);
    }
  }

  /** The rows of a window that a purge removes, in the window's order. */
  function RemovableIds(opens: map<OpenId, Row>, checkpoint: OpenId, ids: seq<OpenId>): (r: seq<OpenId>)
    ensures forall i :: 0 <= i < |r| ==> r[i] in ids && r[i] in opens && Removable(opens, checkpoint, r[i])
  {
    if ids == [] then []
    else
      var init, last := ids[..|ids| - 1], ids[|ids| - 1];
      RemovableIds(opens, checkpoint, init) + if Removable(opens, checkpoint, last) then [last] else []
  }

  lemma {:induction false} RemovableDistinct(opens: map<OpenId, Row>, checkpoint: OpenId, ids: seq<OpenId>)
    requires forall i, j :: 0 <= i < j < |ids| ==> ids[i] != ids[j]
    ensures var r := RemovableIds(opens, checkpoint, ids);
            && |r| <= |ids| && (forall i, j :: 0 <= i < j < |r| ==> r[i] != r[j])
            && ((forall i :: 0 <= i < |ids| ==> Removable(opens, checkpoint, ids[i])) ==> r == ids)
    decreases |ids|
  {
    if ids != [] {
      var init, last := ids[..|ids| - 1], ids[|ids| - 1];
      RemovableDistinct(opens, checkpoint, init);
      assert last !in init && ids == init + [last];
    }
  }

  lemma WindowDistinct(opens: map<OpenId, Row>, selected: set<OpenId>, limit: nat, ids: seq<OpenId>)
    requires IsWindow(opens, selected, limit, ids)
    ensures forall i, j :: 0 <= i < j < |ids| ==> ids[i] != ids[j]
    ensures forall i :: 0 <= i < |ids| ==> ids[i] in selected
  {
    assert forall i, j :: 0 <= i < j < |ids| ==> Before(opens, ids[i], ids[j]);
  }

  /** Of drained rows a purge that removes less than a batch leaves none behind. */
  lemma ShortPurgeClears(opens: map<OpenId, Row>, done: seq<Event>, captured: set<AuthorizationId>, checkpoint: Option<OpenId>,
                         cutoff: Time, limit: nat, ids: seq<OpenId>)
    requires HistoryOk(opens, done, captured) && CheckpointOk(checkpoint, done) && checkpoint.Some?
    requires Drained(opens, cutoff) && IsWindow(opens, Expired(opens, cutoff), limit, ids)
    requires |RemovableIds(opens, checkpoint.value, ids)| < limit
    ensures Expired(opens - Listed(RemovableIds(opens, checkpoint.value, ids)), cutoff) == {}
  {
    WindowDistinct(opens, Expired(opens, cutoff), limit, ids);
    forall i | 0 <= i < |ids| ensures Removable(opens, checkpoint.value, ids[i]) {
      RemovableWhenAggregated(opens, done, captured, checkpoint, ids[i]);
    }
    RemovableDistinct(opens, checkpoint.value, ids);
    ShortWindowIsAll(opens, Expired(opens, cutoff), limit, ids);
  }

  /** What one purge adds to the opens purged so far. */
  lemma PurgeStep(opens: map<OpenId, Row>, done: seq<Event>, captured: set<AuthorizationId>, checkpoint: OpenId, cutoff: Time,
                  limit: nat, ids: seq<OpenId>, purged: seq<Event>)
    requires HistoryOk(opens, done, captured) && ArePurged(opens, done, purged, cutoff)
    requires IsWindow(opens, Expired(opens, cutoff), limit, ids)
    ensures var gone := RemovableIds(opens, checkpoint, ids);
            && |gone| <= limit && ArePurged(opens - Listed(gone), done, purged + EventsOf(opens, gone), cutoff)
            && Follows(opens, done, opens - Listed(gone), done, cutoff)
  {
    var gone := RemovableIds(opens, checkpoint, ids);
    WindowDistinct(opens, Expired(opens, cutoff), limit, ids);
    RemovableDistinct(opens, checkpoint, ids);
    assert forall id :: id in ids ==> id in Expired(opens, cutoff);
    PurgedMore(opens, done, captured, purged, gone, cutoff);
    PurgeFollows(opens, done, captured, Listed(gone), cutoff);
  }

  lemma SelectOne(events: seq<Event>, e: Event, key: Key)
    ensures Select(events + [e], key) == if Matches(e, key) then Select(events, key) + [e] else Select(events, key)
  {
    assert (events + [e])[..|events|] == events;
  }

  lemma DailyStep(counts: map<(DashboardId, Day), nat>, events: seq<Event>, e: Event)
    requires DailyAgrees(counts, events)
    ensures var k := (e.open.dashboard, DayOf(e.open.openedAt));
            DailyAgrees(counts[k := (if k in counts then counts[k] else 0) + 1], events + [e])
  {
    forall d: DashboardId, day: Day { SelectOne(events, e, OnDay(d, day)); }
  }

  lemma ViewerStep(groups: map<(DashboardId, UserId), seq<Event>>, events: seq<Event>, e: Event)
    requires ViewerGroups(groups, events)
    ensures var k := (e.open.dashboard, e.open.viewer);
            ViewerGroups(groups[k := (if k in groups then groups[k] else []) + [e]], events + [e])
  {
    forall d: DashboardId, v: UserId { SelectOne(events, e, ByViewer(d, v)); }
  }

  lemma DashboardStep(groups: map<DashboardId, seq<Event>>, events: seq<Event>, e: Event)
    requires DashboardGroups(groups, events)
    ensures var k := e.open.dashboard;
            DashboardGroups(groups[k := (if k in groups then groups[k] else []) + [e]], events + [e])
  {
    forall d: DashboardId { SelectOne(events, e, Whole(d)); }
  }

  class Pipeline {
    var now: Time
    var opens: map<OpenId, Row>
    var checkpoint: Option<OpenId>
    var daily: map<(DashboardId, Day), nat>
    var viewers: map<(DashboardId, UserId), ViewerSummary>
    var snapshots: map<DashboardId, Snapshot>
    var captured: set<AuthorizationId>
    var viewerStates: map<(UserId, DashboardId), ViewerState>

    /** Every open ever aggregated, in order, purged ones included. */
    ghost var done: seq<Event>

    /** The opens that this process has counted and those that it has purged itself. */
    ghost var ownCounted: seq<Event>
    ghost var ownPurged: seq<Event>

    ghost predicate Valid()
      reads this
    {
      && HistoryOk(opens, done, captured)
      && CheckpointOk(checkpoint, done)
      && DailyAgrees(daily, done)
      && ViewersAgree(viewers, done)
      && SnapshotsAgree(snapshots, done)
    }

    constructor (at: Time)
      ensures Valid() && done == [] && opens == map[] && captured == {} && now == at
    {
      now, opens, checkpoint, daily, viewers := at, map[], None, map[], map[];
      snapshots, captured, viewerStates, done := map[], {}, map[], [];
      ownCounted, ownPurged := [], [];
    }

    /** `capture_authorized_open`: the unique index on the source authorization never has to refuse. */
    method CaptureAuthorizedOpen(w: World, a: AuthorizationId, id: OpenId) returns (r: CaptureResult)
      requires Valid() && forall e :: Known(opens, done, e) ==> e.id != id
      requires a in w.authorizations ==> w.authorizations[a].dashboard in w.dashboards && w.authorizations[a].viewer in w.users
      modifies this`opens, this`captured, this`viewerStates
      ensures Valid()
      ensures r == Captured <==> a in w.authorizations && a !in old(captured) && CanSourceOpen(w, w.authorizations[a])
      ensures r == AlreadyCaptured <==> a in w.authorizations && a in old(captured)
      ensures r == Captured ==>
                var x := w.authorizations[a];
                && CanSourceOpen(w, x)
                && opens == old(opens)[id := Row(Open(a, x.dashboard, x.viewer, x.revision, x.version.value, x.createdAt), None)]
                && captured == old(captured) + {a}
                && viewerStates == AdvanceViewerState(old(viewerStates), x.viewer, x.dashboard, x.createdAt, x.version.value)
                && (x.viewer, x.dashboard) in viewerStates
                && viewerStates[(x.viewer, x.dashboard)].lastViewedAt >= x.createdAt
                && viewerStates[(x.viewer, x.dashboard)].seenVersion >= x.version.value
      ensures r != Captured ==> opens == old(opens) && captured == old(captured) && viewerStates == old(viewerStates)
    {
      if a !in w.authorizations { return AccessDenied; }
      if a in captured { return AlreadyCaptured; }
      var x := w.authorizations[a];
      if !CanSourceOpen(w, x) { return AccessDenied; }
      var o := Open(a, x.dashboard, x.viewer, x.revision, x.version.value, x.createdAt);
      assert forall i :: i in opens ==> Known(opens, done, Event(i, opens[i].open));
      if exists i :: i in opens && opens[i].open.authorization == a { return AlreadyCaptured; }
      CaptureKeepsHistory(opens, done, captured, id, o);
      opens := opens[id := Row(o, None)];
      captured := captured + {a};
      viewerStates := AdvanceViewerState(viewerStates, x.viewer, x.dashboard, x.createdAt, x.version.value);
      return Captured;
    }

    /** The bounded query `order_by("opened_at", "id")[:limit]` over the selected rows. */
    method Window(selected: set<OpenId>, limit: nat) returns (ids: seq<OpenId>)
      requires selected <= opens.Keys
      ensures IsWindow(opens, selected, limit, ids)
    {
      ids := [];
      var todo := selected;
      while |ids| < limit && todo != {}
        invariant todo <= selected && |ids| <= limit && |ids| + |todo| == |selected|
        invariant forall i :: 0 <= i < |ids| ==> ids[i] in selected && ids[i] !in todo
        invariant forall i, j :: 0 <= i < j < |ids| ==> Before(opens, ids[i], ids[j])
        invariant forall id :: id in selected ==> id in todo || id in ids
        invariant forall i, id :: 0 <= i < |ids| && id in todo ==> Before(opens, ids[i], id)
        decreases todo
      {
        var id := Oldest(todo);
        ids := ids + [id];
        todo := todo - {id};
      }
    }

    method Oldest(rows: set<OpenId>) returns (id: OpenId)
      requires rows <= opens.Keys && rows != {}
      ensures id in rows && forall j :: j in rows && j != id ==> Before(opens, id, j)
    {
      id :| id in rows;
      var todo := rows - {id};
      while todo != {}
        invariant todo <= rows && id in rows && id !in todo
        invariant forall j :: j in rows && j !in todo && j != id ==> Before(opens, id, j)
        decreases todo
      {
        var j :| j in todo;
        if Before(opens, j, id) { id := j; }
        todo := todo - {j};
      }
    }

    /** The grouping loop of `aggregate_authorized_opens`. */
    static method GroupOpens(batch: seq<Event>)
      returns (dailyCounts: map<(DashboardId, Day), nat>, viewerEvents: map<(DashboardId, UserId), seq<Event>>,
               dashboardEvents: map<DashboardId, seq<Event>>)
      ensures DailyAgrees(dailyCounts, batch) && ViewerGroups(viewerEvents, batch) && DashboardGroups(dashboardEvents, batch)
    {
      dailyCounts, viewerEvents, dashboardEvents := map[], map[], map[];
      for i := 0 to |batch|
        invariant DailyAgrees(dailyCounts, batch[..i])
        invariant ViewerGroups(viewerEvents, batch[..i])
        invariant DashboardGroups(dashboardEvents, batch[..i])
      {
        var e := batch[i];
        var d, v, day := e.open.dashboard, e.open.viewer, DayOf(e.open.openedAt);
        DailyStep(dailyCounts, batch[..i], e);
        ViewerStep(viewerEvents, batch[..i], e);
        DashboardStep(dashboardEvents, batch[..i], e);
        var count := if (d, day) in dailyCounts then dailyCounts[(d, day)] else 0;
        dailyCounts := dailyCounts[(d, day) := count + 1];
        var seen := if (d, v) in viewerEvents then viewerEvents[(d, v)] else [];
        viewerEvents := viewerEvents[(d, v) := seen + [e]];
        var all := if d in dashboardEvents then dashboardEvents[d] else [];
        dashboardEvents := dashboardEvents[d := all + [e]];
        assert batch[..i + 1] == batch[..i] + [e];
      }
      assert batch[..|batch|] == batch;
    }

    method AddDaily(counts: map<(DashboardId, Day), nat>, ghost batch: seq<Event>)
      requires DailyAgrees(daily, done) && DailyAgrees(counts, batch)
      modifies this`daily
      ensures DailyAgrees(daily, done + batch)
    {
      var todo := counts.Keys;
      while todo != {}
        invariant todo <= counts.Keys
        invariant daily.Keys == old(daily).Keys + (counts.Keys - todo)
        invariant forall k :: k in daily ==>
                    daily[k] == (if k in old(daily) then old(daily)[k] else 0) + (if k in counts && k !in todo then counts[k] else 0)
        decreases todo
      {
        var k :| k in todo;
        if k !in daily {
          daily := daily[k := counts[k]];
        } else {
          daily := daily[k := daily[k] + counts[k]];
        }
        todo := todo - {k};
      }
      DailyAdds(old(daily), daily, counts, done, batch);
    }

    method AddViewers(groups: map<(DashboardId, UserId), seq<Event>>, ghost batch: seq<Event>)
      requires ViewersAgree(viewers, done) && ViewerGroups(groups, batch)
      modifies this`viewers
      ensures ViewersAgree(viewers, done + batch)
    {
      var todo := groups.Keys;
      GroupsNonempty(groups, batch);
      while todo != {}
        invariant todo <= groups.Keys
        invariant viewers.Keys == old(viewers).Keys + (groups.Keys - todo)
        invariant forall k :: k in viewers ==>
                    viewers[k] == if k in groups && k !in todo then Merge(Lookup(old(viewers), k), groups[k]) else old(viewers)[k]
        decreases todo
      {
        var k :| k in todo;
        SaveViewer(k, groups[k]);
        todo := todo - {k};
      }
      ViewersAdd(old(viewers), viewers, groups, done, batch);
    }

    method SaveViewer(k: (DashboardId, UserId), events: seq<Event>)
      requires events != []
      modifies this`viewers
      ensures viewers == old(viewers)[k := Merge(Lookup(old(viewers), k), events)]
    {
      var first, last := First(events), Last(events);
      if k !in viewers {
        viewers := viewers[k := ViewerSummary(|events|, first, last)];
      } else {
        var s := viewers[k];
        viewers := viewers[k := ViewerSummary(s.count + |events|, Min(s.first, first), Max(s.last, last))];
      }
    }

    static lemma GroupsNonempty(groups: map<(DashboardId, UserId), seq<Event>>, batch: seq<Event>)
      requires ViewerGroups(groups, batch)
      ensures forall k :: k in groups ==> groups[k] != []
    {
      forall k | k in groups ensures groups[k] != [] {
        assert k == (k.0, k.1) && Select(batch, ByViewer(k.0, k.1)) != [];
      }
    }

    method AddSnapshots(groups: map<DashboardId, seq<Event>>, ghost batch: seq<Event>)
      requires SnapshotsAgree(snapshots, done) && DashboardGroups(groups, batch)
      modifies this`snapshots
      ensures SnapshotsAgree(snapshots, done + batch)
    {
      var todo := groups.Keys;
      DashboardGroupsNonempty(groups, batch);
      while todo != {}
        invariant todo <= groups.Keys
        invariant snapshots.Keys == old(snapshots).Keys + (groups.Keys - todo)
        invariant forall k :: k in snapshots ==>
                    snapshots[k] == if k in groups && k !in todo then MergeSnapshot(Lookup(old(snapshots), k), groups[k]) else old(snapshots)[k]
        decreases todo
      {
        var d :| d in todo;
        SaveSnapshot(d, groups[d]);
        todo := todo - {d};
      }
      SnapshotsAdd(old(snapshots), snapshots, groups, done, batch);
    }

    method SaveSnapshot(d: DashboardId, events: seq<Event>)
      requires events != []
      modifies this`snapshots
      ensures snapshots == old(snapshots)[d := MergeSnapshot(Lookup(old(snapshots), d), events)]
    {
      var last, through := Last(events), HighestId(events);
      if d !in snapshots {
        snapshots := snapshots[d := Snapshot(|events|, last, through)];
      } else {
        var s := snapshots[d];
        snapshots := snapshots[d := Snapshot(s.count + |events|, Max(s.last, last), Max(s.through, through))];
      }
    }

    static lemma DashboardGroupsNonempty(groups: map<DashboardId, seq<Event>>, batch: seq<Event>)
      requires DashboardGroups(groups, batch)
      ensures forall k :: k in groups ==> groups[k] != []
    {
    }

    method RollUp(events: seq<Event>)
      requires DailyAgrees(daily, done) && ViewersAgree(viewers, done) && SnapshotsAgree(snapshots, done)
      modifies this`daily, this`viewers, this`snapshots
      ensures DailyAgrees(daily, done + events) && ViewersAgree(viewers, done + events) && SnapshotsAgree(snapshots, done + events)
    {
      var dailyCounts, viewerEvents, dashboardEvents := GroupOpens(events);
      AddDaily(dailyCounts, events);
      AddViewers(viewerEvents, events);
      AddSnapshots(dashboardEvents, events);
    }

    /** Marks the rows of the batch and moves the checkpoint, never back. */
    method Complete(batch: seq<OpenId>)
      requires HistoryOk(opens, done, captured) && CheckpointOk(checkpoint, done) && checkpoint.Some?
      requires forall i :: 0 <= i < |batch| ==> batch[i] in opens && opens[batch[i]].aggregatedAt.None?
      requires forall i, j :: 0 <= i < j < |batch| ==> batch[i] != batch[j]
      modifies this`opens, this`checkpoint, this`done, this`ownCounted
      ensures opens == Mark(old(opens), batch, now) && done == old(done) + EventsOf(old(opens), batch)
      ensures ownCounted == old(ownCounted) + EventsOf(old(opens), batch)
      ensures HistoryOk(opens, done, captured) && CheckpointOk(checkpoint, done)
      ensures checkpoint.Some? && old(checkpoint).value <= checkpoint.value
    {
      var events := EventsOf(opens, batch);
      MarkKeepsHistory(opens, done, captured, batch, now);
      HighestConcat(done, events);
      opens := Mark(opens, batch, now);
      var highest := HighestId(events);
      checkpoint := Some(if checkpoint.value <= highest then highest else checkpoint.value);
      done, ownCounted := done + events, ownCounted + events;
    }

    /** `_locked_checkpoint`. */
    method LockedCheckpoint()
      requires CheckpointOk(checkpoint, done)
      modifies this`checkpoint
      ensures CheckpointOk(checkpoint, done) && checkpoint.Some?
      ensures old(checkpoint).Some? ==> checkpoint == old(checkpoint)
    {
      if checkpoint.None? { checkpoint := Some(0); }
    }

    /** `aggregate_authorized_opens`: `ids` are the rows of the batch. */
    method AggregateAuthorizedOpens(through: Time, batchSize: int) returns (r: AggregationResult, ghost ids: seq<OpenId>)
      requires Valid()
      modifies this`opens, this`checkpoint, this`daily, this`viewers, this`snapshots, this`done, this`ownCounted
      ensures Valid()
      ensures r.Rejected? <==> !(1 <= batchSize <= MAX_ANALYTICS_BATCH_SIZE)
      ensures r.Rejected? ==>
                opens == old(opens) && done == old(done) && checkpoint == old(checkpoint) && ownCounted == old(ownCounted)
      ensures r.Aggregated? ==>
                && IsWindow(old(opens), Pending(old(opens), through), batchSize, ids)
                && opens == Mark(old(opens), ids, now) && done == old(done) + EventsOf(old(opens), ids)
                && ownCounted == old(ownCounted) + EventsOf(old(opens), ids)
                && r.processed == |ids| && checkpoint == Some(r.lastCompleted)
      ensures r.Aggregated? && r.processed < batchSize ==> Pending(opens, through) == {}
    {
      ids := [];
      if !(1 <= batchSize <= MAX_ANALYTICS_BATCH_SIZE) { return Rejected, ids; }
      LockedCheckpoint();
      var batch := Window(Pending(opens, through), batchSize);
      ids := batch;
      BatchFacts(opens, through, batchSize, ids, now);
      if batch == [] {
        assert Mark(opens, ids, now) == opens;
        return Aggregated(0, checkpoint.value), ids;
      }
      RollUp(EventsOf(opens, batch));
      Complete(batch);
      return Aggregated(|batch|, checkpoint.value), ids;
    }

    static lemma BatchFacts(opens: map<OpenId, Row>, through: Time, batchSize: nat, ids: seq<OpenId>, at: Time)
      requires IsWindow(opens, Pending(opens, through), batchSize, ids)
      ensures forall i :: 0 <= i < |ids| ==> ids[i] in opens && opens[ids[i]].aggregatedAt.None?
      ensures forall i, j :: 0 <= i < j < |ids| ==> ids[i] != ids[j]
      ensures |ids| < batchSize ==> Pending(Mark(opens, ids, at), through) == {}
    {
      assert forall i :: 0 <= i < |ids| ==> ids[i] in Pending(opens, through);
      assert forall i, j :: 0 <= i < j < |ids| ==> Before(opens, ids[i], ids[j]);
      if |ids| < batchSize { ShortWindowIsAll(opens, Pending(opens, through), batchSize, ids); }
    }

    /** `purge_authorized_opens`: `ids` is the window it looks at. */
    method PurgeAuthorizedOpens(before: Time, batchSize: int) returns (r: PurgeResult, ghost ids: seq<OpenId>)
      requires Valid()
      modifies this`opens, this`ownPurged
      ensures Valid()
      ensures r.Refused? <==> !(1 <= batchSize <= MAX_ANALYTICS_BATCH_SIZE) || before > now - RETENTION
      ensures r.Refused? || checkpoint.None? ==>
                opens == old(opens) && ownPurged == old(ownPurged) && (r.Purged? ==> r.removed == 0)
      ensures r.Purged? && checkpoint.Some? ==>
                && IsWindow(old(opens), Expired(old(opens), before), batchSize, ids)
                && var gone := RemovableIds(old(opens), checkpoint.value, ids);
                   && r.removed == |gone| && opens == old(opens) - Listed(gone)
                   && ownPurged == old(ownPurged) + EventsOf(old(opens), gone)
    {
      ids := [];
      if !(1 <= batchSize <= MAX_ANALYTICS_BATCH_SIZE) { return Refused, ids; }
      if before > now - RETENTION { return Refused, ids; }
      if checkpoint.None? { return Purged(0), ids; }
      var window := Window(Expired(opens, before), batchSize);
      ids := window;
      var removable := RemovableIds(opens, checkpoint.value, window);
      if removable == [] {
        assert opens - Listed(removable) == opens;
        return Purged(0), ids;
      }
      PurgeKeepsHistory(opens, done, captured, Listed(removable));
      ownPurged := ownPurged + EventsOf(opens, removable);
      opens := opens - Listed(removable);
      return Purged(|removable|), ids;
    }

    // process_authorized_open_analytics.py

    /** Any number of other captures, aggregations and purges.  A request captures the authorization it
        has just created, so no new row was opened before `floor`.  The body does nothing; callers
        know only the contract. */
    method Interfere(floor: Time)
      requires Valid()
      modifies this
      ensures Valid() && old(now) <= now
      ensures Follows(old(opens), old(done), opens, done, floor)
      ensures old(checkpoint).Some? ==> checkpoint.Some?
      ensures ownCounted == old(ownCounted) && ownPurged == old(ownPurged)
    {
    }

    /** One aggregation batch of the command, other transactions having gone before. */
    method AggregationPass(capturedAt: Time, cutoff: Time, batchSize: nat, ghost before: map<OpenId, Row>, ghost history: seq<Event>)
      returns (processed: nat, ghost counted: seq<Event>)
      requires Valid() && 1 <= batchSize <= MAX_ANALYTICS_BATCH_SIZE && cutoff <= capturedAt
      requires Follows(before, history, opens, done, cutoff)
      modifies this
      ensures Valid() && old(now) <= now && checkpoint.Some?
      ensures Follows(before, history, opens, done, cutoff)
      ensures processed <= batchSize && |counted| == processed && old(done) <= done
      ensures forall e :: e in counted ==> e.open.openedAt <= capturedAt
      ensures NewlyCounted(old(done), done, counted)
      ensures GrownBy(old(ownCounted), counted, ownCounted) && ownPurged == old(ownPurged)
      ensures processed < batchSize ==> AllCounted(before, done, capturedAt) && Drained(opens, cutoff)
    {
      Interfere(cutoff);
      FollowsThrough(before, history, old(opens), old(done), opens, done, captured, cutoff);
      ghost var rows, events := opens, done;
      var r;
      ghost var ids;
      r, ids := AggregateAuthorizedOpens(capturedAt, batchSize);
      AggregationFollows(rows, events, ids, now, cutoff);
      FollowsThrough(before, history, rows, events, opens, done, captured, cutoff);
      processed, counted := r.processed, EventsOf(rows, ids);
      BatchCounts(old(done), events, rows, ids, capturedAt, batchSize);
      if processed < batchSize {
        NothingPendingMeansCounted(before, history, opens, done, captured, capturedAt, cutoff);
      }
    }

    /** One purge batch of the command. */
    method PurgePass(cutoff: Time, batchSize: nat, ghost before: map<OpenId, Row>, ghost history: seq<Event>, ghost drained: bool,
                     ghost purged: seq<Event>)
      returns (removed: nat, ghost batch: seq<Event>)
      requires Valid() && 1 <= batchSize <= MAX_ANALYTICS_BATCH_SIZE && cutoff <= now - RETENTION && checkpoint.Some?
      requires Follows(before, history, opens, done, cutoff) && (drained ==> Drained(opens, cutoff))
      requires ArePurged(opens, done, purged, cutoff)
      modifies this
      ensures Valid() && old(now) <= now && checkpoint.Some? && old(done) <= done
      ensures Follows(before, history, opens, done, cutoff) && (drained ==> Drained(opens, cutoff))
      ensures removed == |batch| <= batchSize && ArePurged(opens, done, purged + batch, cutoff)
      ensures ownCounted == old(ownCounted) && GrownBy(old(ownPurged), batch, ownPurged)
      ensures drained && removed < batchSize ==> Expired(opens, cutoff) == {}
    {
      Interfere(cutoff);
      FollowsThrough(before, history, old(opens), old(done), opens, done, captured, cutoff);
      PurgedFollow(old(opens), old(done), opens, done, purged, cutoff);
      if drained { DrainedFollows(old(opens), old(done), opens, done, cutoff); }
      ghost var rows := opens;
      var r;
      ghost var ids;
      r, ids := PurgeAuthorizedOpens(cutoff, batchSize);
      batch := EventsOf(rows, RemovableIds(rows, checkpoint.value, ids));
      PurgeStep(rows, done, captured, checkpoint.value, cutoff, batchSize, ids, purged);
      FollowsThrough(before, history, rows, done, opens, done, captured, cutoff);
      if drained && r.removed < batchSize { ShortPurgeClears(rows, done, captured, checkpoint, cutoff, batchSize, ids); }
      return r.removed, batch;
    }

    /** The first loop of the command. */
    method AggregationPhase(capturedAt: Time, cutoff: Time, batchSize: nat, maxBatches: nat, ghost before: map<OpenId, Row>, ghost history: seq<Event>)
      returns (processed: nat, mayRemain: bool, ghost counted: seq<Event>)
      requires Valid() && 1 <= batchSize <= MAX_ANALYTICS_BATCH_SIZE && 1 <= maxBatches && cutoff <= capturedAt
      requires Follows(before, history, opens, done, cutoff)
      modifies this
      ensures Valid() && old(now) <= now && checkpoint.Some?
      ensures Follows(before, history, opens, done, cutoff)
      ensures |counted| == processed && old(done) <= done && NewlyCounted(old(done), done, counted)
      ensures forall e :: e in counted ==> e.open.openedAt <= capturedAt
      ensures GrownBy(old(ownCounted), counted, ownCounted) && ownPurged == old(ownPurged)
      ensures mayRemain <==> processed == Full(maxBatches, batchSize)
      ensures !mayRemain ==> AllCounted(before, done, capturedAt) && Drained(opens, cutoff)
    {
      processed, mayRemain, counted := 0, false, [];
      var i := 0;
      while i < maxBatches
        invariant Valid() && old(now) <= now && i <= maxBatches && (i > 0 ==> checkpoint.Some?)
        invariant Follows(before, history, opens, done, cutoff)
        invariant |counted| == processed && old(done) <= done && NewlyCounted(old(done), done, counted)
        invariant forall e :: e in counted ==> e.open.openedAt <= capturedAt
        invariant GrownBy(old(ownCounted), counted, ownCounted) && ownPurged == old(ownPurged)
        invariant processed == Full(i, batchSize) && (i > 0 ==> mayRemain)
      {
        ghost var middle, own := done, ownCounted;
        var batch;
        ghost var more;
        batch, more := AggregationPass(capturedAt, cutoff, batchSize, before, history);
        CountedMore(old(done), middle, middle, done, counted, more);
        GrownFurther(old(ownCounted), counted, own, more, ownCounted);
        processed, counted := processed + batch, counted + more;
        mayRemain := batch == batchSize;
        i := i + 1;
        FullOrLess(i, maxBatches, batchSize, batch);
        if !mayRemain {
          assert processed < Full(maxBatches, batchSize);
          break;
        }
      }
    }

    /** The second loop. */
    method PurgePhase(cutoff: Time, batchSize: nat, maxBatches: nat, ghost before: map<OpenId, Row>, ghost history: seq<Event>, ghost drained: bool)
      returns (removed: nat, mayRemain: bool, ghost purged: seq<Event>)
      requires Valid() && 1 <= batchSize <= MAX_ANALYTICS_BATCH_SIZE && 1 <= maxBatches && cutoff <= now - RETENTION && checkpoint.Some?
      requires Follows(before, history, opens, done, cutoff) && (drained ==> Drained(opens, cutoff))
      modifies this
      ensures Valid() && Follows(before, history, opens, done, cutoff) && old(done) <= done
      ensures |purged| == removed && ArePurged(opens, done, purged, cutoff)
      ensures GrownBy(old(ownPurged), purged, ownPurged) && ownCounted == old(ownCounted)
      ensures mayRemain <==> removed == Full(maxBatches, batchSize)
      ensures drained && !mayRemain ==> Expired(opens, cutoff) == {}
    {
      removed, mayRemain, purged := 0, false, [];
      var i := 0;
      while i < maxBatches
        invariant Valid() && cutoff <= now - RETENTION && i <= maxBatches && checkpoint.Some?
        invariant Follows(before, history, opens, done, cutoff) && (drained ==> Drained(opens, cutoff))
        invariant |purged| == removed && ArePurged(opens, done, purged, cutoff) && old(done) <= done
        invariant GrownBy(old(ownPurged), purged, ownPurged) && ownCounted == old(ownCounted)
        invariant removed == Full(i, batchSize) && (i > 0 ==> mayRemain)
      {
        ghost var own, more := ownPurged, [];
        var batch;
        batch, more := PurgePass(cutoff, batchSize, before, history, drained, purged);
        GrownFurther(old(ownPurged), purged, own, more, ownPurged);
        removed, purged := removed + batch, purged + more;
        mayRemain := batch == batchSize;
        i := i + 1;
        FullOrLess(i, maxBatches, batchSize, batch);
        if !mayRemain {
          assert removed < Full(maxBatches, batchSize);
          break;
        }
      }
    }

    /** `Command.handle`.  It reports how many opens it counted itself and how many rows it removed itself,
        whatever other transactions did; something may remain exactly when every batch was full.  When it
        reports that no aggregation may remain, every open that was there at its start and no later than its
        captured time has been counted; when it reports that nothing may remain, no row older than the
        retention cutoff is left. */
    method Handle(batchSize: int, maxBatches: int)
      returns (report: Report, ghost counted: seq<Event>, ghost purged: seq<Event>)
      requires Valid()
      modifies this
      ensures Valid()
      ensures report.CommandError? <==> !(1 <= batchSize <= MAX_ANALYTICS_BATCH_SIZE && 1 <= maxBatches <= MAX_JOB_BATCHES)
      ensures report.CommandError? ==> opens == old(opens) && done == old(done)
      ensures GrownBy(old(ownCounted), counted, ownCounted) && GrownBy(old(ownPurged), purged, ownPurged)
      ensures report.Report? ==>
                && report.processed == |counted| && NewlyCounted(old(done), done, counted)
                && (forall e :: e in counted ==> e.open.openedAt <= old(now))
                && report.removed == |purged| && ArePurged(opens, done, purged, old(now) - RETENTION)
                && (report.aggregationMayRemain <==> report.processed == maxBatches * batchSize)
                && (report.purgeMayRemain <==> report.removed == maxBatches * batchSize)
      ensures report.Report? && !report.aggregationMayRemain ==> AllCounted(old(opens), done, old(now))
      ensures report.Report? && !report.aggregationMayRemain && !report.purgeMayRemain ==> Expired(opens, old(now) - RETENTION) == {}
    {
      counted, purged := [], [];
      if !(1 <= batchSize <= MAX_ANALYTICS_BATCH_SIZE) { return CommandError, counted, purged; }
      if !(1 <= maxBatches <= MAX_JOB_BATCHES) { return CommandError, counted, purged; }
      var capturedAt := now;
      var cutoff := capturedAt - RETENTION;
      NothingHappened(opens, done, cutoff);
      var processed, aggregationMayRemain, removed, purgeMayRemain;
      processed, aggregationMayRemain, counted := AggregationPhase(capturedAt, cutoff, batchSize, maxBatches, opens, done);
      ghost var middle := done;
      NothingHappened(opens, done, cutoff);
      removed, purgeMayRemain, purged := PurgePhase(cutoff, batchSize, maxBatches, opens, done, !aggregationMayRemain);
      assert middle <= done;
      FullIsProduct(maxBatches, batchSize);
      return Report(processed, removed, aggregationMayRemain, purgeMayRemain), counted, purged;
    }
  }

  predicate MayCapture(w: World, a: AuthorizationId) {
    && a in w.authorizations && w.authorizations[a].dashboard in w.dashboards && w.authorizations[a].viewer in w.users
    && CanSourceOpen(w, w.authorizations[a])
  }

  function OpenOf(w: World, a: AuthorizationId): Open
    requires MayCapture(w, a)
  {
    var x := w.authorizations[a];
    Open(a, x.dashboard, x.viewer, x.revision, x.version.value, x.createdAt)
  }

  /** The later authorization is captured and aggregated. */
  method LateAggregated(w: World, late: AuthorizationId, at: Time) returns (p: Pipeline, aggregated: AggregationResult)
    requires MayCapture(w, late) && w.authorizations[late].createdAt <= at
    ensures fresh(p) && p.Valid() && aggregated == Aggregated(1, 2)
    ensures p.opens == map[2 := Row(OpenOf(w, late), Some(at))] && p.done == [Event(2, OpenOf(w, late))]
    ensures p.checkpoint == Some(2) && p.captured == {late} && p.now == at
  {
    p := new Pipeline(at);
    var capture := p.CaptureAuthorizedOpen(w, late, 2);
    ghost var ids;
    ghost var rows := p.opens;
    aggregated, ids := p.AggregateAuthorizedOpens(at, 1);
    OneAggregated(rows, OpenOf(w, late), at, ids);
  }

  lemma OneAggregated(opens: map<OpenId, Row>, o: Open, at: Time, ids: seq<OpenId>)
    requires opens == map[2 := Row(o, None)] && o.openedAt <= at && IsWindow(opens, Pending(opens, at), 1, ids)
    ensures |ids| == 1 && ids[0] == 2 && Mark(opens, ids, at) == map[2 := Row(o, Some(at))]
    ensures EventsOf(opens, ids) == [Event(2, o)] && [] + EventsOf(opens, ids) == [Event(2, o)]
    ensures HighestId([Event(2, o)]) == 2
  {
    assert Pending(opens, at) == {2};
    assert ids[0] in Pending(opens, at);
    LastIsHighest([Event(2, o)]);
  }

  lemma EarlyBlocks(opens: map<OpenId, Row>, early: Open, late: Open, at: Time, cutoff: Time)
    requires opens == map[2 := Row(late, Some(at))][1 := Row(early, None)] && early.openedAt < late.openedAt < cutoff
    ensures IsWindow(opens, Expired(opens, cutoff), 1, [1]) && Blocked(opens, 2, cutoff, [1])
    ensures forall ids :: IsWindow(opens, Expired(opens, cutoff), 1, ids) ==> ids == [1]
  {
    assert Expired(opens, cutoff) == {1, 2};
    assert 2 in Expired(opens, cutoff) && Removable(opens, 2, 2);
    assert IsWindow(opens, Expired(opens, cutoff), 1, [1]);
    OneWindow(opens, cutoff);
  }

  /** A run that blocks the purge, for any two authorizations that may source opens: the later one is captured
      and aggregated, then the earlier one is captured.  Once both have expired, a purge of one row looks at the
      earlier one only and removes nothing. */
  method UnaggregatedRowBlocks(w: World, early: AuthorizationId, late: AuthorizationId, at: Time, cutoff: Time)
    returns (p: Pipeline, aggregated: AggregationResult, purged: PurgeResult)
    requires MayCapture(w, early) && MayCapture(w, late)
    requires w.authorizations[early].createdAt < w.authorizations[late].createdAt <= at && w.authorizations[late].createdAt < cutoff
    ensures fresh(p) && p.Valid() && aggregated == Aggregated(1, 2) && purged == Purged(0)
    ensures p.checkpoint == Some(2) && IsWindow(p.opens, Expired(p.opens, cutoff), 1, [1]) && Blocked(p.opens, 2, cutoff, [1])
  {
    p, aggregated := LateAggregated(w, late, at);
    var capture := p.CaptureAuthorizedOpen(w, early, 1);
    EarlyBlocks(p.opens, OpenOf(w, early), OpenOf(w, late), at, cutoff);
    p.now := cutoff + RETENTION;
    purged := BlockedPurge(p, cutoff, 1);
  }

  /** While the window is blocked, every purge removes nothing and leaves it so. */
  method BlockedPurge(p: Pipeline, cutoff: Time, batchSize: nat) returns (purged: PurgeResult)
    requires p.Valid() && 1 <= batchSize <= MAX_ANALYTICS_BATCH_SIZE && cutoff <= p.now - RETENTION && p.checkpoint.Some?
    requires forall ids :: IsWindow(p.opens, Expired(p.opens, cutoff), batchSize, ids) ==> Blocked(p.opens, p.checkpoint.value, cutoff, ids)
    modifies p`opens, p`ownPurged
    ensures p.Valid() && purged == Purged(0) && p.opens == old(p.opens)
  {
    ghost var ids;
    ghost var rows := p.opens;
    purged, ids := p.PurgeAuthorizedOpens(cutoff, batchSize);
    NoneRemovable(rows, p.checkpoint.value, ids);
    assert rows - Listed([]) == rows;
  }

  lemma NoneRemovable(opens: map<OpenId, Row>, checkpoint: OpenId, ids: seq<OpenId>)
    requires forall i :: 0 <= i < |ids| ==> !Removable(opens, checkpoint, ids[i])
    ensures RemovableIds(opens, checkpoint, ids) == []
  {
    assert forall id :: id in ids ==> !Removable(opens, checkpoint, id);
  }

  lemma LastIsHighest(done: seq<Event>)
    requires |done| == 1
    ensures HighestId(done) == done[0].id
  {
    assert HighestId(done[..0]) == 0;
  }

  /** A window of one row has one possible content. */
  lemma OneWindow(opens: map<OpenId, Row>, cutoff: Time)
    requires IsWindow(opens, Expired(opens, cutoff), 1, [1])
    ensures forall ids :: IsWindow(opens, Expired(opens, cutoff), 1, ids) ==> ids == [1]
  {
    assert [1][0] == 1;
    forall ids | IsWindow(opens, Expired(opens, cutoff), 1, ids) ensures ids == [1] {
      assert ids == [ids[0]] && ids[0] in Expired(opens, cutoff);
      assert 1 !in ids ==> Before(opens, ids[0], 1);
      assert ids[0] !in [1] ==> Before(opens, [1][0], ids[0]);
    }
  }
}
