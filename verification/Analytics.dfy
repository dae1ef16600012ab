/** The authorized-open rollups as one summary of the whole history of opens: what analytics.py's daily,
    viewer and snapshot rows have to say, whatever batches they were built from. */
module Analytics {
  import opened Wrappers
  import opened Entitlements

  type OpenId = nat
  type Day = int

  const SECONDS_PER_DAY: int := 86_400

  /** `opened_at.date()`, times being seconds. */
  function DayOf(at: Time): Day {
    at / SECONDS_PER_DAY
  }

  /** What an AuthorizedOpen row records of its source authorization. */
  datatype Open = Open(
    authorization: AuthorizationId, dashboard: DashboardId, viewer: UserId, revision: RevisionId, version: nat, openedAt: Time)

  datatype Row = Row(open: Open, aggregatedAt: Option<Time>)

  /** An open that some batch has aggregated; it outlives the purge of its row. */
  datatype Event = Event(id: OpenId, open: Open)

  datatype ViewerSummary = ViewerSummary(count: nat, first: Time, last: Time)

  datatype Snapshot = Snapshot(count: nat, last: Time, through: OpenId)

  /** The unique keys of the three rollups. */
  datatype Key = OnDay(dashboard: DashboardId, day: Day) | ByViewer(dashboard: DashboardId, viewer: UserId) | Whole(dashboard: DashboardId)

  predicate Matches(e: Event, key: Key) {
    match key
    case OnDay(d, day) => e.open.dashboard == d && DayOf(e.open.openedAt) == day
    case ByViewer(d, v) => e.open.dashboard == d && e.open.viewer == v
    case Whole(d) => e.open.dashboard == d
  }

  function Select(events: seq<Event>, key: Key): (r: seq<Event>)
    ensures |r| <= |events|
  {
    if events == [] then []
    else
      var rest, last := Select(events[..|events| - 1], key), events[|events| - 1];
      if Matches(last, key) then rest + [last] else rest
  }

  lemma {:induction false} SelectConcat(a: seq<Event>, b: seq<Event>, key: Key)
    ensures Select(a + b, key) == Select(a, key) + Select(b, key)
    decreases |b|
  {
    if b == [] {
      assert a + b == a;
    } else {
      var init, last := b[..|b| - 1], b[|b| - 1];
      assert (a + b)[..|a + b| - 1] == a + init;
      SelectConcat(a, init, key);
    }
  }

  function Min(a: int, b: int): int { if a <= b then a else b }

  function Max(a: int, b: int): int { if a <= b then b else a }

  /** `min(event.opened_at for event in events)`. */
  function First(events: seq<Event>): Time
    requires events != []
  {
    if |events| == 1 then events[0].open.openedAt else Min(First(events[..|events| - 1]), events[|events| - 1].open.openedAt)
  }

  function Last(events: seq<Event>): Time
    requires events != []
  {
    if |events| == 1 then events[0].open.openedAt else Max(Last(events[..|events| - 1]), events[|events| - 1].open.openedAt)
  }

  /** The largest id, zero when there is none. */
  function HighestId(events: seq<Event>): OpenId {
    if events == [] then 0
    else
      var rest, id := HighestId(events[..|events| - 1]), events[|events| - 1].id;
      if rest <= id then id else rest
  }

  lemma {:induction false} ExtremesConcat(a: seq<Event>, b: seq<Event>)
    requires a != [] && b != []
    ensures First(a + b) == Min(First(a), First(b))
    ensures Last(a + b) == Max(Last(a), Last(b))
    decreases |b|
  {
    var init := b[..|b| - 1];
    assert (a + b)[..|a + b| - 1] == a + init;
    if init == [] {
      assert a + init == a;
    } else {
      ExtremesConcat(a, init);
    }
  }

  lemma {:induction false} HighestConcat(a: seq<Event>, b: seq<Event>)
    ensures HighestId(a + b) == Max(HighestId(a), HighestId(b))
    decreases |b|
  {
    if b == [] {
      assert a + b == a;
    } else {
      var init := b[..|b| - 1];
      assert (a + b)[..|a + b| - 1] == a + init;
      HighestConcat(a, init);
    }
  }

  lemma {:induction false} HighestBounds(events: seq<Event>, e: Event)
    requires e in events
    ensures e.id <= HighestId(events)
    decreases |events|
  {
    if e != events[|events| - 1] {
      assert e in events[..|events| - 1];
      HighestBounds(events[..|events| - 1], e);
    }
  }

  function Summarize(events: seq<Event>): ViewerSummary
    requires events != []
  {
    ViewerSummary(|events|, First(events), Last(events))
  }

  function Capture(events: seq<Event>): Snapshot
    requires events != []
  {
    Snapshot(|events|, Last(events), HighestId(events))
  }

  // The rollups agree with a history.

  ghost predicate DailyAgrees(daily: map<(DashboardId, Day), nat>, events: seq<Event>) {
    forall d: DashboardId, day: Day :: var mine := Select(events, OnDay(d, day));
      ((d, day) in daily <==> mine != []) && (mine != [] ==> daily[(d, day)] == |mine|)
  }

  ghost predicate ViewersAgree(viewers: map<(DashboardId, UserId), ViewerSummary>, events: seq<Event>) {
    forall d: DashboardId, v: UserId :: var mine := Select(events, ByViewer(d, v));
      ((d, v) in viewers <==> mine != []) && (mine != [] ==> viewers[(d, v)] == Summarize(mine))
  }

  ghost predicate SnapshotsAgree(snapshots: map<DashboardId, Snapshot>, events: seq<Event>) {
    forall d: DashboardId :: var mine := Select(events, Whole(d));
      (d in snapshots <==> mine != []) && (mine != [] ==> snapshots[d] == Capture(mine))
  }

  // The totals of the three rollups

  function Sum(counts: seq<nat>): nat {
    if counts == [] then 0 else counts[0] + Sum(counts[1..])
  }

  function Counts(events: seq<Event>, keys: seq<Key>): (r: seq<nat>)
    ensures |r| == |keys| && forall i :: 0 <= i < |keys| ==> r[i] == |Select(events, keys[i])|
  {
    seq(|keys|, i requires 0 <= i < |keys| => |Select(events, keys[i])|)
  }

  /** `keys` splits the opens of the dashboard: each open of it has exactly one of the keys. */
  ghost predicate Splits(events: seq<Event>, keys: seq<Key>, d: DashboardId) {
    && (forall k :: k in keys ==> k.dashboard == d)
    && (forall e :: e in events && e.open.dashboard == d ==> exists i :: OnlyKey(e, keys, i))
  }

  ghost predicate OnlyKey(e: Event, keys: seq<Key>, i: int) {
    0 <= i < |keys| && Matches(e, keys[i]) && forall j :: 0 <= j < |keys| && Matches(e, keys[j]) ==> j == i
  }

  lemma {:induction false} SumBump(a: seq<nat>, b: seq<nat>, i: nat)
    requires |a| == |b| && i < |a| && b[i] == a[i] + 1 && forall j :: 0 <= j < |a| && j != i ==> b[j] == a[j]
    ensures Sum(b) == Sum(a) + 1
    decreases |a|
  {
    if i == 0 {
      assert a[1..] == b[1..];
    } else {
      SumBump(a[1..], b[1..], i - 1);
    }
  }

  lemma {:induction false} SumZero(a: seq<nat>)
    requires forall j :: 0 <= j < |a| ==> a[j] == 0
    ensures Sum(a) == 0
    decreases |a|
  {
    if a != [] { SumZero(a[1..]); }
  }

  /** However the opens of a dashboard are split over keys, the counts of the keys add up to its opens. */
  lemma {:induction false} SplitTotal(events: seq<Event>, keys: seq<Key>, d: DashboardId)
    requires Splits(events, keys, d)
    ensures Sum(Counts(events, keys)) == |Select(events, Whole(d))|
    decreases |events|
  {
    if events == [] {
      SumZero(Counts(events, keys));
    } else {
      var init, e := events[..|events| - 1], events[|events| - 1];
      SplitTotal(init, keys, d);
      var before, after := Counts(init, keys), Counts(events, keys);
      if e.open.dashboard == d {
        var i :| OnlyKey(e, keys, i);
        SumBump(before, after, i);
      } else {
        assert before == after;
      }
    }
  }

  /** The days with a daily row of the dashboard, each once. */
  ghost predicate ListsDays(days: seq<Day>, daily: map<(DashboardId, Day), nat>, d: DashboardId) {
    && (forall i :: 0 <= i < |days| ==> (d, days[i]) in daily)
    && (forall day: Day :: (d, day) in daily ==> day in days)
    && (forall i, j :: 0 <= i < j < |days| ==> days[i] != days[j])
  }

  ghost predicate ListsViewers(us: seq<UserId>, viewers: map<(DashboardId, UserId), ViewerSummary>, d: DashboardId) {
    && (forall i :: 0 <= i < |us| ==> (d, us[i]) in viewers)
    && (forall u: UserId :: (d, u) in viewers ==> u in us)
    && (forall i, j :: 0 <= i < j < |us| ==> us[i] != us[j])
  }

  function DayCounts(daily: map<(DashboardId, Day), nat>, d: DashboardId, days: seq<Day>): seq<nat>
    requires forall i :: 0 <= i < |days| ==> (d, days[i]) in daily
  {
    seq(|days|, i requires 0 <= i < |days| => daily[(d, days[i])])
  }

  function ViewerCounts(viewers: map<(DashboardId, UserId), ViewerSummary>, d: DashboardId, us: seq<UserId>): seq<nat>
    requires forall i :: 0 <= i < |us| ==> (d, us[i]) in viewers
  {
    seq(|us|, i requires 0 <= i < |us| => viewers[(d, us[i])].count)
  }

  lemma {:induction false} SelectHas(events: seq<Event>, e: Event, key: Key)
    requires e in events && Matches(e, key)
    ensures e in Select(events, key)
    decreases |events|
  {
    if e != events[|events| - 1] {
      assert e in events[..|events| - 1];
      SelectHas(events[..|events| - 1], e, key);
    }
  }

  lemma DailyTotal(daily: map<(DashboardId, Day), nat>, events: seq<Event>, d: DashboardId, days: seq<Day>)
    requires DailyAgrees(daily, events) && ListsDays(days, daily, d)
    ensures Sum(DayCounts(daily, d, days)) == |Select(events, Whole(d))|
  {
    var keys := seq(|days|, i requires 0 <= i < |days| => OnDay(d, days[i]));
    forall e | e in events && e.open.dashboard == d ensures exists i :: OnlyKey(e, keys, i) {
      SelectHas(events, e, OnDay(d, DayOf(e.open.openedAt)));
      assert DayOf(e.open.openedAt) in days;
      var i :| 0 <= i < |days| && days[i] == DayOf(e.open.openedAt);
      assert OnlyKey(e, keys, i);
    }
    SplitTotal(events, keys, d);
    assert Counts(events, keys) == DayCounts(daily, d, days);
  }

  lemma ViewerTotal(viewers: map<(DashboardId, UserId), ViewerSummary>, events: seq<Event>, d: DashboardId, us: seq<UserId>)
    requires ViewersAgree(viewers, events) && ListsViewers(us, viewers, d)
    ensures Sum(ViewerCounts(viewers, d, us)) == |Select(events, Whole(d))|
  {
    var keys := seq(|us|, i requires 0 <= i < |us| => ByViewer(d, us[i]));
    forall e | e in events && e.open.dashboard == d ensures exists i :: OnlyKey(e, keys, i) {
      SelectHas(events, e, ByViewer(d, e.open.viewer));
      assert e.open.viewer in us;
      var i :| 0 <= i < |us| && us[i] == e.open.viewer;
      assert OnlyKey(e, keys, i);
    }
    SplitTotal(events, keys, d);
    assert Counts(events, keys) == ViewerCounts(viewers, d, us);
  }

  /** The three rollups of a dashboard have the same total: its daily counts, its viewers' counts and
      its snapshot. */
  lemma TotalsAgree(daily: map<(DashboardId, Day), nat>, viewers: map<(DashboardId, UserId), ViewerSummary>,
                    snapshots: map<DashboardId, Snapshot>, events: seq<Event>, d: DashboardId, days: seq<Day>, us: seq<UserId>)
    requires DailyAgrees(daily, events) && ViewersAgree(viewers, events) && SnapshotsAgree(snapshots, events)
    requires ListsDays(days, daily, d) && ListsViewers(us, viewers, d)
    ensures var total := if d in snapshots then snapshots[d].count else 0;
            && Sum(DayCounts(daily, d, days)) == total
            && Sum(ViewerCounts(viewers, d, us)) == total
  {
    DailyTotal(daily, events, d, days);
    ViewerTotal(viewers, events, d, us);
  }

  /** The selected events, each of which occurs once. */
  lemma {:induction false} SelectCounts(events: seq<Event>, key: Key, mine: set<Event>)
    requires forall i, j :: 0 <= i < j < |events| ==> events[i] != events[j]
    requires forall e :: e in mine <==> e in events && Matches(e, key)
    ensures |Select(events, key)| == |mine|
    decreases |events|
  {
    if events == [] {
      assert mine == {};
    } else {
      var init, last := events[..|events| - 1], events[|events| - 1];
      assert last in events && last !in init && forall e :: e in events ==> e in init || e == last;
      SelectCounts(init, key, mine - {last});
    }
  }

  /** What the counts count: the opens of a dashboard between two midnights, by one viewer, and altogether. */
  lemma CountsMean(daily: map<(DashboardId, Day), nat>, viewers: map<(DashboardId, UserId), ViewerSummary>,
                   snapshots: map<DashboardId, Snapshot>, events: seq<Event>, d: DashboardId)
    requires DailyAgrees(daily, events) && ViewersAgree(viewers, events) && SnapshotsAgree(snapshots, events)
    requires forall i, j :: 0 <= i < j < |events| ==> events[i] != events[j]
    ensures forall day: Day ::
              (if (d, day) in daily then daily[(d, day)] else 0) ==
              |set e | e in events && e.open.dashboard == d && day * SECONDS_PER_DAY <= e.open.openedAt < (day + 1) * SECONDS_PER_DAY|
    ensures forall v: UserId ::
              (if (d, v) in viewers then viewers[(d, v)].count else 0) ==
              |set e | e in events && e.open.dashboard == d && e.open.viewer == v|
    ensures (if d in snapshots then snapshots[d].count else 0) == |set e | e in events && e.open.dashboard == d|
  {
    forall day: Day
      ensures (if (d, day) in daily then daily[(d, day)] else 0) ==
              |set e | e in events && e.open.dashboard == d && day * SECONDS_PER_DAY <= e.open.openedAt < (day + 1) * SECONDS_PER_DAY|
    {
      SelectCounts(events, OnDay(d, day),
                   set e | e in events && e.open.dashboard == d && day * SECONDS_PER_DAY <= e.open.openedAt < (day + 1) * SECONDS_PER_DAY);
    }
    forall v: UserId
      ensures (if (d, v) in viewers then viewers[(d, v)].count else 0) == |set e | e in events && e.open.dashboard == d && e.open.viewer == v|
    {
      SelectCounts(events, ByViewer(d, v), set e | e in events && e.open.dashboard == d && e.open.viewer == v);
    }
    SelectCounts(events, Whole(d), set e | e in events && e.open.dashboard == d);
  }

  // Adding a batch to the history

  /** The open times of a summary bound those of the opens it counts, and are attained. */
  lemma {:induction false} ExtremesMean(events: seq<Event>)
    requires events != []
    ensures forall e :: e in events ==> First(events) <= e.open.openedAt <= Last(events) && e.id <= HighestId(events)
    ensures exists e :: e in events && e.open.openedAt == First(events)
    ensures exists e :: e in events && e.open.openedAt == Last(events)
    ensures exists e :: e in events && e.id == HighestId(events)
    decreases |events|
  {
    var init, last := events[..|events| - 1], events[|events| - 1];
    assert last in events;
    if init != [] {
      ExtremesMean(init);
      var first :| first in init && first.open.openedAt == First(init);
      var final :| final in init && final.open.openedAt == Last(init);
      var top :| top in init && top.id == HighestId(init);
      assert first in events && final in events && top in events;
      assert forall e :: e in events ==> e in init || e == last;
    } else {
      assert events == [last] && HighestId(init) == 0;
    }
  }

  lemma DailyAdds(daily: map<(DashboardId, Day), nat>, more: map<(DashboardId, Day), nat>,
                  counts: map<(DashboardId, Day), nat>, events: seq<Event>, batch: seq<Event>)
    requires DailyAgrees(daily, events) && DailyAgrees(counts, batch)
    requires more.Keys == daily.Keys + counts.Keys
    requires forall k :: k in more ==>
               more[k] == (if k in daily then daily[k] else 0) + (if k in counts then counts[k] else 0)
    ensures DailyAgrees(more, events + batch)
  {
    forall d: DashboardId, day: Day ensures var mine := Select(events + batch, OnDay(d, day));
                          ((d, day) in more <==> mine != []) && (mine != [] ==> more[(d, day)] == |mine|) {
      SelectConcat(events, batch, OnDay(d, day));
    }
  }

  /** `None` stands for a key without a row. */
  function Merge(row: Option<ViewerSummary>, events: seq<Event>): ViewerSummary
    requires events != []
  {
    match row
    case None => Summarize(events)
    case Some(s) => ViewerSummary(s.count + |events|, Min(s.first, First(events)), Max(s.last, Last(events)))
  }

  lemma MergeSummarizes(a: seq<Event>, b: seq<Event>)
    requires b != []
    ensures Merge(if a == [] then None else Some(Summarize(a)), b) == Summarize(a + b)
  {
    if a == [] {
      assert a + b == b;
    } else {
      ExtremesConcat(a, b);
    }
  }

  function MergeSnapshot(row: Option<Snapshot>, events: seq<Event>): Snapshot
    requires events != []
  {
    match row
    case None => Capture(events)
    case Some(s) => Snapshot(s.count + |events|, Max(s.last, Last(events)), Max(s.through, HighestId(events)))
  }

  lemma MergeCaptures(a: seq<Event>, b: seq<Event>)
    requires b != []
    ensures MergeSnapshot(if a == [] then None else Some(Capture(a)), b) == Capture(a + b)
  {
    if a == [] {
      assert a + b == b;
    } else {
      ExtremesConcat(a, b);
      HighestConcat(a, b);
    }
  }

  ghost predicate ViewerGroups(groups: map<(DashboardId, UserId), seq<Event>>, batch: seq<Event>) {
    forall d: DashboardId, v: UserId :: var mine := Select(batch, ByViewer(d, v));
      ((d, v) in groups <==> mine != []) && (mine != [] ==> groups[(d, v)] == mine)
  }

  ghost predicate DashboardGroups(groups: map<DashboardId, seq<Event>>, batch: seq<Event>) {
    forall d: DashboardId :: var mine := Select(batch, Whole(d)); (d in groups <==> mine != []) && (mine != [] ==> groups[d] == mine)
  }

  function Lookup<K, V>(rows: map<K, V>, k: K): Option<V> {
    if k in rows then Some(rows[k]) else None
  }

  lemma ViewersAdd(viewers: map<(DashboardId, UserId), ViewerSummary>, more: map<(DashboardId, UserId), ViewerSummary>,
                   groups: map<(DashboardId, UserId), seq<Event>>, events: seq<Event>, batch: seq<Event>)
    requires ViewersAgree(viewers, events) && ViewerGroups(groups, batch)
    requires more.Keys == viewers.Keys + groups.Keys
    requires forall k :: k in groups ==> groups[k] != []
    requires forall k :: k in more ==> more[k] == if k in groups then Merge(Lookup(viewers, k), groups[k]) else viewers[k]
    ensures ViewersAgree(more, events + batch)
  {
    forall d: DashboardId, v: UserId ensures var mine := Select(events + batch, ByViewer(d, v));
                        ((d, v) in more <==> mine != []) && (mine != [] ==> more[(d, v)] == Summarize(mine)) {
      SelectConcat(events, batch, ByViewer(d, v));
      var a, b := Select(events, ByViewer(d, v)), Select(batch, ByViewer(d, v));
      if b != [] { MergeSummarizes(a, b); } else { assert a + b == a; }
    }
  }

  lemma SnapshotsAdd(snapshots: map<DashboardId, Snapshot>, more: map<DashboardId, Snapshot>,
                     groups: map<DashboardId, seq<Event>>, events: seq<Event>, batch: seq<Event>)
    requires SnapshotsAgree(snapshots, events) && DashboardGroups(groups, batch)
    requires more.Keys == snapshots.Keys + groups.Keys
    requires forall k :: k in groups ==> groups[k] != []
    requires forall k :: k in more ==> more[k] == if k in groups then MergeSnapshot(Lookup(snapshots, k), groups[k]) else snapshots[k]
    ensures SnapshotsAgree(more, events + batch)
  {
    forall d: DashboardId ensures var mine := Select(events + batch, Whole(d));
                     (d in more <==> mine != []) && (mine != [] ==> more[d] == Capture(mine)) {
      SelectConcat(events, batch, Whole(d));
      var a, b := Select(events, Whole(d)), Select(batch, Whole(d));
      if b != [] { MergeCaptures(a, b); } else { assert a + b == a; }
    }
  }

  // The raw rows and the history

  /** An open that is held as a row or has been aggregated. */
  ghost predicate Known(opens: map<OpenId, Row>, done: seq<Event>, e: Event) {
    e in done || (e.id in opens && opens[e.id].open == e.open)
  }

  predicate Alike(e: Event, f: Event) {
    e.id == f.id || e.open.authorization == f.open.authorization
  }

  /** Each captured authorization has one open, each open is aggregated at most once, and a row says
      whether it has been. */
  ghost predicate HistoryOk(opens: map<OpenId, Row>, done: seq<Event>, captured: set<AuthorizationId>) {
    && (forall e :: Known(opens, done, e) ==> e.open.authorization in captured)
    && (forall e, f :: Known(opens, done, e) && Known(opens, done, f) && Alike(e, f) ==> e == f)
    && (forall i, j :: 0 <= i < j < |done| ==> done[i] != done[j])
    && (forall id :: id in opens ==> (opens[id].aggregatedAt.Some? <==> Event(id, opens[id].open) in done))
  }

  /** Every aggregated open has an id at most the checkpoint, which is the largest of them. */
  ghost predicate CheckpointOk(checkpoint: Option<OpenId>, done: seq<Event>) {
    if checkpoint.None? then done == [] else checkpoint.value == HighestId(done)
  }

  /** In the history no authorization occurs twice. */
  lemma CountedOnce(opens: map<OpenId, Row>, done: seq<Event>, captured: set<AuthorizationId>, i: nat, j: nat)
    requires HistoryOk(opens, done, captured) && i < |done| && j < |done|
    requires done[i].open.authorization == done[j].open.authorization
    ensures i == j
  {
    assert Known(opens, done, done[i]) && Known(opens, done, done[j]);
  }

  // The bounded windows

  /** `order_by("opened_at", "id")`. */
  predicate Before(opens: map<OpenId, Row>, i: OpenId, j: OpenId)
    requires i in opens && j in opens
  {
    var a, b := opens[i].open.openedAt, opens[j].open.openedAt;
    a < b || (a == b && i < j)
  }

  /** `ids` are the first `limit` of the selected rows. */
  ghost predicate IsWindow(opens: map<OpenId, Row>, selected: set<OpenId>, limit: nat, ids: seq<OpenId>) {
    && selected <= opens.Keys
    && |ids| == (if limit <= |selected| then limit else |selected|)
    && (forall i :: 0 <= i < |ids| ==> ids[i] in selected)
    && (forall i, j :: 0 <= i < j < |ids| ==> Before(opens, ids[i], ids[j]))
    && (forall id, i :: id in selected && id !in ids && 0 <= i < |ids| ==> Before(opens, ids[i], id))
  }

  function Pending(opens: map<OpenId, Row>, through: Time): set<OpenId> {
    set id | id in opens && opens[id].aggregatedAt.None? && opens[id].open.openedAt <= through
  }

  function Expired(opens: map<OpenId, Row>, before: Time): set<OpenId> {
    set id | id in opens && opens[id].open.openedAt < before
  }

  function Listed(ids: seq<OpenId>): set<OpenId> {
    set id | id in ids
  }

  /** A window shorter than its limit holds every selected row. */
  lemma ShortWindowIsAll(opens: map<OpenId, Row>, selected: set<OpenId>, limit: nat, ids: seq<OpenId>)
    requires IsWindow(opens, selected, limit, ids) && |ids| < limit
    ensures forall id :: id in selected ==> id in ids
  {
    forall i, j | 0 <= i < j < |ids| ensures ids[i] != ids[j] {
      assert Before(opens, ids[i], ids[j]);
    }
    DistinctCount(ids);
    assert Listed(ids) <= selected;
    if Listed(ids) != selected {
      SubsetIsSmaller(Listed(ids), selected);
    }
  }

  lemma SubsetIsSmaller(a: set<OpenId>, b: set<OpenId>)
    requires a < b
    ensures |a| < |b|
  {
    var x :| x in b && x !in a;
    assert a <= b - {x};
    SubsetAtMost(a, b - {x});
  }

  lemma {:induction false} SubsetAtMost(a: set<OpenId>, b: set<OpenId>)
    requires a <= b
    ensures |a| <= |b|
    decreases a
  {
    if a != {} {
      var x :| x in a;
      SubsetAtMost(a - {x}, b - {x});
    }
  }

  lemma {:induction false} DistinctCount(ids: seq<OpenId>)
    requires forall i, j :: 0 <= i < j < |ids| ==> ids[i] != ids[j]
    ensures |Listed(ids)| == |ids|
    decreases |ids|
  {
    if ids == [] {
      assert Listed(ids) == {};
    } else {
      var init, last := ids[..|ids| - 1], ids[|ids| - 1];
      DistinctCount(init);
      assert Listed(ids) == Listed(init) + {last};
      assert last !in Listed(init);
    }
  }

  predicate Removable(opens: map<OpenId, Row>, checkpoint: OpenId, id: OpenId) {
    id in opens && opens[id].aggregatedAt.Some? && id <= checkpoint
  }

  /** An expired row of the purge window is removable exactly when it has been aggregated; so the
      window is blocked by unaggregated rows and by nothing else. */
  lemma RemovableWhenAggregated(opens: map<OpenId, Row>, done: seq<Event>, captured: set<AuthorizationId>,
                                checkpoint: Option<OpenId>, id: OpenId)
    requires HistoryOk(opens, done, captured) && CheckpointOk(checkpoint, done) && checkpoint.Some? && id in opens
    ensures Removable(opens, checkpoint.value, id) <==> opens[id].aggregatedAt.Some?
  {
    if opens[id].aggregatedAt.Some? {
      HighestBounds(done, Event(id, opens[id].open));
    }
  }

  /** After a full drain the whole window can be removed. */
  lemma DrainUnblocks(opens: map<OpenId, Row>, done: seq<Event>, captured: set<AuthorizationId>,
                      checkpoint: Option<OpenId>, through: Time, before: Time, limit: nat, ids: seq<OpenId>)
    requires HistoryOk(opens, done, captured) && CheckpointOk(checkpoint, done) && checkpoint.Some?
    requires IsWindow(opens, Expired(opens, before), limit, ids)
    requires Pending(opens, through) == {} && before <= through
    ensures forall i :: 0 <= i < |ids| ==> Removable(opens, checkpoint.value, ids[i])
  {
    forall i | 0 <= i < |ids| ensures Removable(opens, checkpoint.value, ids[i]) {
      var id := ids[i];
      assert id in Expired(opens, before);
      assert id !in Pending(opens, through);
      RemovableWhenAggregated(opens, done, captured, checkpoint, id);
    }
  }

  /** No row of the window can be removed, though some expired row could. */
  ghost predicate Blocked(opens: map<OpenId, Row>, checkpoint: OpenId, before: Time, ids: seq<OpenId>) {
    && (forall i :: 0 <= i < |ids| ==> !Removable(opens, checkpoint, ids[i]))
    && exists id :: id in Expired(opens, before) && Removable(opens, checkpoint, id)
  }

  /** An expired row that has been aggregated, behind every row of the window. */
  ghost predicate WaitsBehind(opens: map<OpenId, Row>, before: Time, ids: seq<OpenId>, id: OpenId)
    requires forall i :: 0 <= i < |ids| ==> ids[i] in opens
  {
    && id in Expired(opens, before) && opens[id].aggregatedAt.Some? && id !in ids
    && forall i :: 0 <= i < |ids| ==> Before(opens, ids[i], id)
  }

  /** A purge removes nothing while a removable row waits if and only if the `limit` oldest expired rows are all
      unaggregated and an aggregated one lies behind them. */
  lemma BlockedExactlyWhen(opens: map<OpenId, Row>, done: seq<Event>, captured: set<AuthorizationId>,
                           checkpoint: Option<OpenId>, before: Time, limit: nat, ids: seq<OpenId>)
    requires HistoryOk(opens, done, captured) && CheckpointOk(checkpoint, done) && checkpoint.Some?
    requires IsWindow(opens, Expired(opens, before), limit, ids)
    ensures Blocked(opens, checkpoint.value, before, ids) <==>
              && |ids| == limit && (forall i :: 0 <= i < |ids| ==> opens[ids[i]].aggregatedAt.None?)
              && exists id :: WaitsBehind(opens, before, ids, id)
  {
    assert forall i :: 0 <= i < |ids| ==> ids[i] in Expired(opens, before);
    forall id | id in opens ensures Removable(opens, checkpoint.value, id) <==> opens[id].aggregatedAt.Some? {
      RemovableWhenAggregated(opens, done, captured, checkpoint, id);
    }
    if Blocked(opens, checkpoint.value, before, ids) {
      var id :| id in Expired(opens, before) && Removable(opens, checkpoint.value, id);
      if |ids| < limit { ShortWindowIsAll(opens, Expired(opens, before), limit, ids); }
      assert WaitsBehind(opens, before, ids, id);
    }
  }

  /** The checkpoint is no watermark: the first batch takes the oldest open, here row 2, and leaves
      row 1 unaggregated below the checkpoint 2. */
  lemma CheckpointIsNotAWatermark()
    ensures exists opens: map<OpenId, Row>, through: Time ::
              && IsWindow(opens, Pending(opens, through), 1, [2]) && 2 in opens
              && 1 in Pending(opens, through)
              && 1 < HighestId([Event(2, opens[2].open)])
  {
    var opens: map<OpenId, Row> := map[1 := Row(Open(10, 0, 0, 0, 1, 6), None), 2 := Row(Open(11, 0, 0, 0, 1, 5), None)];
    assert Pending(opens, 9) == {1, 2};
    assert HighestId([Event(2, opens[2].open)][..0]) == 0;
    assert IsWindow(opens, Pending(opens, 9), 1, [2]);
  }
}
