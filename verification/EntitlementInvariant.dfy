/** What every service call keeps about dashboards, grants, requests, transfers and credentials. */
module EntitlementInvariant {
  import opened Wrappers
  import opened Entitlements

  // The invariant, one predicate per table.

  /** Published state holds exactly when a locked revision of the dashboard is pinned; the version
      counts from zero together with the publication times. */
  ghost predicate DashboardOk(users: map<UserId, User>, revisions: map<RevisionId, Revision>, d: DashboardId, row: Dashboard) {
    && row.owner in users
    && (row.published.Some? <==> row.state == PUBLISHED)
    && (row.published.Some? ==>
          row.published.value in revisions && revisions[row.published.value].dashboard == d
          && revisions[row.published.value].locked)
    && (row.state == DRAFT ==> row.firstPublishedAt.None?)
    && (row.state == PUBLISHED || row.state == UNPUBLISHED ==> row.firstPublishedAt.Some?)
    && (row.version == 0 <==> row.firstPublishedAt.None?)
    && (row.version == 0 <==> row.lastPublishedAt.None?)
    && (row.freshness.Some? ==>
          var f := row.freshness.value;
          1 <= f.seconds <= MAX_FRESHNESS_INTERVAL_SECONDS && f.staleAfter == f.confirmedAt + f.seconds)
  }

  ghost predicate DashboardsOk(w: World) {
    forall d :: d in w.dashboards ==> DashboardOk(w.users, w.revisions, d, w.dashboards[d])
  }

  ghost predicate Numbered(revisions: map<RevisionId, Revision>, d: DashboardId, number: nat) {
    exists r :: r in revisions && revisions[r].dashboard == d && revisions[r].number == number
  }

  ghost predicate NumberInRange(dashboards: map<DashboardId, Dashboard>, revisions: map<RevisionId, Revision>, r: RevisionId)
    requires r in revisions
  {
    && revisions[r].locked && revisions[r].dashboard in dashboards
    && var latest := dashboards[revisions[r].dashboard].latest;
       latest.Some? && latest.value in revisions && 1 <= revisions[r].number <= revisions[latest.value].number
  }

  ghost predicate NumbersUnique(revisions: map<RevisionId, Revision>) {
    forall r, q :: r in revisions && q in revisions ==>
      revisions[r].dashboard == revisions[q].dashboard && revisions[r].number == revisions[q].number ==> r == q
  }

  ghost predicate LatestOk(revisions: map<RevisionId, Revision>, d: DashboardId, latest: Option<RevisionId>) {
    latest.Some? ==>
      && latest.value in revisions && revisions[latest.value].dashboard == d
      && forall k: nat :: 1 <= k <= revisions[latest.value].number ==> Numbered(revisions, d, k)
  }

  /** The revisions of a dashboard are numbered exactly 1..n and `latest` points at n. */
  ghost predicate NumbersOk(dashboards: map<DashboardId, Dashboard>, revisions: map<RevisionId, Revision>) {
    && (forall r :: r in revisions ==> NumberInRange(dashboards, revisions, r))
    && NumbersUnique(revisions)
    && (forall d :: d in dashboards ==> LatestOk(revisions, d, dashboards[d].latest))
  }

  /** At most one open grant per dashboard and viewer; the owner has none. */
  ghost predicate GrantsOk(dashboards: map<DashboardId, Dashboard>, grants: map<GrantId, Grant>) {
    && (forall g :: g in grants ==>
          && grants[g].dashboard in dashboards
          && (grants[g].revokedAt.None? <==> grants[g].revokedBy.None?)
          && (grants[g].revokedAt.None? ==> dashboards[grants[g].dashboard].owner != grants[g].viewer))
    && (forall g, h :: g in grants && OpenGrant(grants, h, grants[g].dashboard, grants[g].viewer) && grants[g].revokedAt.None? ==>
          g == h)
  }

  /** One request row per dashboard and requester; a pending one is never the owner's, and its
      dashboard has been published. */
  ghost predicate RequestsOk(dashboards: map<DashboardId, Dashboard>, requests: map<RequestId, Request>) {
    && (forall r :: r in requests ==>
          && requests[r].dashboard in dashboards
          && dashboards[requests[r].dashboard].firstPublishedAt.Some?
          && (requests[r].status == PENDING <==> requests[r].resolvedAt.None?)
          && (requests[r].status == PENDING <==> requests[r].resolvedBy.None?)
          && (requests[r].status == PENDING ==> dashboards[requests[r].dashboard].owner != requests[r].requester))
    && (forall r, q :: r in requests && RequestOf(requests, q, requests[r].dashboard, requests[r].requester) ==> r == q)
  }

  ghost predicate LinkAt(transfers: map<TransferId, Transfer>, ids: seq<TransferId>, i: nat)
    requires i < |ids| && forall k :: 0 <= k < |ids| ==> ids[k] in transfers
  {
    if i == 0 then transfers[ids[i]].previous == None
    else transfers[ids[i]].previous == Some(ids[i - 1]) && transfers[ids[i]].from == transfers[ids[i - 1]].to
  }

  ghost predicate Linked(transfers: map<TransferId, Transfer>, ids: seq<TransferId>)
    requires forall k :: 0 <= k < |ids| ==> ids[k] in transfers
  {
    forall i :: 0 <= i < |ids| ==> LinkAt(transfers, ids, i)
  }

  /** `ids` lists every transfer of the dashboard, oldest first, each continuing the one before: its
      source is the previous target, the last is the head and its target the present owner. */
  ghost predicate IsChain(row: Dashboard, d: DashboardId, transfers: map<TransferId, Transfer>, ids: seq<TransferId>) {
    && (forall i :: 0 <= i < |ids| ==> ids[i] in transfers && transfers[ids[i]].dashboard == d)
    && (forall t :: t in transfers && transfers[t].dashboard == d ==> t in ids)
    && (forall i, j :: 0 <= i < j < |ids| ==> ids[i] != ids[j])
    && Linked(transfers, ids)
    && row.head == (if ids == [] then None else Some(ids[|ids| - 1]))
    && (ids != [] ==> transfers[ids[|ids| - 1]].to == row.owner)
  }

  ghost predicate Chained(row: Dashboard, d: DashboardId, transfers: map<TransferId, Transfer>) {
    exists ids :: IsChain(row, d, transfers, ids)
  }

  ghost predicate ChainsOk(dashboards: map<DashboardId, Dashboard>, transfers: map<TransferId, Transfer>) {
    && (forall d :: d in dashboards ==> Chained(dashboards[d], d, transfers))
    && (forall t :: t in transfers ==> transfers[t].dashboard in dashboards)
  }

  /** What a credential pins is in the past or present of what it is checked against. */
  ghost predicate Fits(w: World, x: Authorization) {
    && x.viewer in w.users && x.dashboard in w.dashboards && x.revision in w.revisions
    && w.revisions[x.revision].dashboard == x.dashboard && w.revisions[x.revision].locked
    && x.viewerVersion <= w.users[x.viewer].authVersion
    && (x.viewerVersion == w.users[x.viewer].authVersion ==> w.users[x.viewer].active)
    && (x.audience == PREVIEW <==> x.version.None?)
    && (x.audience == PREVIEW ==> x.grant.None?)
    && (x.version.Some? ==> VersionFits(w.dashboards[x.dashboard], x))
    && (x.grant.Some? ==>
          && x.epoch.None? && x.grant.value in w.grants
          && w.grants[x.grant.value].dashboard == x.dashboard && w.grants[x.grant.value].viewer == x.viewer)
    && (x.epoch.Some? ==> x.epoch.value in w.transfers)
    && (x.grant.None? && x.epoch == w.dashboards[x.dashboard].head ==> w.dashboards[x.dashboard].owner == x.viewer)
  }

  ghost predicate VersionFits(d: Dashboard, x: Authorization)
    requires x.version.Some?
  {
    && 0 < x.version.value <= d.version
    && (x.version.value == d.version && d.published.Some? ==> d.published == Some(x.revision))
  }

  ghost predicate AuthorizationsOk(w: World) {
    forall a :: a in w.authorizations ==> Fits(w, w.authorizations[a])
  }

  /** No viewer has seen a version beyond the dashboard's. */
  ghost predicate ViewsOk(dashboards: map<DashboardId, Dashboard>, states: map<(UserId, DashboardId), ViewerState>) {
    forall k :: k in states ==> k.1 in dashboards && states[k].seenVersion <= dashboards[k.1].version
  }

  ghost predicate Inv(w: World) {
    && DashboardsOk(w)
    && NumbersOk(w.dashboards, w.revisions)
    && GrantsOk(w.dashboards, w.grants)
    && RequestsOk(w.dashboards, w.requests)
    && ChainsOk(w.dashboards, w.transfers)
    && AuthorizationsOk(w)
    && ViewsOk(w.dashboards, w.viewerStates)
  }

  lemma InitInv(w: World)
    requires Init(w)
    ensures Inv(w)
  {
  }

  // What a call leaves alone

  /** Dashboards stay, and only ever gain versions. */
  ghost predicate DashboardsGrow(ds: map<DashboardId, Dashboard>, es: map<DashboardId, Dashboard>) {
    forall d :: d in ds ==> d in es && Grows(ds[d], es[d])
  }

  ghost predicate Grows(d: Dashboard, e: Dashboard) {
    d.version <= e.version && (d.firstPublishedAt.Some? ==> e.firstPublishedAt.Some?)
  }

  ghost predicate SameOwners(ds: map<DashboardId, Dashboard>, es: map<DashboardId, Dashboard>) {
    forall d :: d in ds ==> d in es && es[d].owner == ds[d].owner && es[d].head == ds[d].head
  }

  ghost predicate SameLatest(ds: map<DashboardId, Dashboard>, es: map<DashboardId, Dashboard>) {
    && (forall d :: d in ds ==> d in es && es[d].latest == ds[d].latest)
    && (forall d :: d in es && d !in ds ==> es[d].latest.None?)
  }

  lemma OwnersStay(w: World, op: Op)
    requires Changes(w, op) && !op.TransferOwnership?
    ensures SameOwners(w.dashboards, Effect(w, op).dashboards)
  {
  }

  lemma LatestStays(w: World, op: Op)
    requires Changes(w, op) && !op.CreateRevision?
    ensures SameLatest(w.dashboards, Effect(w, op).dashboards)
  {
  }

  lemma TableFrame(w: World, op: Op)
    requires Changes(w, op)
    ensures !op.CreateRevision? ==> Effect(w, op).revisions == w.revisions
    ensures !op.TransferOwnership? ==> Effect(w, op).transfers == w.transfers
    ensures !op.GrantViewer? && !op.RevokeViewer? && !op.ResolveRequest? && !op.TransferOwnership? ==> Effect(w, op).grants == w.grants
    ensures !op.RequestAccess? && !op.ResolveRequest? && !op.TransferOwnership? ==> Effect(w, op).requests == w.requests
    ensures !op.IssuePreview? && !op.IssueView? && !op.RevokeAuthorization? ==> Effect(w, op).authorizations == w.authorizations
    ensures !op.IssueView? ==> Effect(w, op).viewerStates == w.viewerStates
  {
  }

  // Every call keeps every part

  lemma UsersStay(w: World, op: Op)
    requires Changes(w, op)
    ensures forall u :: u in w.users ==> u in Effect(w, op).users && w.users[u].authVersion <= Effect(w, op).users[u].authVersion
  {
  }

  lemma RevisionsStay(w: World, op: Op)
    requires Changes(w, op)
    ensures forall r :: r in w.revisions ==> r in Effect(w, op).revisions && Effect(w, op).revisions[r] == w.revisions[r]
  {
  }

  /** The one dashboard a call rewrites, if any. */
  predicate Rewrites(op: Op, d: DashboardId) {
    match op
    case CreateDashboard(_, id) => id == d
    case CreateRevision(e, _, _) => e == d
    case Publish(e, _, _, _, _) => e == d
    case Unpublish(e, _) => e == d
    case ConfirmFreshness(e, _, _, _) => e == d
    case TransferOwnership(e, _, _, _, _, _) => e == d
    case Archive(e) => e == d
    case Restore(e) => e == d
    case Delete(e) => e == d
    case _ => false
  }

  lemma OtherDashboards(w: World, op: Op, d: DashboardId)
    requires Changes(w, op) && !Rewrites(op, d)
    ensures d in Effect(w, op).dashboards <==> d in w.dashboards
    ensures d in w.dashboards ==> Effect(w, op).dashboards[d] == w.dashboards[d]
  {
  }

  lemma RewrittenGrows(w: World, op: Op, d: DashboardId)
    requires Changes(w, op) && Rewrites(op, d) && d in w.dashboards
    ensures d in Effect(w, op).dashboards && Grows(w.dashboards[d], Effect(w, op).dashboards[d])
  {
  }

  lemma DashboardsOnlyGrow(w: World, op: Op)
    requires Changes(w, op)
    ensures DashboardsGrow(w.dashboards, Effect(w, op).dashboards)
  {
    var after := Effect(w, op).dashboards;
    forall d | d in w.dashboards ensures d in after && Grows(w.dashboards[d], after[d]) {
      if Rewrites(op, d) { RewrittenGrows(w, op, d); } else { OtherDashboards(w, op, d); }
    }
  }

  lemma RewrittenOk(w: World, op: Op, d: DashboardId)
    requires Changes(w, op) && Rewrites(op, d)
    requires d in w.dashboards ==> DashboardOk(w.users, w.revisions, d, w.dashboards[d])
    ensures d in Effect(w, op).dashboards && DashboardOk(w.users, w.revisions, d, Effect(w, op).dashboards[d])
  {
  }

  lemma DashboardsKept(w: World, op: Op)
    requires DashboardsOk(w) && Changes(w, op)
    ensures DashboardsOk(Effect(w, op))
  {
    var w' := Effect(w, op);
    forall d | d in w'.dashboards ensures DashboardOk(w.users, w.revisions, d, w'.dashboards[d]) {
      if Rewrites(op, d) { RewrittenOk(w, op, d); } else { OtherDashboards(w, op, d); }
    }
    RevisionsStay(w, op);
    UsersStay(w, op);
  }

  lemma NumbersFrame(ds: map<DashboardId, Dashboard>, es: map<DashboardId, Dashboard>, revisions: map<RevisionId, Revision>)
    requires NumbersOk(ds, revisions) && SameLatest(ds, es)
    ensures NumbersOk(es, revisions)
  {
  }

  lemma NumbersKept(w: World, op: Op)
    requires NumbersOk(w.dashboards, w.revisions) && Changes(w, op)
    ensures NumbersOk(Effect(w, op).dashboards, Effect(w, op).revisions)
  {
    if op.CreateRevision? {
      NewRevisionKept(w.dashboards, w.revisions, op.dashboard, op.actor, op.id, NextNumber(w, op.dashboard));
    } else {
      LatestStays(w, op);
      TableFrame(w, op);
      NumbersFrame(w.dashboards, Effect(w, op).dashboards, w.revisions);
    }
  }

  lemma NewRevisionKept(dashboards: map<DashboardId, Dashboard>, revisions: map<RevisionId, Revision>,
                        d: DashboardId, actor: UserId, id: RevisionId, n: nat)
    requires NumbersOk(dashboards, revisions) && d in dashboards && id !in revisions
    requires LatestOk(revisions, d, dashboards[d].latest)
    requires n == if dashboards[d].latest.Some? then revisions[dashboards[d].latest.value].number + 1 else 1
    ensures NumbersOk(dashboards[d := dashboards[d].(latest := Some(id))], revisions[id := Revision(d, n, actor, true)])
  {
    var rows := dashboards[d := dashboards[d].(latest := Some(id))];
    var more := revisions[id := Revision(d, n, actor, true)];
    forall r | r in more ensures NumberInRange(rows, more, r) {
      if r != id { assert NumberInRange(dashboards, revisions, r); }
    }
    forall r, q | r in more && q in more && more[r].dashboard == more[q].dashboard && more[r].number == more[q].number
      ensures r == q
    {
      assert r in revisions ==> NumberInRange(dashboards, revisions, r);
      assert q in revisions ==> NumberInRange(dashboards, revisions, q);
    }
    forall e | e in rows ensures LatestOk(more, e, rows[e].latest) {
      assert LatestOk(revisions, e, dashboards[e].latest);
      NewLatest(revisions, e, dashboards[e].latest, d, actor, id, n);
    }
  }

  lemma NewLatest(revisions: map<RevisionId, Revision>, e: DashboardId, latest: Option<RevisionId>,
                  d: DashboardId, actor: UserId, id: RevisionId, n: nat)
    requires LatestOk(revisions, e, latest) && id !in revisions
    requires e == d ==> n == if latest.Some? then revisions[latest.value].number + 1 else 1
    ensures LatestOk(revisions[id := Revision(d, n, actor, true)], e, if e == d then Some(id) else latest)
  {
    var more := revisions[id := Revision(d, n, actor, true)];
    forall k: nat | Numbered(revisions, e, k) ensures Numbered(more, e, k) {
      var r :| r in revisions && revisions[r].dashboard == e && revisions[r].number == k;
      assert more[r] == revisions[r];
    }
    assert more[id].number == n && more[id].dashboard == d;
    assert Numbered(more, d, n);
  }

  lemma GrantsFrame(ds: map<DashboardId, Dashboard>, es: map<DashboardId, Dashboard>, grants: map<GrantId, Grant>)
    requires GrantsOk(ds, grants) && SameOwners(ds, es)
    ensures GrantsOk(es, grants)
  {
  }

  lemma GrantsKept(w: World, op: Op)
    requires GrantsOk(w.dashboards, w.grants) && RequestsOk(w.dashboards, w.requests) && Changes(w, op)
    ensures GrantsOk(Effect(w, op).dashboards, Effect(w, op).grants)
  {
    if op.GrantViewer? {
      NewGrantKept(w.dashboards, w.grants, op.dashboard, op.target, op.actor, op.id);
    } else if op.ResolveRequest? {
      var u := w.requests[op.request].requester;
      if op.resolution == APPROVED && !HasOpenGrant(w.grants, op.dashboard, u) {
        NewGrantKept(w.dashboards, w.grants, op.dashboard, u, op.actor, op.id);
      }
    } else if op.RevokeViewer? {
      RevokedKept(w.dashboards, w.grants, op.grant, w.now, op.actor);
    } else if op.TransferOwnership? {
      TransferGrantsKept(w.dashboards, w.grants, op.dashboard, op.incoming, op.actor, op.at, op.id);
    } else {
      OwnersStay(w, op);
      TableFrame(w, op);
      GrantsFrame(w.dashboards, Effect(w, op).dashboards, w.grants);
    }
  }

  lemma NewGrantKept(dashboards: map<DashboardId, Dashboard>, grants: map<GrantId, Grant>,
                     d: DashboardId, viewer: UserId, actor: UserId, id: GrantId)
    requires GrantsOk(dashboards, grants) && d in dashboards && dashboards[d].owner != viewer
    requires !HasOpenGrant(grants, d, viewer) && id !in grants
    ensures GrantsOk(dashboards, grants[id := Grant(d, viewer, actor, None, None)])
  {
    var more := grants[id := Grant(d, viewer, actor, None, None)];
    forall g, h | g in more && OpenGrant(more, h, more[g].dashboard, more[g].viewer) && more[g].revokedAt.None?
      ensures g == h
    {
      assert g in grants ==> OpenGrant(grants, g, grants[g].dashboard, grants[g].viewer);
      assert h in grants ==> OpenGrant(grants, h, grants[h].dashboard, grants[h].viewer);
    }
  }

  lemma RevokedKept(dashboards: map<DashboardId, Dashboard>, grants: map<GrantId, Grant>, id: GrantId, at: Time, actor: UserId)
    requires GrantsOk(dashboards, grants) && id in grants
    ensures GrantsOk(dashboards, grants[id := grants[id].(revokedAt := Some(at), revokedBy := Some(actor))])
  {
    var less := grants[id := grants[id].(revokedAt := Some(at), revokedBy := Some(actor))];
    assert forall h, d, v :: OpenGrant(less, h, d, v) ==> OpenGrant(grants, h, d, v);
  }

  lemma TransferGrantsKept(dashboards: map<DashboardId, Dashboard>, grants: map<GrantId, Grant>,
                           d: DashboardId, incoming: UserId, actor: UserId, at: Time, id: TransferId)
    requires GrantsOk(dashboards, grants) && d in dashboards
    ensures GrantsOk(dashboards[d := dashboards[d].(owner := incoming, head := Some(id))], CloseGrants(grants, d, incoming, at, actor))
  {
    var closed := CloseGrants(grants, d, incoming, at, actor);
    assert forall g :: g in closed && closed[g].revokedAt.None? ==> closed[g] == grants[g];
    assert forall h, e, v :: OpenGrant(closed, h, e, v) ==> OpenGrant(grants, h, e, v) && !(e == d && v == incoming);
  }

  lemma RequestsFrame(ds: map<DashboardId, Dashboard>, es: map<DashboardId, Dashboard>, requests: map<RequestId, Request>)
    requires RequestsOk(ds, requests) && SameOwners(ds, es) && DashboardsGrow(ds, es)
    ensures RequestsOk(es, requests)
  {
  }

  lemma RequestsKept(w: World, op: Op)
    requires DashboardsOk(w) && RequestsOk(w.dashboards, w.requests) && Changes(w, op)
    ensures RequestsOk(Effect(w, op).dashboards, Effect(w, op).requests)
  {
    if op.RequestAccess? {
      NewRequestKept(w.dashboards, w.requests, op.dashboard, op.requester, op.at, op.id);
    } else if op.ResolveRequest? {
      ResolvedKept(w.dashboards, w.requests, op.request, op.resolution, op.at, op.actor);
    } else if op.TransferOwnership? {
      TransferRequestsKept(w.dashboards, w.requests, op.dashboard, op.incoming, op.actor, op.at, op.id);
    } else {
      OwnersStay(w, op);
      DashboardsOnlyGrow(w, op);
      TableFrame(w, op);
      RequestsFrame(w.dashboards, Effect(w, op).dashboards, w.requests);
    }
  }

  lemma NewRequestKept(dashboards: map<DashboardId, Dashboard>, requests: map<RequestId, Request>,
                       d: DashboardId, u: UserId, at: Time, id: RequestId)
    requires RequestsOk(dashboards, requests) && d in dashboards
    requires dashboards[d].owner != u && dashboards[d].firstPublishedAt.Some?
    requires if HasRequest(requests, d, u) then RequestOf(requests, id, d, u) else id !in requests
    ensures RequestsOk(dashboards, requests[id := RequestedRow(requests, id, d, u, at)])
  {
    var more := requests[id := RequestedRow(requests, id, d, u, at)];
    forall r, q | r in more && RequestOf(more, q, more[r].dashboard, more[r].requester) ensures r == q {
      assert r in requests ==> RequestOf(requests, r, more[r].dashboard, more[r].requester);
      assert q in requests ==> RequestOf(requests, q, more[q].dashboard, more[q].requester);
    }
  }

  lemma ResolvedKept(dashboards: map<DashboardId, Dashboard>, requests: map<RequestId, Request>,
                     r: RequestId, resolution: Status, at: Time, actor: UserId)
    requires RequestsOk(dashboards, requests) && r in requests && resolution != PENDING
    ensures RequestsOk(dashboards, requests[r := requests[r].(status := resolution, resolvedAt := Some(at), resolvedBy := Some(actor))])
  {
    var less := requests[r := requests[r].(status := resolution, resolvedAt := Some(at), resolvedBy := Some(actor))];
    assert forall q, d, u :: RequestOf(less, q, d, u) <==> RequestOf(requests, q, d, u);
  }

  lemma TransferRequestsKept(dashboards: map<DashboardId, Dashboard>, requests: map<RequestId, Request>,
                             d: DashboardId, incoming: UserId, actor: UserId, at: Time, id: TransferId)
    requires RequestsOk(dashboards, requests) && d in dashboards
    ensures RequestsOk(dashboards[d := dashboards[d].(owner := incoming, head := Some(id))],
                       ApprovePending(requests, d, incoming, at, actor))
  {
    var done := ApprovePending(requests, d, incoming, at, actor);
    assert forall q, e, u :: RequestOf(done, q, e, u) <==> RequestOf(requests, q, e, u);
  }

  lemma ChainsFrame(ds: map<DashboardId, Dashboard>, es: map<DashboardId, Dashboard>, transfers: map<TransferId, Transfer>)
    requires ChainsOk(ds, transfers) && SameOwners(ds, es)
    requires forall d :: d in es && d !in ds ==> es[d].head.None?
    ensures ChainsOk(es, transfers)
  {
    forall d | d in es ensures Chained(es[d], d, transfers) {
      if d in ds {
        var ids :| IsChain(ds[d], d, transfers, ids);
        assert IsChain(es[d], d, transfers, ids);
      } else {
        assert IsChain(es[d], d, transfers, []);
      }
    }
  }

  lemma ChainsKept(w: World, op: Op)
    requires ChainsOk(w.dashboards, w.transfers) && Changes(w, op)
    ensures ChainsOk(Effect(w, op).dashboards, Effect(w, op).transfers)
  {
    if op.TransferOwnership? {
      TransferChains(w.dashboards, w.transfers, op.dashboard, op.incoming, op.id);
    } else {
      OwnersStay(w, op);
      TableFrame(w, op);
      NewDashboards(w, op);
      ChainsFrame(w.dashboards, Effect(w, op).dashboards, w.transfers);
    }
  }

  lemma NewDashboards(w: World, op: Op)
    requires Changes(w, op)
    ensures forall d :: d in Effect(w, op).dashboards && d !in w.dashboards ==> Effect(w, op).dashboards[d].head.None?
  {
  }

  lemma TransferChains(dashboards: map<DashboardId, Dashboard>, transfers: map<TransferId, Transfer>,
                       d: DashboardId, incoming: UserId, id: TransferId)
    requires ChainsOk(dashboards, transfers) && d in dashboards && id !in transfers
    ensures ChainsOk(dashboards[d := dashboards[d].(owner := incoming, head := Some(id))],
                     transfers[id := Transfer(d, dashboards[d].owner, incoming, dashboards[d].head)])
  {
    var row := dashboards[d].(owner := incoming, head := Some(id));
    var more := transfers[id := Transfer(d, dashboards[d].owner, incoming, dashboards[d].head)];
    forall e | e in dashboards ensures Chained(dashboards[d := row][e], e, more) {
      var ids :| IsChain(dashboards[e], e, transfers, ids);
      if e == d {
        LongerChain(dashboards[d], d, transfers, ids, incoming, id);
      } else {
        OtherChain(dashboards[e], e, transfers, ids, id, more[id]);
      }
    }
  }

  lemma OtherChain(row: Dashboard, e: DashboardId, transfers: map<TransferId, Transfer>, ids: seq<TransferId>, id: TransferId, t: Transfer)
    requires IsChain(row, e, transfers, ids) && id !in transfers && t.dashboard != e
    ensures Chained(row, e, transfers[id := t])
  {
    var more := transfers[id := t];
    forall i | 0 <= i < |ids| ensures ids[i] in more && more[ids[i]] == transfers[ids[i]] {
    }
    forall i | 0 <= i < |ids| ensures LinkAt(more, ids, i) {
      assert LinkAt(transfers, ids, i);
    }
    assert IsChain(row, e, more, ids);
  }

  lemma LongerChain(row: Dashboard, d: DashboardId, transfers: map<TransferId, Transfer>, ids: seq<TransferId>, incoming: UserId, id: TransferId)
    requires IsChain(row, d, transfers, ids) && id !in transfers
    ensures Chained(row.(owner := incoming, head := Some(id)), d, transfers[id := Transfer(d, row.owner, incoming, row.head)])
  {
    var more := transfers[id := Transfer(d, row.owner, incoming, row.head)];
    var longer := ids + [id];
    assert id !in ids && longer[|ids|] == id;
    assert forall i :: 0 <= i < |ids| ==> longer[i] == ids[i] && more[longer[i]] == transfers[ids[i]];
    forall t | t in more && more[t].dashboard == d ensures t in longer {
      assert t != id ==> t in ids;
    }
    LinksContinue(row, d, transfers, ids, incoming, id);
    assert IsChain(row.(owner := incoming, head := Some(id)), d, more, longer);
  }

  lemma LinksContinue(row: Dashboard, d: DashboardId, transfers: map<TransferId, Transfer>, ids: seq<TransferId>, incoming: UserId, id: TransferId)
    requires IsChain(row, d, transfers, ids) && id !in transfers
    requires forall k :: 0 <= k <= |ids| ==> (ids + [id])[k] in transfers[id := Transfer(d, row.owner, incoming, row.head)]
    ensures Linked(transfers[id := Transfer(d, row.owner, incoming, row.head)], ids + [id])
  {
    var more := transfers[id := Transfer(d, row.owner, incoming, row.head)];
    var longer := ids + [id];
    forall i | 0 <= i < |longer| ensures LinkAt(more, longer, i) {
      if i < |ids| {
        assert LinkAt(transfers, ids, i);
        assert longer[i] == ids[i] && (i > 0 ==> longer[i - 1] == ids[i - 1]);
      } else {
        assert longer[i] == id && (i > 0 ==> longer[i - 1] == ids[|ids| - 1]);
      }
    }
  }

  lemma ViewsKept(w: World, op: Op)
    requires ViewsOk(w.dashboards, w.viewerStates) && Changes(w, op)
    ensures ViewsOk(Effect(w, op).dashboards, Effect(w, op).viewerStates)
  {
    DashboardsOnlyGrow(w, op);
    TableFrame(w, op);
  }

  // Credentials

  /** A user row either stays as it is or gets a new version. */
  lemma UserStep(w: World, op: Op, u: UserId)
    requires Changes(w, op) && u in w.users
    ensures u in Effect(w, op).users
    ensures Effect(w, op).users[u] == w.users[u] || w.users[u].authVersion < Effect(w, op).users[u].authVersion
  {
  }

  /** A dashboard's version pins what it publishes, and a new owner comes with a fresh marker. */
  ghost predicate DashboardAdvances(w: World, d: Dashboard, e: Dashboard) {
    && d.version <= e.version
    && (d.version == e.version ==> e.published == d.published || e.published.None?)
    && ((e.head == d.head && e.owner == d.owner) || (e.head.Some? && e.head.value !in w.transfers))
  }

  lemma DashboardStep(w: World, op: Op, d: DashboardId)
    requires Changes(w, op) && d in w.dashboards
    ensures d in Effect(w, op).dashboards && DashboardAdvances(w, w.dashboards[d], Effect(w, op).dashboards[d])
  {
    if !Rewrites(op, d) { OtherDashboards(w, op, d); }
  }

  /** A grant row keeps its scope, and a closed one never changes again. */
  ghost predicate GrantStays(grants: map<GrantId, Grant>, later: map<GrantId, Grant>, g: GrantId)
    requires g in grants
  {
    && g in later && later[g].dashboard == grants[g].dashboard && later[g].viewer == grants[g].viewer
    && later[g].createdBy == grants[g].createdBy
    && (grants[g].revokedAt.Some? ==> later[g] == grants[g])
  }

  lemma GrantStep(w: World, op: Op, g: GrantId)
    requires Changes(w, op) && g in w.grants
    ensures GrantStays(w.grants, Effect(w, op).grants, g)
  {
    if op.TransferOwnership? {
      assert g in CloseGrants(w.grants, op.dashboard, op.incoming, op.at, op.actor);
    } else if !op.GrantViewer? && !op.RevokeViewer? && !op.ResolveRequest? {
      TableFrame(w, op);
    }
  }

  lemma TransfersStay(w: World, op: Op)
    requires Changes(w, op)
    ensures forall t :: t in w.transfers ==> t in Effect(w, op).transfers && Effect(w, op).transfers[t] == w.transfers[t]
  {
    if !op.TransferOwnership? { TableFrame(w, op); }
  }

  lemma FitsStep(w: World, op: Op, x: Authorization)
    requires Changes(w, op) && Fits(w, x)
    requires w.dashboards[x.dashboard].head.Some? ==> w.dashboards[x.dashboard].head.value in w.transfers
    ensures Fits(Effect(w, op), x)
  {
    UserStep(w, op, x.viewer);
    DashboardStep(w, op, x.dashboard);
    RevisionsStay(w, op);
    TransfersStay(w, op);
    if x.grant.Some? { GrantStep(w, op, x.grant.value); }
  }

  lemma HeadIsMarker(w: World, d: DashboardId)
    requires ChainsOk(w.dashboards, w.transfers) && d in w.dashboards
    ensures w.dashboards[d].head.Some? ==> w.dashboards[d].head.value in w.transfers
  {
    var ids :| IsChain(w.dashboards[d], d, w.transfers, ids);
  }

  lemma NewPreviewFits(w: World, op: Op)
    requires Changes(w, op) && op.IssuePreview?
    requires w.dashboards[op.dashboard].head.Some? ==> w.dashboards[op.dashboard].head.value in w.transfers
    ensures Fits(w, NewPreview(w, op.dashboard, op.revision, op.viewer, op.expiresAt))
  {
  }

  lemma NewViewFits(w: World, op: Op)
    requires Changes(w, op) && op.IssueView?
    requires DashboardOk(w.users, w.revisions, op.dashboard, w.dashboards[op.dashboard])
    requires w.dashboards[op.dashboard].head.Some? ==> w.dashboards[op.dashboard].head.value in w.transfers
    ensures Fits(w, NewView(w, op.dashboard, op.viewer, op.expiresAt))
  {
  }

  lemma AuthorizationsKept(w: World, op: Op)
    requires Inv(w) && Changes(w, op)
    ensures AuthorizationsOk(Effect(w, op))
  {
    var w' := Effect(w, op);
    forall a | a in w'.authorizations ensures Fits(w', w'.authorizations[a]) {
      if a in w.authorizations {
        HeadIsMarker(w, w.authorizations[a].dashboard);
        OldFits(w, op, a);
      } else {
        AuthorizationStep(w, op, a);
        HeadIsMarker(w, op.dashboard);
        NewFits(w, op);
      }
    }
  }

  lemma OldFits(w: World, op: Op, a: AuthorizationId)
    requires Changes(w, op) && a in w.authorizations && Fits(w, w.authorizations[a])
    requires var d := w.dashboards[w.authorizations[a].dashboard]; d.head.Some? ==> d.head.value in w.transfers
    ensures a in Effect(w, op).authorizations && Fits(Effect(w, op), Effect(w, op).authorizations[a])
  {
    AuthorizationStep(w, op, a);
    FitsStep(w, op, w.authorizations[a]);
  }

  lemma NewFits(w: World, op: Op)
    requires Changes(w, op) && (op.IssuePreview? || op.IssueView?)
    requires DashboardOk(w.users, w.revisions, op.dashboard, w.dashboards[op.dashboard])
    requires w.dashboards[op.dashboard].head.Some? ==> w.dashboards[op.dashboard].head.value in w.transfers
    ensures Effect(w, op).authorizations[op.id].captured == op.IssueView?
    ensures Fits(Effect(w, op), Effect(w, op).authorizations[op.id])
  {
    AuthorizationStep(w, op, op.id);
    if op.IssuePreview? {
      NewPreviewFits(w, op);
      FitsStep(w, op, NewPreview(w, op.dashboard, op.revision, op.viewer, op.expiresAt));
    } else {
      NewViewFits(w, op);
      FitsStep(w, op, NewView(w, op.dashboard, op.viewer, op.expiresAt));
    }
  }

  /** An authorization row only ever changes by being revoked. */
  lemma AuthorizationStep(w: World, op: Op, a: AuthorizationId)
    requires Changes(w, op)
    ensures a in w.authorizations ==>
              && a in Effect(w, op).authorizations
              && (if op.RevokeAuthorization? && op.authorization == a
                  then Effect(w, op).authorizations[a] == w.authorizations[a].(revokedAt := Some(op.at))
                  else Effect(w, op).authorizations[a] == w.authorizations[a])
    ensures a in Effect(w, op).authorizations && a !in w.authorizations ==>
              || (op.IssuePreview? && op.id == a
                  && Effect(w, op).authorizations[a] == NewPreview(w, op.dashboard, op.revision, op.viewer, op.expiresAt))
              || (op.IssueView? && op.id == a
                  && Effect(w, op).authorizations[a] == NewView(w, op.dashboard, op.viewer, op.expiresAt).(captured := true))
  {
  }

  lemma EffectKeepsInv(w: World, op: Op)
    requires Inv(w) && Changes(w, op)
    ensures Inv(Effect(w, op))
  {
    DashboardsKept(w, op);
    NumbersKept(w, op);
    GrantsKept(w, op);
    RequestsKept(w, op);
    ChainsKept(w, op);
    AuthorizationsKept(w, op);
    ViewsKept(w, op);
  }

  /** Whatever calls are made, in whatever order, every reachable state satisfies the invariant. */
  lemma {:induction false} RunKeepsInv(w: World, ops: seq<Op>)
    requires Inv(w)
    ensures Inv(Run(w, ops))
    decreases |ops|
  {
    if ops != [] {
      if Changes(w, ops[0]) { EffectKeepsInv(w, ops[0]); }
      RunKeepsInv(Apply(w, ops[0]), ops[1..]);
    }
  }
}
