/** Ownership confirmations, closed grants, reopened requests and publication history over runs. */
module EntitlementRuns {
  import opened Wrappers
  import opened Entitlements
  import opened EntitlementInvariant
  import opened Credentials

  // Ownership

  /** Number of ownership transfers of `d` that the run carries out. */
  ghost function Transfers(w: World, ops: seq<Op>, d: DashboardId): nat
    decreases |ops|
  {
    if ops == [] then 0
    else (if Changes(w, ops[0]) && MovesOwner(ops[0], d) then 1 else 0) + Transfers(Apply(w, ops[0]), ops[1..], d)
  }

  /** A head that has been left: no later transfer can return to it. */
  ghost predicate Behind(w: World, d: DashboardId, head: Option<TransferId>) {
    && d in w.dashboards && w.dashboards[d].head != head
    && (head.Some? ==> head.value in w.transfers)
  }

  lemma BehindStep(w: World, op: Op, d: DashboardId, head: Option<TransferId>)
    requires Changes(w, op) && Behind(w, d, head)
    ensures Behind(Effect(w, op), d, head)
  {
    DashboardStep(w, op, d);
    TransfersStay(w, op);
    if !Rewrites(op, d) { OtherDashboards(w, op, d); }
  }

  lemma {:induction false} BehindForever(w: World, ops: seq<Op>, d: DashboardId, head: Option<TransferId>)
    requires Behind(w, d, head)
    ensures d in Run(w, ops).dashboards && Run(w, ops).dashboards[d].head != head
    decreases |ops|
  {
    if ops != [] {
      if Changes(w, ops[0]) { BehindStep(w, ops[0], d, head); }
      BehindForever(Apply(w, ops[0]), ops[1..], d, head);
    }
  }

  /** The head of a dashboard is the same after a run exactly when no transfer took place, however
      often ownership may have come back to the same user. */
  lemma {:induction false} HeadNeverReturns(w: World, ops: seq<Op>, d: DashboardId)
    requires Inv(w) && d in w.dashboards
    ensures d in Run(w, ops).dashboards
    ensures Run(w, ops).dashboards[d].head == w.dashboards[d].head <==> Transfers(w, ops, d) == 0
    decreases |ops|
  {
    if ops != [] {
      var op := ops[0];
      if Changes(w, op) {
        HeadIsMarker(w, d);
        EffectOnHead(w, op, d);
        EffectKeepsInv(w, op);
        TransfersStay(w, op);
        if MovesOwner(op, d) {
          BehindForever(Effect(w, op), ops[1..], d, w.dashboards[d].head);
        } else {
          HeadNeverReturns(Effect(w, op), ops[1..], d);
        }
      } else {
        HeadNeverReturns(w, ops[1..], d);
      }
    }
  }

  /** At any point of any run: a confirmation bound to the head it was then shown succeeds later only if
      no transfer happened in between. */
  lemma ConfirmationBinds(w: World, before: seq<Op>, since: seq<Op>, confirm: Op)
    requires Init(w) && confirm.TransferOwnership? && confirm.dashboard in Run(w, before).dashboards
    requires confirm.expected == Bound(Run(w, before).dashboards[confirm.dashboard].head)
    requires Changes(Run(Run(w, before), since), confirm)
    ensures Transfers(Run(w, before), since, confirm.dashboard) == 0
  {
    InitInv(w);
    RunKeepsInv(w, before);
    HeadNeverReturns(Run(w, before), since, confirm.dashboard);
  }

  /** `AccessRequest._validate_transition`, with the dashboard as it is when the row is saved. */
  predicate MayTransition(w: World, original: Request, row: Request)
    requires original.dashboard in w.dashboards
  {
    var d := w.dashboards[original.dashboard];
    && row.dashboard == original.dashboard && row.requester == original.requester
    && match (original.status, row.status)
       case (PENDING, PENDING) => row.requestedAt == original.requestedAt
       case (PENDING, _) =>
         && row.resolvedBy == Some(if row.status == CANCELLED then row.requester else d.owner) && row.resolvedAt.Some?
         && (row.status == APPROVED ==>
               && (d.state == PUBLISHED || d.state == UNPUBLISHED)
               && IsActive(w.users, d.owner) && IsActive(w.users, row.requester))
         && row.requestedAt == original.requestedAt
       case (_, PENDING) =>
         && original.requestedAt < row.requestedAt && row.resolvedAt.None? && row.resolvedBy.None?
         && IsActive(w.users, row.requester) && row.requester != d.owner
         && d.state == PUBLISHED && IsActive(w.users, d.owner)
       case (_, _) =>
         && row.status == original.status && row.requestedAt == original.requestedAt
         && row.resolvedAt == original.resolvedAt && row.resolvedBy == original.resolvedBy
  }

  lemma TransferTransition(w: World, op: Op, r: RequestId)
    requires DashboardsOk(w) && RequestsOk(w.dashboards, w.requests) && Changes(w, op) && op.TransferOwnership? && r in w.requests
    ensures r in Effect(w, op).requests && MayTransition(w, w.requests[r], Effect(w, op).requests[r])
  {
    assert r in ApprovePending(w.requests, op.dashboard, op.incoming, op.at, op.actor);
    assert DashboardOk(w.users, w.revisions, op.dashboard, w.dashboards[op.dashboard]);
  }

  lemma RequestTransition(w: World, op: Op, r: RequestId)
    requires RequestsOk(w.dashboards, w.requests) && Changes(w, op) && (op.RequestAccess? || op.ResolveRequest?) && r in w.requests
    ensures r in Effect(w, op).requests && MayTransition(w, w.requests[r], Effect(w, op).requests[r])
  {
  }

  /** The model's own transition guard never refuses what a service writes to a request that exists: not a
      resolution, not a reopening, and not the approval inside a transfer, which does not check the state
      of the dashboard itself. */
  lemma TransitionsAllowed(w: World, calls: seq<Op>, op: Op, r: RequestId)
    requires Init(w) && Changes(Run(w, calls), op) && r in Run(w, calls).requests
    ensures var v := Run(w, calls);
            && v.requests[r].dashboard in v.dashboards
            && r in Effect(v, op).requests && MayTransition(v, v.requests[r], Effect(v, op).requests[r])
  {
    InitInv(w);
    RunKeepsInv(w, calls);
    var v := Run(w, calls);
    if op.TransferOwnership? {
      TransferTransition(v, op, r);
    } else if op.RequestAccess? || op.ResolveRequest? {
      RequestTransition(v, op, r);
    } else {
      TableFrame(v, op);
    }
  }

  /** In every reachable state the transfers of a dashboard form one chain without repeats that lists
      them all: each names the one before and starts from its target, and the head leads to the owner. */
  lemma TransfersFormOneChain(w: World, ops: seq<Op>, d: DashboardId) returns (ids: seq<TransferId>)
    requires Init(w) && d in Run(w, ops).dashboards
    ensures IsChain(Run(w, ops).dashboards[d], d, Run(w, ops).transfers, ids)
  {
    InitInv(w);
    RunKeepsInv(w, ops);
    ids :| IsChain(Run(w, ops).dashboards[d], d, Run(w, ops).transfers, ids);
  }

  // Grants

  /** A closed grant never changes again; a later grant is a new row. */
  lemma {:induction false} ClosedGrantStaysClosed(w: World, ops: seq<Op>, g: GrantId)
    requires g in w.grants && w.grants[g].revokedAt.Some?
    ensures g in Run(w, ops).grants && Run(w, ops).grants[g] == w.grants[g]
    decreases |ops|
  {
    if ops != [] {
      if Changes(w, ops[0]) { GrantStep(w, ops[0], g); }
      ClosedGrantStaysClosed(Apply(w, ops[0]), ops[1..], g);
    }
  }

  /** In every reachable state the owner holds no open grant and no pending request, and nobody holds
      two open grants of one dashboard. */
  lemma AccessStaysConsistent(w: World, ops: seq<Op>, d: DashboardId)
    requires Init(w) && d in Run(w, ops).dashboards
    ensures var w' := Run(w, ops); var owner := w'.dashboards[d].owner;
            && !HasOpenGrant(w'.grants, d, owner)
            && (forall r :: RequestOf(w'.requests, r, d, owner) ==> w'.requests[r].status != PENDING)
            && (forall g, h, v :: OpenGrant(w'.grants, g, d, v) && OpenGrant(w'.grants, h, d, v) ==> g == h)
  {
    InitInv(w);
    RunKeepsInv(w, ops);
  }

  // Requests

  /** A request keeps its row; when it goes back to pending, its request time is strictly later. */
  ghost predicate RequestMoves(before: Request, after: Request) {
    && after.dashboard == before.dashboard && after.requester == before.requester
    && before.requestedAt <= after.requestedAt
    && (before.status != PENDING && after.status == PENDING ==> before.requestedAt < after.requestedAt)
    && (before.status == PENDING || after.status != PENDING ==> before.requestedAt == after.requestedAt)
  }

  lemma RequestStep(w: World, op: Op, r: RequestId)
    requires Changes(w, op) && r in w.requests
    ensures r in Effect(w, op).requests && RequestMoves(w.requests[r], Effect(w, op).requests[r])
  {
    if op.TransferOwnership? {
      assert r in ApprovePending(w.requests, op.dashboard, op.incoming, op.at, op.actor);
    } else if !op.RequestAccess? && !op.ResolveRequest? {
      TableFrame(w, op);
    }
  }

  /** Number of times a request that was resolved is opened again. */
  ghost function Reopenings(w: World, ops: seq<Op>, r: RequestId): nat
    decreases |ops|
  {
    if ops == [] then 0
    else
      var w' := Apply(w, ops[0]);
      (if r in w.requests && r in w'.requests && w.requests[r].status != PENDING && w'.requests[r].status == PENDING then 1 else 0)
      + Reopenings(w', ops[1..], r)
  }

  /** Each reopening moves the request time forward by at least one tick. */
  lemma {:induction false} ReopenedStrictlyLater(w: World, ops: seq<Op>, r: RequestId)
    requires r in w.requests
    ensures r in Run(w, ops).requests
    ensures w.requests[r].requestedAt + Reopenings(w, ops, r) <= Run(w, ops).requests[r].requestedAt
    decreases |ops|
  {
    if ops != [] {
      if Changes(w, ops[0]) { RequestStep(w, ops[0], r); }
      ReopenedStrictlyLater(Apply(w, ops[0]), ops[1..], r);
    }
  }

  // Publication

  /** Number of publications (rollbacks included) of `d` that the run carries out. */
  ghost function Publications(w: World, ops: seq<Op>, d: DashboardId): nat
    decreases |ops|
  {
    if ops == [] then 0
    else (if Changes(w, ops[0]) && ops[0].Publish? && ops[0].dashboard == d then 1 else 0)
         + Publications(Apply(w, ops[0]), ops[1..], d)
  }

  ghost predicate HistoryMoves(before: Dashboard, after: Dashboard) {
    && (before.firstPublishedAt.Some? ==> after.firstPublishedAt == before.firstPublishedAt)
    && (before.lastPublishedAt.Some? ==>
          after.lastPublishedAt.Some? && before.lastPublishedAt.value <= after.lastPublishedAt.value)
  }

  lemma HistoryStep(w: World, op: Op, d: DashboardId)
    requires Changes(w, op) && d in w.dashboards
    ensures d in Effect(w, op).dashboards
    ensures HistoryMoves(w.dashboards[d], Effect(w, op).dashboards[d])
    ensures Effect(w, op).dashboards[d].version == w.dashboards[d].version + if op.Publish? && op.dashboard == d then 1 else 0
  {
    if !Rewrites(op, d) { OtherDashboards(w, op, d); }
  }

  /** The publication version counts publications, the first publication time is set once, and the
      last one never goes back. */
  lemma {:induction false} PublicationHistory(w: World, ops: seq<Op>, d: DashboardId)
    requires d in w.dashboards
    ensures d in Run(w, ops).dashboards
    ensures Run(w, ops).dashboards[d].version == w.dashboards[d].version + Publications(w, ops, d)
    ensures HistoryMoves(w.dashboards[d], Run(w, ops).dashboards[d])
    decreases |ops|
  {
    if ops != [] {
      if Changes(w, ops[0]) { HistoryStep(w, ops[0], d); }
      PublicationHistory(Apply(w, ops[0]), ops[1..], d);
    }
  }

  /** In every reachable state a dashboard is published exactly when a locked revision of its own is
      pinned, its revisions are numbered exactly 1..n without gaps or repeats, and `latest` is n. */
  lemma LifecycleStaysConsistent(w: World, ops: seq<Op>, d: DashboardId)
    requires Init(w) && d in Run(w, ops).dashboards
    ensures var w' := Run(w, ops); var row := w'.dashboards[d];
            && (row.state == PUBLISHED <==> row.published.Some?)
            && (row.published.Some? ==>
                  && row.published.value in w'.revisions
                  && w'.revisions[row.published.value].dashboard == d && w'.revisions[row.published.value].locked)
            && (row.latest.None? ==> forall r :: r in w'.revisions ==> w'.revisions[r].dashboard != d)
            && (row.latest.Some? ==>
                  && row.latest.value in w'.revisions && w'.revisions[row.latest.value].dashboard == d
                  && var n := w'.revisions[row.latest.value].number;
                     && (forall k: nat :: 1 <= k <= n ==> Numbered(w'.revisions, d, k))
                     && (forall r :: r in w'.revisions && w'.revisions[r].dashboard == d ==> 1 <= w'.revisions[r].number <= n))
            && NumbersUnique(w'.revisions)
  {
    InitInv(w);
    RunKeepsInv(w, ops);
    var w' := Run(w, ops);
    assert DashboardOk(w'.users, w'.revisions, d, w'.dashboards[d]);
    assert LatestOk(w'.revisions, d, w'.dashboards[d].latest);
    assert forall r :: r in w'.revisions ==> NumberInRange(w'.dashboards, w'.revisions, r);
  }

  /** No viewer has seen a version that was never published. */
  lemma SeenWithinPublished(w: World, ops: seq<Op>, k: (UserId, DashboardId))
    requires Init(w) && k in Run(w, ops).viewerStates
    ensures k.1 in Run(w, ops).dashboards
    ensures Run(w, ops).viewerStates[k].seenVersion <= Run(w, ops).dashboards[k.1].version
  {
    InitInv(w);
    RunKeepsInv(w, ops);
  }

  ghost predicate SeenMoves(before: ViewerState, after: ViewerState) {
    before.seenVersion <= after.seenVersion && before.lastViewedAt <= after.lastViewedAt
  }

  lemma SeenStep(w: World, op: Op, k: (UserId, DashboardId))
    requires Changes(w, op) && k in w.viewerStates
    ensures k in Effect(w, op).viewerStates && SeenMoves(w.viewerStates[k], Effect(w, op).viewerStates[k])
  {
    if !op.IssueView? { TableFrame(w, op); }
  }

  /** What a viewer has seen never falls. */
  lemma {:induction false} SeenNeverFalls(w: World, ops: seq<Op>, k: (UserId, DashboardId))
    requires k in w.viewerStates
    ensures k in Run(w, ops).viewerStates && SeenMoves(w.viewerStates[k], Run(w, ops).viewerStates[k])
    decreases |ops|
  {
    if ops != [] {
      if Changes(w, ops[0]) { SeenStep(w, ops[0], k); }
      SeenNeverFalls(Apply(w, ops[0]), ops[1..], k);
    }
  }
}
