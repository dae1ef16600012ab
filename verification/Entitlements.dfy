/** Dashboards, grants, access requests, ownership transfers, publications and bearer credentials:
    every service call of access.py, enhancements.py, authentication.py and authorization.py as one
    atomic step over the rows it locks.

    A call that raises, or that finds its work already done, leaves the rows as they are; so a step is
    given by when it changes something (`Changes`) and what it then writes (`Effect`). */
module Entitlements {
  import opened Wrappers

  type UserId = nat
  type DashboardId = nat
  type GrantId = nat
  type RequestId = nat
  type TransferId = nat
  type RevisionId = nat
  type AuthorizationId = nat
  type Time = int

  datatype User = User(active: bool, administrator: bool, authVersion: nat)

  datatype State = DRAFT | PUBLISHED | UNPUBLISHED | ARCHIVED | DELETED

  datatype Freshness = Freshness(seconds: int, confirmedAt: Time, staleAfter: Time)

  datatype Dashboard = Dashboard(
    owner: UserId,
    state: State,
    latest: Option<RevisionId>,
    published: Option<RevisionId>,
    firstPublishedAt: Option<Time>,
    version: nat,
    lastPublishedAt: Option<Time>,
    freshness: Option<Freshness>,
    head: Option<TransferId>)

  datatype Revision = Revision(dashboard: DashboardId, number: nat, createdBy: UserId, locked: bool)

  datatype Grant = Grant(dashboard: DashboardId, viewer: UserId, createdBy: UserId, revokedAt: Option<Time>, revokedBy: Option<UserId>)

  datatype Status = PENDING | APPROVED | DENIED | CANCELLED

  datatype Request = Request(
    dashboard: DashboardId, requester: UserId, status: Status, requestedAt: Time,
    resolvedAt: Option<Time>, resolvedBy: Option<UserId>)

  /** DashboardOwnershipTransfer: an append-only marker. */
  datatype Transfer = Transfer(dashboard: DashboardId, from: UserId, to: UserId, previous: Option<TransferId>)

  datatype Audience = PREVIEW | VIEWER

  /** RenderAuthorization: what a bearer credential pins. */
  datatype Authorization = Authorization(
    audience: Audience, viewer: UserId, viewerVersion: nat, dashboard: DashboardId, revision: RevisionId,
    grant: Option<GrantId>, epoch: Option<TransferId>, version: Option<nat>,
    createdAt: Time, expiresAt: Time, revokedAt: Option<Time>, captured: bool)

  datatype ViewerState = ViewerState(lastViewedAt: Time, seenVersion: nat)

  datatype World = World(
    now: Time,
    users: map<UserId, User>,
    dashboards: map<DashboardId, Dashboard>,
    revisions: map<RevisionId, Revision>,
    grants: map<GrantId, Grant>,
    requests: map<RequestId, Request>,
    transfers: map<TransferId, Transfer>,
    authorizations: map<AuthorizationId, Authorization>,
    viewerStates: map<(UserId, DashboardId), ViewerState>)

  const MAX_FRESHNESS_INTERVAL_SECONDS: int := 31_536_000

  /** `expected_transfer_id`: left out, or the head (possibly none) a confirmation was shown. */
  datatype Expected = Unset | Bound(head: Option<TransferId>)

  datatype Op =
    | Tick(to: Time)
    | ProvisionUser(id: UserId, administrator: bool)
    | DisableUser(actor: UserId, target: UserId)
    | EnableUser(actor: UserId, target: UserId)
    | ResetPassword(actor: UserId, target: UserId)
    | CreateDashboard(owner: UserId, id: DashboardId)
    | CreateRevision(dashboard: DashboardId, actor: UserId, id: RevisionId)
    | Publish(dashboard: DashboardId, actor: UserId, revision: RevisionId, at: Time, interval: Option<int>)
    | Unpublish(dashboard: DashboardId, actor: UserId)
    | ConfirmFreshness(dashboard: DashboardId, actor: UserId, at: Time, interval: Option<int>)
    | GrantViewer(dashboard: DashboardId, actor: UserId, target: UserId, id: GrantId)
    | RevokeViewer(dashboard: DashboardId, grant: GrantId, actor: UserId)
    | RequestAccess(dashboard: DashboardId, requester: UserId, at: Time, id: RequestId)
    | ResolveRequest(dashboard: DashboardId, request: RequestId, actor: UserId, resolution: Status, at: Time, id: GrantId)
    | TransferOwnership(dashboard: DashboardId, actor: UserId, incoming: UserId, expected: Expected, at: Time, id: TransferId)
    | IssuePreview(dashboard: DashboardId, revision: RevisionId, viewer: UserId, expiresAt: Time, id: AuthorizationId)
    | IssueView(dashboard: DashboardId, viewer: UserId, expiresAt: Time, id: AuthorizationId)
    | RevokeAuthorization(authorization: AuthorizationId, at: Time)
    | Archive(dashboard: DashboardId)
    | Restore(dashboard: DashboardId)
    | Delete(dashboard: DashboardId)

  // Queries

  predicate IsActive(users: map<UserId, User>, u: UserId) {
    u in users && users[u].active
  }

  predicate IsAdministrator(users: map<UserId, User>, u: UserId) {
    IsActive(users, u) && users[u].administrator
  }

  /** `_lock_current_owner` / `_lock_active_owner`. */
  predicate OwnedBy(w: World, d: DashboardId, actor: UserId) {
    d in w.dashboards && IsActive(w.users, actor) && w.dashboards[d].owner == actor
  }

  predicate AcceptsRevisions(s: State) {
    s == DRAFT || s == PUBLISHED || s == UNPUBLISHED
  }

  predicate OpenGrant(grants: map<GrantId, Grant>, g: GrantId, d: DashboardId, v: UserId) {
    g in grants && grants[g].dashboard == d && grants[g].viewer == v && grants[g].revokedAt.None?
  }

  predicate HasOpenGrant(grants: map<GrantId, Grant>, d: DashboardId, v: UserId) {
    exists g :: g in grants && OpenGrant(grants, g, d, v)
  }

  predicate RequestOf(requests: map<RequestId, Request>, r: RequestId, d: DashboardId, u: UserId) {
    r in requests && requests[r].dashboard == d && requests[r].requester == u
  }

  predicate HasRequest(requests: map<RequestId, Request>, d: DashboardId, u: UserId) {
    exists r :: r in requests && RequestOf(requests, r, d, u)
  }

  predicate FreshnessAllowed(interval: Option<int>) {
    interval.Some? ==> 1 <= interval.value <= MAX_FRESHNESS_INTERVAL_SECONDS
  }

  /** `_apply_freshness`. */
  function ApplyFreshness(d: Dashboard, interval: Option<int>, at: Time): Dashboard {
    d.(freshness := if interval.Some? then Some(Freshness(interval.value, at, at + interval.value)) else None)
  }

  /** `user_can_view_published` with the grant already fetched. */
  predicate CanViewPublished(w: World, d: DashboardId, v: UserId, grant: Option<GrantId>)
    requires d in w.dashboards && v in w.users
  {
    && w.users[v].active
    && w.dashboards[d].state == PUBLISHED && w.dashboards[d].published.Some?
    && (w.dashboards[d].owner == v || (grant.Some? && OpenGrant(w.grants, grant.value, d, v)))
  }

  /** `_authorization_can_source_open`. */
  predicate CanSourceOpen(w: World, x: Authorization)
    requires x.dashboard in w.dashboards && x.viewer in w.users
  {
    var d, u := w.dashboards[x.dashboard], w.users[x.viewer];
    && x.audience == VIEWER && x.version.Some? && x.version.value > 0 && x.revokedAt.None?
    && u.active && u.authVersion == x.viewerVersion
    && d.state == PUBLISHED && d.published == Some(x.revision) && d.version == x.version.value
    && (if d.owner == x.viewer then x.grant.None? && x.epoch == d.head
        else x.epoch.None? && x.grant.Some? && OpenGrant(w.grants, x.grant.value, x.dashboard, x.viewer))
  }

  /** `_authorization_is_current` for the authorization `a` at the present time. */
  predicate Current(w: World, a: AuthorizationId) {
    && a in w.authorizations
    && var x := w.authorizations[a];
       && x.viewer in w.users && x.dashboard in w.dashboards && x.revision in w.revisions
       && var d, u, v := w.dashboards[x.dashboard], w.users[x.viewer], w.revisions[x.revision];
          && x.revokedAt.None? && w.now < x.expiresAt && u.active && u.authVersion == x.viewerVersion
          && v.locked && v.dashboard == x.dashboard
          && match x.audience
             case PREVIEW =>
               && x.grant.None? && d.owner == x.viewer && x.epoch == d.head
               && d.state != ARCHIVED && d.state != DELETED
             case VIEWER =>
               && d.published == Some(x.revision) && Some(d.version) == x.version
               && (if d.owner == x.viewer then x.grant.None? && x.epoch == d.head
                   else x.grant.Some? && x.epoch.None? && CanViewPublished(w, x.dashboard, x.viewer, x.grant))
  }

  /** The grant bound by `issue_published_view`. */
  ghost predicate BindsGrant(w: World, d: DashboardId, v: UserId, grant: Option<GrantId>)
    requires d in w.dashboards
  {
    if w.dashboards[d].owner == v || !HasOpenGrant(w.grants, d, v) then grant.None?
    else grant.Some? && OpenGrant(w.grants, grant.value, d, v)
  }

  ghost function BoundGrant(w: World, d: DashboardId, v: UserId): (grant: Option<GrantId>)
    requires d in w.dashboards
    ensures BindsGrant(w, d, v, grant)
  {
    if w.dashboards[d].owner == v || !HasOpenGrant(w.grants, d, v) then None
    else var g :| g in w.grants && OpenGrant(w.grants, g, d, v); Some(g)
  }

  // When a call changes something

  ghost predicate Changes(w: World, op: Op) {
    match op
    case Tick(to) => w.now <= to
    case ProvisionUser(id, _) => id !in w.users
    case DisableUser(actor, target) =>
      IsAdministrator(w.users, actor) && target != actor && IsActive(w.users, target)
    case EnableUser(actor, target) =>
      IsAdministrator(w.users, actor) && target in w.users && !w.users[target].active
    case ResetPassword(actor, target) => IsAdministrator(w.users, actor) && target in w.users
    case CreateDashboard(owner, id) => IsActive(w.users, owner) && id !in w.dashboards
    case CreateRevision(d, actor, id) =>
      OwnedBy(w, d, actor) && AcceptsRevisions(w.dashboards[d].state) && id !in w.revisions
    case Publish(d, actor, revision, at, interval) =>
      && FreshnessAllowed(interval) && OwnedBy(w, d, actor) && AcceptsRevisions(w.dashboards[d].state)
      && revision in w.revisions && w.revisions[revision].dashboard == d && w.revisions[revision].locked
      && (w.dashboards[d].lastPublishedAt.Some? ==> w.dashboards[d].lastPublishedAt.value <= at)
    case Unpublish(d, actor) =>
      OwnedBy(w, d, actor) && w.dashboards[d].state == PUBLISHED && w.dashboards[d].published.Some?
    case ConfirmFreshness(d, actor, _, interval) =>
      FreshnessAllowed(interval) && OwnedBy(w, d, actor) && w.dashboards[d].state == PUBLISHED
    case GrantViewer(d, actor, target, id) =>
      && OwnedBy(w, d, actor) && w.dashboards[d].state != DELETED && w.dashboards[d].state != ARCHIVED
      && IsActive(w.users, target) && target != actor && !HasOpenGrant(w.grants, d, target) && id !in w.grants
    case RevokeViewer(d, g, actor) =>
      && OwnedBy(w, d, actor) && w.dashboards[d].state != DELETED
      && g in w.grants && w.grants[g].dashboard == d && w.grants[g].revokedAt.None?
    case RequestAccess(d, u, _, id) =>
      && d in w.dashboards && w.dashboards[d].state == PUBLISHED && IsActive(w.users, w.dashboards[d].owner)
      && IsActive(w.users, u) && w.dashboards[d].owner != u && !HasOpenGrant(w.grants, d, u)
      && (if HasRequest(w.requests, d, u)
          then RequestOf(w.requests, id, d, u) && w.requests[id].status != PENDING
          else id !in w.requests)
    case ResolveRequest(d, r, actor, resolution, _, id) =>
      && resolution != PENDING
      && d in w.dashboards && r in w.requests && w.requests[r].dashboard == d && IsActive(w.users, actor)
      && actor == (if resolution == CANCELLED then w.requests[r].requester else w.dashboards[d].owner)
      && w.requests[r].status == PENDING
      && (resolution == APPROVED ==>
            && (w.dashboards[d].state == PUBLISHED || w.dashboards[d].state == UNPUBLISHED)
            && IsActive(w.users, w.dashboards[d].owner) && IsActive(w.users, w.requests[r].requester)
            && id !in w.grants)
    case TransferOwnership(d, actor, incoming, expected, _, id) =>
      && d in w.dashboards && AcceptsRevisions(w.dashboards[d].state)
      && (expected.Bound? ==> w.dashboards[d].head == expected.head)
      && IsActive(w.users, actor) && IsActive(w.users, incoming)
      && actor == w.dashboards[d].owner && incoming != actor && id !in w.transfers
    case IssuePreview(d, revision, v, _, id) =>
      && OwnedBy(w, d, v) && w.dashboards[d].state != ARCHIVED && w.dashboards[d].state != DELETED
      && revision in w.revisions && w.revisions[revision].dashboard == d && w.revisions[revision].locked
      && id !in w.authorizations
    case IssueView(d, v, _, id) =>
      && d in w.dashboards && w.dashboards[d].state == PUBLISHED && w.dashboards[d].published.Some?
      && IsActive(w.users, v) && CanViewPublished(w, d, v, BoundGrant(w, d, v)) && id !in w.authorizations
      && CanSourceOpen(w, NewView(w, d, v, op.expiresAt))
    case RevokeAuthorization(a, _) => a in w.authorizations && w.authorizations[a].revokedAt.None?
    case Archive(d) => d in w.dashboards && AcceptsRevisions(w.dashboards[d].state)
    case Restore(d) => d in w.dashboards && w.dashboards[d].state == ARCHIVED
    case Delete(d) => d in w.dashboards && w.dashboards[d].state != DELETED
  }

  // What it writes

  ghost function NewPreview(w: World, d: DashboardId, revision: RevisionId, v: UserId, expiresAt: Time): Authorization
    requires d in w.dashboards && v in w.users
  {
    Authorization(PREVIEW, v, w.users[v].authVersion, d, revision, None, w.dashboards[d].head, None, w.now, expiresAt, None, false)
  }

  ghost function NewView(w: World, d: DashboardId, v: UserId, expiresAt: Time): Authorization
    requires d in w.dashboards && v in w.users && w.dashboards[d].published.Some?
  {
    var grant := BoundGrant(w, d, v);
    Authorization(VIEWER, v, w.users[v].authVersion, d, w.dashboards[d].published.value,
                  grant, if grant.None? then w.dashboards[d].head else None,
                  Some(w.dashboards[d].version), w.now, expiresAt, None, false)
  }

  /** `_advance_viewer_state`: neither the time nor the version moves back. */
  function AdvanceViewerState(states: map<(UserId, DashboardId), ViewerState>, u: UserId, d: DashboardId, at: Time, version: nat)
    : map<(UserId, DashboardId), ViewerState>
  {
    if (u, d) !in states then states[(u, d) := ViewerState(at, version)]
    else
      var s := states[(u, d)];
      states[(u, d) := ViewerState(if s.lastViewedAt < at then at else s.lastViewedAt,
                                   if s.seenVersion < version then version else s.seenVersion)]
  }

  function SetDashboard(w: World, d: DashboardId, row: Dashboard): World {
    w.(dashboards := w.dashboards[d := row])
  }

  function NextNumber(w: World, d: DashboardId): nat
    requires d in w.dashboards
  {
    var latest := w.dashboards[d].latest;
    if latest.Some? && latest.value in w.revisions then w.revisions[latest.value].number + 1 else 1
  }

  function PublishedRow(row: Dashboard, revision: RevisionId, at: Time, interval: Option<int>): Dashboard {
    ApplyFreshness(row.(state := PUBLISHED, published := Some(revision),
                        firstPublishedAt := if row.firstPublishedAt.None? then Some(at) else row.firstPublishedAt,
                        version := row.version + 1, lastPublishedAt := Some(at)), interval, at)
  }

  /** The request row written by `request_dashboard_access`: new, or reopened strictly later. */
  function RequestedRow(requests: map<RequestId, Request>, id: RequestId, d: DashboardId, u: UserId, at: Time): Request {
    if id in requests
    then requests[id].(status := PENDING, requestedAt := if requests[id].requestedAt < at then at else requests[id].requestedAt + 1,
                       resolvedAt := None, resolvedBy := None)
    else Request(d, u, PENDING, at, None, None)
  }

  /** A transfer closes the open grant of the incoming owner. */
  function CloseGrants(grants: map<GrantId, Grant>, d: DashboardId, v: UserId, at: Time, actor: UserId): map<GrantId, Grant> {
    map g | g in grants :: if OpenGrant(grants, g, d, v) then grants[g].(revokedAt := Some(at), revokedBy := Some(actor)) else grants[g]
  }

  /** A transfer approves the pending request of the incoming owner. */
  function ApprovePending(requests: map<RequestId, Request>, d: DashboardId, u: UserId, at: Time, actor: UserId): map<RequestId, Request> {
    map r | r in requests :: if RequestOf(requests, r, d, u) && requests[r].status == PENDING
                             then requests[r].(status := APPROVED, resolvedAt := Some(at), resolvedBy := Some(actor)) else requests[r]
  }

  ghost function Effect(w: World, op: Op): World
    requires Changes(w, op)
  {
    match op
    case Tick(to) => w.(now := to)
    case ProvisionUser(id, administrator) => w.(users := w.users[id := User(true, administrator, 1)])
    case DisableUser(_, u) => w.(users := w.users[u := w.users[u].(active := false, authVersion := w.users[u].authVersion + 1)])
    case EnableUser(_, u) => w.(users := w.users[u := w.users[u].(active := true, authVersion := w.users[u].authVersion + 1)])
    case ResetPassword(_, u) => w.(users := w.users[u := w.users[u].(authVersion := w.users[u].authVersion + 1)])
    case CreateDashboard(owner, id) => SetDashboard(w, id, Dashboard(owner, DRAFT, None, None, None, 0, None, None, None))
    case CreateRevision(d, actor, id) =>
      SetDashboard(w, d, w.dashboards[d].(latest := Some(id))).(
        revisions := w.revisions[id := Revision(d, NextNumber(w, d), actor, true)])
    case Publish(d, _, revision, at, interval) => SetDashboard(w, d, PublishedRow(w.dashboards[d], revision, at, interval))
    case Unpublish(d, _) => SetDashboard(w, d, w.dashboards[d].(state := UNPUBLISHED, published := None))
    case ConfirmFreshness(d, _, at, interval) => SetDashboard(w, d, ApplyFreshness(w.dashboards[d], interval, at))
    case GrantViewer(d, actor, target, id) => w.(grants := w.grants[id := Grant(d, target, actor, None, None)])
    case RevokeViewer(_, g, actor) =>
      w.(grants := w.grants[g := w.grants[g].(revokedAt := Some(w.now), revokedBy := Some(actor))])
    case RequestAccess(d, u, at, id) => w.(requests := w.requests[id := RequestedRow(w.requests, id, d, u, at)])
    case ResolveRequest(d, r, actor, resolution, at, id) =>
      w.(requests := w.requests[r := w.requests[r].(status := resolution, resolvedAt := Some(at), resolvedBy := Some(actor))],
         grants := if resolution == APPROVED && !HasOpenGrant(w.grants, d, w.requests[r].requester)
                   then w.grants[id := Grant(d, w.requests[r].requester, actor, None, None)] else w.grants)
    case TransferOwnership(d, actor, incoming, _, at, id) =>
      SetDashboard(w, d, w.dashboards[d].(owner := incoming, head := Some(id))).(
        transfers := w.transfers[id := Transfer(d, actor, incoming, w.dashboards[d].head)],
        grants := CloseGrants(w.grants, d, incoming, at, actor),
        requests := ApprovePending(w.requests, d, incoming, at, actor))
    case IssuePreview(d, revision, v, expiresAt, id) =>
      w.(authorizations := w.authorizations[id := NewPreview(w, d, revision, v, expiresAt)])
    case IssueView(d, v, expiresAt, id) =>
      w.(authorizations := w.authorizations[id := NewView(w, d, v, expiresAt).(captured := true)],
         viewerStates := AdvanceViewerState(w.viewerStates, v, d, w.now, w.dashboards[d].version))
    case RevokeAuthorization(a, at) =>
      w.(authorizations := w.authorizations[a := w.authorizations[a].(revokedAt := Some(at))])
    case Archive(d) => SetDashboard(w, d, w.dashboards[d].(state := ARCHIVED, published := None))
    case Restore(d) =>
      SetDashboard(w, d, w.dashboards[d].(state := if w.dashboards[d].firstPublishedAt.Some? then UNPUBLISHED else DRAFT))
    case Delete(d) => SetDashboard(w, d, w.dashboards[d].(state := DELETED, published := None))
  }

  ghost function Apply(w: World, op: Op): World {
    if Changes(w, op) then Effect(w, op) else w
  }

  ghost function Run(w: World, ops: seq<Op>): World
    decreases |ops|
  {
    if ops == [] then w else Run(Apply(w, ops[0]), ops[1..])
  }

  lemma {:induction false} RunAppend(w: World, ops: seq<Op>, op: Op)
    ensures Run(w, ops + [op]) == Apply(Run(w, ops), op)
    decreases |ops|
  {
    if ops == [] {
      assert [op][1..] == [];
    } else {
      RunAppend(Apply(w, ops[0]), ops[1..], op);
      assert (ops + [op])[1..] == ops[1..] + [op];
    }
  }

  lemma {:induction false} RunConcat(w: World, first: seq<Op>, second: seq<Op>)
    ensures Run(w, first + second) == Run(Run(w, first), second)
    decreases |first|
  {
    if first == [] {
      assert first + second == second;
    } else {
      assert (first + second)[1..] == first[1..] + second;
      RunConcat(Apply(w, first[0]), first[1..], second);
    }
  }

  ghost predicate Init(w: World) {
    && w.users == map[] && w.dashboards == map[] && w.revisions == map[] && w.grants == map[] && w.requests == map[]
    && w.transfers == map[] && w.authorizations == map[] && w.viewerStates == map[]
  }
}
