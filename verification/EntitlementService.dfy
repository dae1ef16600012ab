/** The service functions of access.py, enhancements.py, authentication.py, authorization.py and the
    commit of services.py, as methods that update the rows in place, each against its step. */
module EntitlementService {
  import opened Wrappers
  import opened Entitlements
  import opened EntitlementInvariant
  import opened Credentials
  import opened EntitlementRuns
  import opened CallEffects
  import opened AccessRights

  /** `Done` when rows changed, `Unchanged` for an idempotent repeat, `Denied` for a raised error. */
  datatype Outcome = Done | Unchanged | Denied

  class Portal {
    var now: Time
    var users: map<UserId, User>
    var dashboards: map<DashboardId, Dashboard>
    var revisions: map<RevisionId, Revision>
    var grants: map<GrantId, Grant>
    var requests: map<RequestId, Request>
    var transfers: map<TransferId, Transfer>
    var authorizations: map<AuthorizationId, Authorization>
    var viewerStates: map<(UserId, DashboardId), ViewerState>

    /** The empty tables this portal began with, and every call made since. */
    ghost var start: World
    ghost var calls: seq<Op>

    ghost function W(): World
      reads this
    {
      World(now, users, dashboards, revisions, grants, requests, transfers, authorizations, viewerStates)
    }

    /** The rows are what the recorded calls make of the empty tables. */
    ghost predicate Valid()
      reads this
    {
      Init(start) && W() == Run(start, calls)
    }

    constructor (at: Time)
      ensures Valid() && calls == [] && now == at
    {
      now, users, dashboards, revisions := at, map[], map[], map[];
      grants, requests, transfers, authorizations, viewerStates := map[], map[], map[], map[], map[];
      start := World(at, map[], map[], map[], map[], map[], map[], map[], map[]);
      calls := [];
    }

    lemma Invariant()
      requires Valid()
      ensures Inv(W())
    {
      InitInv(start);
      RunKeepsInv(start, calls);
    }

    lemma TablesOk()
      requires Valid()
      ensures GrantsOk(dashboards, grants) && RequestsOk(dashboards, requests)
    {
      Invariant();
    }

    lemma LatestPoints(d: DashboardId)
      requires Valid() && d in dashboards
      ensures dashboards[d].latest.Some? ==> dashboards[d].latest.value in revisions
    {
      Invariant();
      assert LatestOk(revisions, d, dashboards[d].latest);
    }

    /** Notes a call that has taken effect. */
    ghost method Record(w: World, op: Op)
      requires Init(start) && w == Run(start, calls) && W() == Apply(w, op)
      modifies this`calls
      ensures Valid() && calls == old(calls) + [op]
    {
      RunAppend(start, calls, op);
      calls := calls + [op];
    }

    // What the calls mean for credentials, at the state they leave behind

    lemma ViewsEnd(w: World, before: seq<Op>, op: Op, d: DashboardId)
      requires Init(start) && w == Run(start, before) && Changes(w, op) && TouchesPublication(op, d) && W() == Effect(w, op)
      ensures forall a :: IsViewOf(W(), a, d) ==> Ended(W(), a)
    {
      TableFrame(w, op);
      forall a | IsViewOf(W(), a, d) ensures Ended(W(), a) { PublicationChangeEndsViews(start, before, op, d, a); }
    }

    lemma AccountCredentialsEnd(w: World, before: seq<Op>, op: Op)
      requires Init(start) && w == Run(start, before) && Changes(w, op) && W() == Effect(w, op)
      requires op.DisableUser? || op.EnableUser? || op.ResetPassword?
      ensures forall a :: HeldBy(W(), a, op.target) ==> Ended(W(), a)
    {
      TableFrame(w, op);
      forall a | HeldBy(W(), a, op.target) ensures Ended(W(), a) { AccountChangeEndsCredentials(start, before, op, a); }
    }

    lemma IssuedAlone(w: World, before: seq<Op>, op: Op)
      requires Init(start) && w == Run(start, before) && Changes(w, op) && W() == Effect(w, op)
      requires op.IssuePreview? || op.IssueView?
      ensures Current(W(), op.id) <==> w.now < op.expiresAt
      ensures forall a :: a != op.id ==> (Current(W(), a) <==> Current(w, a))
      ensures ViewsOk(w.dashboards, w.viewerStates)
    {
      Reached(start, before, op);
      IssuedIsCurrent(w, op);
      forall a | a != op.id ensures Current(W(), a) <==> Current(w, a) { IssuingDisturbsNobody(w, op, a); }
    }

    // access.py

    /** `active_viewer_grant`. */
    method ActiveGrant(d: DashboardId, v: UserId) returns (grant: Option<GrantId>)
      ensures grant.Some? ==> OpenGrant(grants, grant.value, d, v)
      ensures grant.None? ==> !HasOpenGrant(grants, d, v)
    {
      var todo := grants.Keys;
      while todo != {}
        invariant todo <= grants.Keys && forall g :: g in grants && g !in todo ==> !OpenGrant(grants, g, d, v)
        decreases todo
      {
        var g :| g in todo;
        if OpenGrant(grants, g, d, v) { return Some(g); }
        todo := todo - {g};
      }
      return None;
    }

    /** `grant_project_viewer`, with the target already resolved from its SOEID. */
    method GrantProjectViewer(d: DashboardId, actor: UserId, target: UserId, id: GrantId) returns (r: Outcome)
      requires Valid() && id !in grants
      modifies this`grants, this`calls
      ensures Valid() && W() == Apply(old(W()), GrantViewer(d, actor, target, id))
      ensures r == Done <==> Changes(old(W()), GrantViewer(d, actor, target, id))
      ensures r == Done ==> OpenGrant(grants, id, d, target) && grants == old(grants)[id := grants[id]]
    {
      ghost var w := W();
      if !ActorOwns(d, actor) || dashboards[d].state == DELETED { return Denied; }
      if dashboards[d].state == ARCHIVED { return Denied; }
      if target !in users || !users[target].active || target == actor { return Denied; }
      var existing := ActiveGrant(d, target);
      if existing.Some? { return Denied; }
      grants := grants[id := Grant(d, target, actor, None, None)];
      Record(w, GrantViewer(d, actor, target, id));
      return Done;
    }

    /** The three freshness fields say when the dashboard becomes stale, or are cleared together. */
    static predicate IsFresh(row: Dashboard, at: Time, interval: Option<int>) {
      match interval
      case None => row.freshness == None
      case Some(seconds) => row.freshness == Some(Freshness(seconds, at, at + seconds))
    }

    predicate ActorOwns(d: DashboardId, actor: UserId)
      reads this`users, this`dashboards
    {
      d in dashboards && IsActive(users, actor) && dashboards[d].owner == actor
    }

    /** `revoke_project_viewer`. */
    method RevokeProjectViewer(d: DashboardId, g: GrantId, actor: UserId) returns (r: Outcome)
      requires Valid()
      modifies this`grants, this`calls
      ensures Valid() && W() == Apply(old(W()), RevokeViewer(d, g, actor))
      ensures r == Done <==> Changes(old(W()), RevokeViewer(d, g, actor))
      ensures r == Done ==> g in grants && grants[g].revokedAt == Some(now) && grants[g].revokedBy == Some(actor)
      ensures r == Unchanged ==> g in grants && grants[g].dashboard == d && grants[g].revokedAt.Some?
      ensures r == Done ==> g in grants && forall a :: IsViewOf(W(), a, d) && authorizations[a].viewer == grants[g].viewer ==> Ended(W(), a)
    {
      ghost var w := W();
      if !ActorOwns(d, actor) || dashboards[d].state == DELETED { return Denied; }
      if g !in grants || grants[g].dashboard != d { return Denied; }
      if grants[g].revokedAt.Some? { return Unchanged; }
      grants := grants[g := grants[g].(revokedAt := Some(now), revokedBy := Some(actor))];
      Record(w, RevokeViewer(d, g, actor));
      forall a | IsViewOf(W(), a, d) && authorizations[a].viewer == grants[g].viewer ensures Ended(W(), a) {
        RevocationEndsViews(start, old(calls), RevokeViewer(d, g, actor), a);
      }
      return Done;
    }

    // enhancements.py

    method FindRequest(d: DashboardId, u: UserId) returns (found: Option<RequestId>)
      ensures found.Some? ==> RequestOf(requests, found.value, d, u)
      ensures found.None? ==> !HasRequest(requests, d, u)
    {
      var todo := requests.Keys;
      while todo != {}
        invariant todo <= requests.Keys && forall r :: r in requests && r !in todo ==> !RequestOf(requests, r, d, u)
        decreases todo
      {
        var r :| r in todo;
        if RequestOf(requests, r, d, u) { return Some(r); }
        todo := todo - {r};
      }
      return None;
    }

    /** What `request_dashboard_access` checks, and the row it would return. */
    method CheckRequest(d: DashboardId, u: UserId, at: Time, id: RequestId) returns (r: Outcome, row: RequestId)
      requires id !in requests
      ensures r == Done <==> Changes(W(), RequestAccess(d, u, at, row))
      ensures r == Unchanged ==> RequestOf(requests, row, d, u) && requests[row].status == PENDING
    {
      row := id;
      if d !in dashboards || dashboards[d].state != PUBLISHED || !IsActive(users, dashboards[d].owner) { return Denied, row; }
      if !IsActive(users, u) || dashboards[d].owner == u { return Denied, row; }
      var existing := ActiveGrant(d, u);
      if existing.Some? { return Denied, row; }
      var found := FindRequest(d, u);
      if found.Some? { row := found.value; }
      r := if found.Some? && requests[row].status == PENDING then Unchanged else Done;
    }

    /** `request_dashboard_access`: creates, returns or reopens the one row; `row` is that row. */
    method RequestDashboardAccess(d: DashboardId, u: UserId, at: Time, id: RequestId) returns (r: Outcome, row: RequestId)
      requires Valid() && id !in requests
      modifies this`requests, this`calls
      ensures Valid() && W() == Apply(old(W()), RequestAccess(d, u, at, row))
      ensures r == Done <==> Changes(old(W()), RequestAccess(d, u, at, row))
      ensures r == Done ==> row in requests && at <= requests[row].requestedAt
      ensures r != Denied ==> RequestOf(requests, row, d, u) && requests[row].status == PENDING
    {
      ghost var w := W();
      r, row := CheckRequest(d, u, at, id);
      if r != Done { return; }
      WriteRequest(row, d, u, at);
      Record(w, RequestAccess(d, u, at, row));
    }

    method WriteRequest(row: RequestId, d: DashboardId, u: UserId, at: Time)
      modifies this`requests
      ensures requests == old(requests)[row := RequestedRow(old(requests), row, d, u, at)]
      ensures (row in old(requests) ==> RequestOf(old(requests), row, d, u)) ==>
                RequestOf(requests, row, d, u) && requests[row].status == PENDING
    {
      if row !in requests {
        requests := requests[row := Request(d, u, PENDING, at, None, None)];
      } else {
        var previous := requests[row].requestedAt;
        requests := requests[row := requests[row].(status := PENDING,
                                                   requestedAt := if previous < at then at else previous + 1,
                                                   resolvedAt := None, resolvedBy := None)];
      }
    }

    /** What `resolve_dashboard_access_request` checks. */
    method CheckResolution(d: DashboardId, q: RequestId, actor: UserId, resolution: Status, at: Time, id: GrantId) returns (r: Outcome)
      requires id !in grants
      ensures r == Done <==> Changes(W(), ResolveRequest(d, q, actor, resolution, at, id))
    {
      if resolution == PENDING { return Denied; }
      if d !in dashboards || q !in requests || requests[q].dashboard != d || !IsActive(users, actor) { return Denied; }
      var expected := if resolution == CANCELLED then requests[q].requester else dashboards[d].owner;
      if actor != expected { return Denied; }
      if requests[q].status != PENDING { return if requests[q].status == resolution then Unchanged else Denied; }
      if resolution == APPROVED {
        if (dashboards[d].state != PUBLISHED && dashboards[d].state != UNPUBLISHED)
           || !IsActive(users, dashboards[d].owner) || !IsActive(users, requests[q].requester) { return Denied; }
      }
      return Done;
    }

    /** `resolve_dashboard_access_request`. */
    method ResolveDashboardAccessRequest(d: DashboardId, q: RequestId, actor: UserId, resolution: Status, at: Time, id: GrantId)
      returns (r: Outcome)
      requires Valid() && id !in grants
      modifies this`requests, this`grants, this`calls
      ensures Valid() && W() == Apply(old(W()), ResolveRequest(d, q, actor, resolution, at, id))
      ensures r == Done <==> Changes(old(W()), ResolveRequest(d, q, actor, resolution, at, id))
      ensures r == Done ==>
                && q in requests && requests[q].status == resolution
                && requests[q].resolvedBy == Some(actor) && requests[q].resolvedAt == Some(at)
                && (if resolution == APPROVED then HasOpenGrant(grants, d, requests[q].requester) else grants == old(grants))
    {
      ghost var w := W();
      r := CheckResolution(d, q, actor, resolution, at, id);
      if r != Done { return; }
      if resolution == APPROVED { EnsureGrant(d, requests[q].requester, actor, id); }
      requests := requests[q := requests[q].(status := resolution, resolvedAt := Some(at), resolvedBy := Some(actor))];
      Record(w, ResolveRequest(d, q, actor, resolution, at, id));
    }

    method EnsureGrant(d: DashboardId, u: UserId, actor: UserId, id: GrantId)
      modifies this`grants
      ensures grants == if HasOpenGrant(old(grants), d, u) then old(grants)
                        else old(grants)[id := Grant(d, u, actor, None, None)]
      ensures HasOpenGrant(grants, d, u)
    {
      var grant := ActiveGrant(d, u);
      if grant.None? {
        grants := grants[id := Grant(d, u, actor, None, None)];
        assert OpenGrant(grants, id, d, u);
      }
    }

    /** What `transfer_dashboard_ownership` checks. */
    method CheckTransfer(d: DashboardId, actor: UserId, incoming: UserId, expected: Expected, at: Time, id: TransferId) returns (ok: bool)
      requires id !in transfers
      ensures ok <==> Changes(W(), TransferOwnership(d, actor, incoming, expected, at, id))
    {
      if d !in dashboards || !AcceptsRevisions(dashboards[d].state) { return false; }
      if expected.Bound? && dashboards[d].head != expected.head { return false; }
      if !IsActive(users, actor) || !IsActive(users, incoming) || actor != dashboards[d].owner || incoming == actor { return false; }
      return true;
    }

    /** `transfer_dashboard_ownership`. */
    method TransferDashboardOwnership(d: DashboardId, actor: UserId, incoming: UserId, expected: Expected, at: Time, id: TransferId)
      returns (r: Outcome)
      requires Valid() && id !in transfers
      modifies this`grants, this`requests, this`transfers, this`dashboards, this`calls
      ensures Valid() && W() == Apply(old(W()), TransferOwnership(d, actor, incoming, expected, at, id))
      ensures r == Done <==> Changes(old(W()), TransferOwnership(d, actor, incoming, expected, at, id))
      ensures r == Done ==>
                && d in old(dashboards) && d in dashboards && dashboards[d].owner == incoming && dashboards[d].head == Some(id)
                && id in transfers && transfers[id] == Transfer(d, actor, incoming, old(dashboards)[d].head)
                && !HasOpenGrant(grants, d, incoming)
                && (forall q :: RequestOf(old(requests), q, d, incoming) && old(requests)[q].status == PENDING ==>
                      q in requests && requests[q].status == APPROVED && requests[q].resolvedBy == Some(actor))
      ensures r == Done ==> forall a :: IsOwnersOf(W(), a, d) ==> Ended(W(), a)
    {
      ghost var w := W();
      var ok := CheckTransfer(d, actor, incoming, expected, at, id);
      if !ok { return Denied; }
      TablesOk();
      RevokeIncomingGrant(d, incoming, at, actor);
      ApproveIncomingRequest(d, incoming, at, actor);
      transfers := transfers[id := Transfer(d, actor, incoming, dashboards[d].head)];
      dashboards := dashboards[d := dashboards[d].(owner := incoming, head := Some(id))];
      Record(w, TransferOwnership(d, actor, incoming, expected, at, id));
      TransferSays(w, TransferOwnership(d, actor, incoming, expected, at, id));
      forall a | IsOwnersOf(W(), a, d) ensures Ended(W(), a) {
        TransferEndsOwnerCredentials(start, old(calls), TransferOwnership(d, actor, incoming, expected, at, id), a);
      }
      return Done;
    }

    method RevokeIncomingGrant(d: DashboardId, incoming: UserId, at: Time, actor: UserId)
      requires GrantsOk(dashboards, grants)
      modifies this`grants
      ensures grants == CloseGrants(old(grants), d, incoming, at, actor)
    {
      var open := ActiveGrant(d, incoming);
      if open.Some? {
        var g := open.value;
        assert forall h :: OpenGrant(grants, h, d, incoming) ==> h == g;
        grants := grants[g := grants[g].(revokedAt := Some(at), revokedBy := Some(actor))];
      }
    }

    method ApproveIncomingRequest(d: DashboardId, incoming: UserId, at: Time, actor: UserId)
      requires RequestsOk(dashboards, requests)
      modifies this`requests
      ensures requests == ApprovePending(old(requests), d, incoming, at, actor)
    {
      var found := FindRequest(d, incoming);
      if found.Some? && requests[found.value].status == PENDING {
        var q := found.value;
        assert forall p :: RequestOf(requests, p, d, incoming) ==> p == q;
        requests := requests[q := requests[q].(status := APPROVED, resolvedAt := Some(at), resolvedBy := Some(actor))];
      } else if found.Some? {
        assert forall p :: RequestOf(requests, p, d, incoming) ==> p == found.value;
      }
    }

    /** What `publish_dashboard_revision` checks. */
    method CheckPublication(d: DashboardId, actor: UserId, revision: RevisionId, at: Time, interval: Option<int>) returns (ok: bool)
      ensures ok <==> Changes(W(), Publish(d, actor, revision, at, interval))
    {
      if interval.Some? && !(1 <= interval.value <= MAX_FRESHNESS_INTERVAL_SECONDS) { return false; }
      if !ActorOwns(d, actor) || !AcceptsRevisions(dashboards[d].state) { return false; }
      if revision !in revisions || revisions[revision].dashboard != d || !revisions[revision].locked { return false; }
      var last := dashboards[d].lastPublishedAt;
      return last.None? || last.value <= at;
    }

    /** `publish_dashboard_revision`, and `rollback_dashboard_by_republish` with an older revision. */
    method PublishDashboardRevision(d: DashboardId, actor: UserId, revision: RevisionId, at: Time, interval: Option<int>)
      returns (r: Outcome)
      requires Valid()
      modifies this`dashboards, this`calls
      ensures Valid() && W() == Apply(old(W()), Publish(d, actor, revision, at, interval))
      ensures r == Done <==> Changes(old(W()), Publish(d, actor, revision, at, interval))
      ensures r == Done ==>
                && d in dashboards && dashboards[d].state == PUBLISHED && dashboards[d].published == Some(revision)
                && dashboards[d].lastPublishedAt == Some(at) && IsFresh(dashboards[d], at, interval)
      ensures r == Done ==> forall a :: IsViewOf(W(), a, d) ==> Ended(W(), a)
      ensures d in dashboards ==> dashboards[d].version == Publications(start, calls, d)
    {
      ghost var w := W();
      var ok := CheckPublication(d, actor, revision, at, interval);
      if !ok {
        if d in dashboards { VersionCountsPublications(start, calls, d); }
        return Denied;
      }
      var row := StampPublication(dashboards[d], revision, at, interval);
      dashboards := dashboards[d := row];
      Record(w, Publish(d, actor, revision, at, interval));
      ViewsEnd(w, old(calls), Publish(d, actor, revision, at, interval), d);
      VersionCountsPublications(start, calls, d);
      return Done;
    }

    method StampPublication(dashboard: Dashboard, revision: RevisionId, at: Time, interval: Option<int>) returns (row: Dashboard)
      ensures row == PublishedRow(dashboard, revision, at, interval)
    {
      var firstPublication := dashboard.firstPublishedAt.None?;
      row := dashboard.(state := PUBLISHED, published := Some(revision));
      if firstPublication { row := row.(firstPublishedAt := Some(at)); }
      row := row.(version := row.version + 1, lastPublishedAt := Some(at));
      row := ApplyFreshness(row, interval, at);
    }

    /** `unpublish_dashboard`. */
    method UnpublishDashboard(d: DashboardId, actor: UserId) returns (r: Outcome)
      requires Valid()
      modifies this`dashboards, this`calls
      ensures Valid() && W() == Apply(old(W()), Unpublish(d, actor))
      ensures r == Done <==> Changes(old(W()), Unpublish(d, actor))
      ensures r == Done ==> d in dashboards && dashboards[d].state == UNPUBLISHED && dashboards[d].published == None
      ensures r == Done ==> forall a :: IsViewOf(W(), a, d) ==> Ended(W(), a)
    {
      ghost var w := W();
      if !ActorOwns(d, actor) || dashboards[d].state != PUBLISHED || dashboards[d].published.None? { return Denied; }
      dashboards := dashboards[d := dashboards[d].(state := UNPUBLISHED, published := None)];
      Record(w, Unpublish(d, actor));
      ViewsEnd(w, old(calls), Unpublish(d, actor), d);
      return Done;
    }

    /** `confirm_dashboard_freshness`. */
    method ConfirmDashboardFreshness(d: DashboardId, actor: UserId, at: Time, interval: Option<int>) returns (r: Outcome)
      requires Valid()
      modifies this`dashboards, this`calls
      ensures Valid() && W() == Apply(old(W()), ConfirmFreshness(d, actor, at, interval))
      ensures r == Done <==> Changes(old(W()), ConfirmFreshness(d, actor, at, interval))
      ensures r == Done ==> d in dashboards && IsFresh(dashboards[d], at, interval)
      ensures Alike(old(W()), W()) && forall a :: Current(W(), a) <==> Current(old(W()), a)
    {
      ghost var w := W();
      if interval.Some? && !(1 <= interval.value <= MAX_FRESHNESS_INTERVAL_SECONDS) { return Denied; }
      if !ActorOwns(d, actor) || dashboards[d].state != PUBLISHED { return Denied; }
      dashboards := dashboards[d := ApplyFreshness(dashboards[d], interval, at)];
      Record(w, ConfirmFreshness(d, actor, at, interval));
      assert Alike(w, W());
      forall a ensures Current(W(), a) <==> Current(w, a) { AlikeCurrent(w, W(), a); }
      return Done;
    }

    // services.py: the dashboard side of `_commit_revision_metadata`

    method NumberAfterLatest(d: DashboardId) returns (n: nat)
      requires Valid() && d in dashboards
      ensures n == NextNumber(W(), d)
    {
      n := 1;
      var latest := dashboards[d].latest;
      LatestPoints(d);
      if latest.Some? { n := revisions[latest.value].number + 1; }
    }

    method CommitRevision(d: DashboardId, actor: UserId, id: RevisionId) returns (r: Outcome)
      requires Valid() && id !in revisions
      modifies this`dashboards, this`revisions, this`calls
      ensures Valid() && W() == Apply(old(W()), CreateRevision(d, actor, id))
      ensures r == Done <==> Changes(old(W()), CreateRevision(d, actor, id))
      ensures r == Done ==>
                && d in dashboards && dashboards[d].latest == Some(id)
                && id in revisions && revisions[id].dashboard == d && revisions[id].createdBy == actor && revisions[id].locked
    {
      ghost var w := W();
      if d !in dashboards || dashboards[d].owner != actor { return Denied; }
      if !IsActive(users, actor) || !AcceptsRevisions(dashboards[d].state) { return Denied; }
      var nextNumber := NumberAfterLatest(d);
      revisions := revisions[id := Revision(d, nextNumber, actor, false)];
      revisions := revisions[id := revisions[id].(locked := true)];
      dashboards := dashboards[d := dashboards[d].(latest := Some(id))];
      Record(w, CreateRevision(d, actor, id));
      return Done;
    }

    // authentication.py

    /** `disable_user`. */
    method DisableAccount(actor: UserId, target: UserId) returns (r: Outcome)
      requires Valid()
      modifies this`users, this`calls
      ensures Valid() && W() == Apply(old(W()), DisableUser(actor, target))
      ensures r == Done <==> Changes(old(W()), DisableUser(actor, target))
      ensures r == Done ==> target in users && !users[target].active
      ensures r == Unchanged ==> target in users && !users[target].active
      ensures r == Done ==> forall a :: HeldBy(W(), a, target) ==> Ended(W(), a)
    {
      if !IsAdministrator(users, actor) { return Denied; }
      if target !in users || target == actor { return Denied; }
      if !users[target].active { return Unchanged; }
      WriteAccount(target, users[target].(active := false), DisableUser(actor, target));
      return Done;
    }

    /** `enable_user`. */
    method EnableAccount(actor: UserId, target: UserId) returns (r: Outcome)
      requires Valid()
      modifies this`users, this`calls
      ensures Valid() && W() == Apply(old(W()), EnableUser(actor, target))
      ensures r == Done <==> Changes(old(W()), EnableUser(actor, target))
      ensures r != Denied ==> target in users && users[target].active
      ensures r == Done ==> forall a :: HeldBy(W(), a, target) ==> Ended(W(), a)
    {
      if !IsAdministrator(users, actor) || target !in users { return Denied; }
      if users[target].active { return Unchanged; }
      WriteAccount(target, users[target].(active := true), EnableUser(actor, target));
      return Done;
    }

    /** `reset_user_password`. */
    method ResetUserPassword(actor: UserId, target: UserId) returns (r: Outcome)
      requires Valid()
      modifies this`users, this`calls
      ensures Valid() && W() == Apply(old(W()), ResetPassword(actor, target))
      ensures r == Done <==> Changes(old(W()), ResetPassword(actor, target))
      ensures r == Done ==> target in users && target in old(users) && users[target].active == old(users)[target].active
      ensures r == Done ==> forall a :: HeldBy(W(), a, target) ==> Ended(W(), a)
    {
      if !IsAdministrator(users, actor) || target !in users { return Denied; }
      WriteAccount(target, users[target].(authVersion := users[target].authVersion + 1), ResetPassword(actor, target));
      return Done;
    }

    /** Saves an account that a call has changed. */
    method WriteAccount(target: UserId, row: User, ghost op: Op)
      requires Valid() && (op.DisableUser? || op.EnableUser? || op.ResetPassword?) && op.target == target && Changes(W(), op)
      requires target in users && Effect(W(), op).users == users[target := SavedUser(users[target], row)]
      modifies this`users, this`calls
      ensures Valid() && W() == Effect(old(W()), op)
      ensures target in users && target in old(users)
      ensures users[target].active == (if op.ResetPassword? then old(users)[target].active else op.EnableUser?)
      ensures forall a :: HeldBy(W(), a, target) ==> Ended(W(), a)
    {
      ghost var w := W();
      SaveUser(target, row);
      assert W() == Effect(w, op);
      Record(w, op);
      AccountCredentialsEnd(w, old(calls), op);
      AccountSays(w, op);
    }

    /** `User.save`: toggling `is_active` bumps the stored authentication version. */
    static function SavedUser(original: User, row: User): User {
      if row.active != original.active then row.(authVersion := original.authVersion + 1) else row
    }

    method SaveUser(u: UserId, row: User)
      requires u in users
      modifies this`users
      ensures users == old(users)[u := SavedUser(old(users)[u], row)]
    {
      var original := users[u];
      var saved := row;
      if saved.active != original.active { saved := saved.(authVersion := original.authVersion + 1); }
      users := users[u := saved];
    }

    // authorization.py and the capture of analytics.py

    /** `issue_owner_preview`. */
    method IssueOwnerPreview(d: DashboardId, revision: RevisionId, v: UserId, expiresAt: Time, id: AuthorizationId) returns (r: Outcome)
      requires Valid() && id !in authorizations
      modifies this`authorizations, this`calls
      ensures Valid() && W() == Apply(old(W()), IssuePreview(d, revision, v, expiresAt, id))
      ensures r == Done <==> Changes(old(W()), IssuePreview(d, revision, v, expiresAt, id))
      ensures r == Done ==>
                && id in authorizations && authorizations[id].audience == PREVIEW && authorizations[id].dashboard == d
                && authorizations[id].revision == revision && authorizations[id].viewer == v && authorizations[id].expiresAt == expiresAt
      ensures r == Done ==> (Current(W(), id) <==> now < expiresAt)
      ensures forall a :: a != id ==> (Current(W(), a) <==> Current(old(W()), a))
    {
      ghost var w := W();
      if d !in dashboards || dashboards[d].state == ARCHIVED || dashboards[d].state == DELETED { return Denied; }
      if !IsActive(users, v) || revision !in revisions || revisions[revision].dashboard != d || !revisions[revision].locked { return Denied; }
      if dashboards[d].owner != v { return Denied; }
      var created := CreateAuthorization(d, revision, v, None, PREVIEW, expiresAt);
      authorizations := authorizations[id := created];
      Record(w, IssuePreview(d, revision, v, expiresAt, id));
      IssuedAlone(w, old(calls), IssuePreview(d, revision, v, expiresAt, id));
      return Done;
    }

    /** `_create_authorization`: the row that pins what the credential will be checked against. */
    method CreateAuthorization(d: DashboardId, revision: RevisionId, v: UserId, grant: Option<GrantId>, audience: Audience, expiresAt: Time)
      returns (x: Authorization)
      requires d in dashboards && v in users
      ensures x == Authorization(audience, v, users[v].authVersion, d, revision, grant,
                                 if grant.None? then dashboards[d].head else None,
                                 if audience == VIEWER then Some(dashboards[d].version) else None, now, expiresAt, None, false)
    {
      var epoch := if grant.None? then dashboards[d].head else None;
      var version := if audience == VIEWER then Some(dashboards[d].version) else None;
      return Authorization(audience, v, users[v].authVersion, d, revision, grant, epoch, version, now, expiresAt, None, false);
    }

    /** The grant a viewer other than the owner opens the dashboard by. */
    method BindGrant(d: DashboardId, v: UserId) returns (grant: Option<GrantId>)
      requires Valid() && d in dashboards
      ensures grant == BoundGrant(W(), d, v) && BindsGrant(W(), d, v, grant)
    {
      grant := None;
      if dashboards[d].owner != v { grant := ActiveGrant(d, v); }
      SameGrant(d, v, grant);
    }

    /** What `issue_published_view` and `capture_authorized_open` check, and the row they would write. */
    method PrepareView(d: DashboardId, v: UserId, expiresAt: Time, id: AuthorizationId) returns (x: Option<Authorization>)
      requires Valid() && id !in authorizations
      ensures x.Some? <==> Changes(W(), IssueView(d, v, expiresAt, id))
      ensures x.Some? ==> x.value == NewView(W(), d, v, expiresAt)
    {
      if d !in dashboards || dashboards[d].state != PUBLISHED || dashboards[d].published.None? || !IsActive(users, v) { return None; }
      var grant := BindGrant(d, v);
      if dashboards[d].owner != v && grant.None? { return None; }
      var created := CreateAuthorization(d, dashboards[d].published.value, v, grant, VIEWER, expiresAt);
      return if CanCapture(created) then Some(created) else None;
    }

    /** `issue_published_view` with its `capture_authorized_open`. */
    method IssuePublishedView(d: DashboardId, v: UserId, expiresAt: Time, id: AuthorizationId) returns (r: Outcome)
      requires Valid() && id !in authorizations
      modifies this`authorizations, this`viewerStates, this`calls
      ensures Valid() && W() == Apply(old(W()), IssueView(d, v, expiresAt, id))
      ensures r == Done <==> Changes(old(W()), IssueView(d, v, expiresAt, id))
      ensures r == Done ==>
                && d in dashboards && id in authorizations && authorizations[id].audience == VIEWER && authorizations[id].dashboard == d
                && Some(authorizations[id].revision) == dashboards[d].published && authorizations[id].viewer == v
                && authorizations[id].expiresAt == expiresAt && authorizations[id].captured
                && (v, d) in viewerStates && viewerStates[(v, d)].lastViewedAt >= now
                && viewerStates[(v, d)].seenVersion == dashboards[d].version
      ensures r == Done ==> (Current(W(), id) <==> now < expiresAt)
      ensures forall a :: a != id ==> (Current(W(), a) <==> Current(old(W()), a))
    {
      ghost var w := W();
      var x := PrepareView(d, v, expiresAt, id);
      if x.None? { return Denied; }
      WriteView(x.value, IssueView(d, v, expiresAt, id));
      return Done;
    }

    /** Writes the row of a view and the open that `capture_authorized_open` takes from it. */
    method WriteView(x: Authorization, op: Op)
      requires Valid() && op.IssueView? && Changes(W(), op) && x == NewView(W(), op.dashboard, op.viewer, op.expiresAt)
      modifies this`authorizations, this`viewerStates, this`calls
      ensures Valid() && W() == Effect(old(W()), op)
      ensures var d := op.dashboard;
              && d in dashboards && op.id in authorizations
              && authorizations[op.id].audience == VIEWER && authorizations[op.id].dashboard == d
              && Some(authorizations[op.id].revision) == dashboards[d].published && authorizations[op.id].viewer == op.viewer
              && authorizations[op.id].expiresAt == op.expiresAt && authorizations[op.id].captured
              && (op.viewer, d) in viewerStates && viewerStates[(op.viewer, d)].lastViewedAt >= now
              && viewerStates[(op.viewer, d)].seenVersion == dashboards[d].version
      ensures Current(W(), op.id) <==> now < op.expiresAt
      ensures forall a :: a != op.id ==> (Current(W(), a) <==> Current(old(W()), a))
    {
      ghost var w := W();
      authorizations := authorizations[op.id := x.(captured := true)];
      viewerStates := AdvanceViewerState(viewerStates, op.viewer, op.dashboard, x.createdAt, x.version.value);
      assert W() == Effect(w, op);
      Record(w, op);
      IssuedAlone(w, old(calls), op);
      ViewSays(w, op);
    }

    predicate CanCapture(x: Authorization)
      requires x.dashboard in dashboards && x.viewer in users
      reads this
    {
      CanSourceOpen(World(now, users, dashboards, revisions, grants, requests, transfers, authorizations, viewerStates), x)
    }

    lemma SameGrant(d: DashboardId, v: UserId, grant: Option<GrantId>)
      requires Valid() && d in dashboards && BindsGrant(W(), d, v, grant)
      ensures grant == BoundGrant(W(), d, v)
    {
      TablesOk();
      var bound := BoundGrant(W(), d, v);
      if bound.Some? {
        assert OpenGrant(grants, bound.value, grants[grant.value].dashboard, grants[grant.value].viewer);
      }
    }

    /** `revoke_render_authorization`. */
    method RevokeRenderAuthorization(a: AuthorizationId, at: Time) returns (r: Outcome)
      requires Valid()
      modifies this`authorizations, this`calls
      ensures Valid() && W() == Apply(old(W()), RevokeAuthorization(a, at))
      ensures r == Done <==> Changes(old(W()), RevokeAuthorization(a, at))
      ensures a in authorizations ==> Ended(W(), a)
    {
      ghost var w := W();
      if a !in authorizations { return Unchanged; }
      if authorizations[a].revokedAt.Some? {
        RevokedIsEnded(W(), a);
        return Unchanged;
      }
      authorizations := authorizations[a := authorizations[a].(revokedAt := Some(at))];
      Record(w, RevokeAuthorization(a, at));
      RevokedIsEnded(W(), a);
      return Done;
    }
  }
}
