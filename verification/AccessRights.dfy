/** Who owns a dashboard and who may open it, over whole runs: access that is given is access. */
module AccessRights {
  import opened Wrappers
  import opened Entitlements
  import opened EntitlementInvariant
  import opened Credentials
  import opened EntitlementRuns

  // What single calls leave behind

  lemma TransferSays(w: World, op: Op)
    requires RequestsOk(w.dashboards, w.requests) && Changes(w, op) && op.TransferOwnership?
    ensures var v, d := Effect(w, op), op.dashboard;
            && d in w.dashboards && d in v.dashboards && v.dashboards[d].owner == op.incoming && v.dashboards[d].head == Some(op.id)
            && op.id in v.transfers && v.transfers[op.id] == Transfer(d, op.actor, op.incoming, w.dashboards[d].head)
            && !HasOpenGrant(v.grants, d, op.incoming)
            && (forall q :: RequestOf(w.requests, q, d, op.incoming) && w.requests[q].status == PENDING ==>
                  q in v.requests && v.requests[q].status == APPROVED && v.requests[q].resolvedBy == Some(op.actor))
  {
  }

  lemma AccountSays(w: World, op: Op)
    requires Changes(w, op) && (op.DisableUser? || op.EnableUser? || op.ResetPassword?)
    ensures var users := Effect(w, op).users;
            && op.target in w.users && op.target in users
            && users[op.target].active == (if op.ResetPassword? then w.users[op.target].active else op.EnableUser?)
  {
  }

  lemma ViewSays(w: World, op: Op)
    requires ViewsOk(w.dashboards, w.viewerStates) && Changes(w, op) && op.IssueView?
    ensures var v, d := Effect(w, op), op.dashboard;
            && d in v.dashboards && op.id in v.authorizations
            && v.authorizations[op.id].audience == VIEWER && v.authorizations[op.id].dashboard == d
            && Some(v.authorizations[op.id].revision) == v.dashboards[d].published && v.authorizations[op.id].viewer == op.viewer
            && v.authorizations[op.id].expiresAt == op.expiresAt && v.authorizations[op.id].captured
            && (op.viewer, d) in v.viewerStates && v.viewerStates[(op.viewer, d)].lastViewedAt >= w.now
            && v.viewerStates[(op.viewer, d)].seenVersion == v.dashboards[d].version
  {
  }

  // Ownership

  /** Who a dashboard belongs to by the calls alone: the incoming user of the last transfer that was carried
      out, or its creator. */
  ghost function HolderBy(w: World, calls: seq<Op>, d: DashboardId, holder: Option<UserId>): Option<UserId>
    decreases |calls|
  {
    if calls == [] then holder
    else
      var op := calls[0];
      var next := if !Changes(w, op) then holder
                  else if op.CreateDashboard? && op.id == d then Some(op.owner)
                  else if op.TransferOwnership? && op.dashboard == d then Some(op.incoming)
                  else holder;
      HolderBy(Apply(w, op), calls[1..], d, next)
  }

  function OwnerOf(dashboards: map<DashboardId, Dashboard>, d: DashboardId): Option<UserId> {
    if d in dashboards then Some(dashboards[d].owner) else None
  }

  lemma OwnerStep(w: World, op: Op, d: DashboardId)
    requires Changes(w, op)
    ensures OwnerOf(Effect(w, op).dashboards, d) ==
            if op.CreateDashboard? && op.id == d then Some(op.owner)
            else if op.TransferOwnership? && op.dashboard == d then Some(op.incoming)
            else OwnerOf(w.dashboards, d)
  {
    if !Rewrites(op, d) { OtherDashboards(w, op, d); }
  }

  lemma {:induction false} HolderOwns(w: World, calls: seq<Op>, d: DashboardId)
    ensures HolderBy(w, calls, d, OwnerOf(w.dashboards, d)) == OwnerOf(Run(w, calls).dashboards, d)
    decreases |calls|
  {
    if calls != [] {
      if Changes(w, calls[0]) { OwnerStep(w, calls[0], d); }
      HolderOwns(Apply(w, calls[0]), calls[1..], d);
    }
  }

  /** The owner is the incoming user of the last transfer carried out, or the creator if there was none. */
  lemma OwnerIsLastIncoming(w: World, calls: seq<Op>, d: DashboardId)
    requires Init(w)
    ensures OwnerOf(Run(w, calls).dashboards, d) == HolderBy(w, calls, d, None)
  {
    HolderOwns(w, calls, d);
  }

  /** A call that only the owner may make, and who makes it. */
  predicate IsOwnerCall(op: Op, d: DashboardId) {
    match op
    case CreateRevision(e, _, _) => e == d
    case Publish(e, _, _, _, _) => e == d
    case Unpublish(e, _) => e == d
    case ConfirmFreshness(e, _, _, _) => e == d
    case GrantViewer(e, _, _, _) => e == d
    case RevokeViewer(e, _, _) => e == d
    case ResolveRequest(e, _, _, resolution, _, _) => e == d && resolution != CANCELLED
    case TransferOwnership(e, _, _, _, _, _) => e == d
    case IssuePreview(e, _, _, _, _) => e == d
    case _ => false
  }

  function CallerOf(op: Op, d: DashboardId): UserId
    requires IsOwnerCall(op, d)
  {
    if op.IssuePreview? then op.viewer else op.actor
  }

  lemma OnlyTheOwner(w: World, op: Op, d: DashboardId)
    requires IsOwnerCall(op, d) && Changes(w, op)
    ensures OwnerOf(w.dashboards, d) == Some(CallerOf(op, d)) && IsActive(w.users, CallerOf(op, d))
  {
  }

  /** No transfer of the dashboard is carried out in the run, nor is it archived or deleted. */
  ghost predicate KeepsOwner(w: World, calls: seq<Op>, d: DashboardId)
    decreases |calls|
  {
    calls == [] ||
    (!(Changes(w, calls[0]) && MovesOwner(calls[0], d)) && KeepsOwner(Apply(w, calls[0]), calls[1..], d))
  }

  ghost predicate StaysInUse(w: World, calls: seq<Op>, d: DashboardId)
    decreases |calls|
  {
    calls == [] ||
    (!(Changes(w, calls[0]) && PutsAway(calls[0], d)) && StaysInUse(Apply(w, calls[0]), calls[1..], d))
  }

  lemma {:induction false} OwnerKept(w: World, calls: seq<Op>, d: DashboardId)
    requires d in w.dashboards && KeepsOwner(w, calls, d)
    ensures OwnerOf(Run(w, calls).dashboards, d) == OwnerOf(w.dashboards, d)
    decreases |calls|
  {
    if calls != [] {
      if Changes(w, calls[0]) { OwnerStep(w, calls[0], d); }
      OwnerKept(Apply(w, calls[0]), calls[1..], d);
    }
  }

  lemma InUseStep(w: World, op: Op, d: DashboardId)
    requires Changes(w, op) && !PutsAway(op, d) && d in w.dashboards && AcceptsRevisions(w.dashboards[d].state)
    ensures d in Effect(w, op).dashboards && AcceptsRevisions(Effect(w, op).dashboards[d].state)
  {
    if !Rewrites(op, d) { OtherDashboards(w, op, d); }
  }

  lemma {:induction false} InUseKept(w: World, calls: seq<Op>, d: DashboardId)
    requires d in w.dashboards && AcceptsRevisions(w.dashboards[d].state) && StaysInUse(w, calls, d)
    ensures d in Run(w, calls).dashboards && AcceptsRevisions(Run(w, calls).dashboards[d].state)
    decreases |calls|
  {
    if calls != [] {
      if Changes(w, calls[0]) { InUseStep(w, calls[0], d); }
      InUseKept(Apply(w, calls[0]), calls[1..], d);
    }
  }

  /** The publishing calls of the owner of a dashboard in use are accepted: revisions, publication of a locked
      revision not before the last one, withdrawal and freshness while published, and previews. */
  ghost predicate OwnerMayPublish(w: World, d: DashboardId, owner: UserId)
    requires d in w.dashboards
  {
    && (forall id :: id !in w.revisions ==> Changes(w, CreateRevision(d, owner, id)))
    && (forall r, at, interval ::
          && r in w.revisions && w.revisions[r].dashboard == d && w.revisions[r].locked
          && (w.dashboards[d].lastPublishedAt.None? || w.dashboards[d].lastPublishedAt.value <= at)
          && (interval == None || 1 <= interval.value <= 31_536_000) ==>
            Changes(w, Publish(d, owner, r, at, interval)))
    && (w.dashboards[d].state == PUBLISHED ==> Changes(w, Unpublish(d, owner)))
    && (forall at, interval :: w.dashboards[d].state == PUBLISHED && (interval == None || 1 <= interval.value <= 31_536_000) ==>
          Changes(w, ConfirmFreshness(d, owner, at, interval)))
    && (forall r, expiresAt, id :: r in w.revisions && w.revisions[r].dashboard == d && w.revisions[r].locked && id !in w.authorizations ==>
          Changes(w, IssuePreview(d, r, owner, expiresAt, id)))
  }

  /** So are the sharing calls: grants to active users who have none, revocation of open ones, resolution of
      pending requests, and transfers to active users. */
  ghost predicate OwnerMayShare(w: World, d: DashboardId, owner: UserId)
    requires d in w.dashboards
  {
    && (forall u, id :: IsActive(w.users, u) && u != owner && !HasOpenGrant(w.grants, d, u) && id !in w.grants ==>
          Changes(w, GrantViewer(d, owner, u, id)))
    && (forall g :: g in w.grants && w.grants[g].dashboard == d && w.grants[g].revokedAt == None ==>
          Changes(w, RevokeViewer(d, g, owner)))
    && (forall q, at, id :: q in w.requests && w.requests[q].dashboard == d && w.requests[q].status == PENDING ==>
          && Changes(w, ResolveRequest(d, q, owner, DENIED, at, id))
          && (w.dashboards[d].state != DRAFT && IsActive(w.users, w.requests[q].requester) && id !in w.grants ==>
                Changes(w, ResolveRequest(d, q, owner, APPROVED, at, id))))
    && (forall u, at, id :: IsActive(w.users, u) && u != owner && id !in w.transfers ==>
          Changes(w, TransferOwnership(d, owner, u, Bound(w.dashboards[d].head), at, id)))
  }

  ghost predicate OwnerMay(w: World, d: DashboardId, owner: UserId)
    requires d in w.dashboards
  {
    OwnerMayPublish(w, d, owner) && OwnerMayShare(w, d, owner)
  }

  lemma PublishingAccepted(w: World, d: DashboardId, owner: UserId)
    requires d in w.dashboards && w.dashboards[d].owner == owner && IsActive(w.users, owner) && AcceptsRevisions(w.dashboards[d].state)
    requires w.dashboards[d].published.Some? <==> w.dashboards[d].state == PUBLISHED
    ensures OwnerMayPublish(w, d, owner)
  {
  }

  lemma SharingAccepted(w: World, d: DashboardId, owner: UserId)
    requires d in w.dashboards && w.dashboards[d].owner == owner && IsActive(w.users, owner) && AcceptsRevisions(w.dashboards[d].state)
    ensures OwnerMayShare(w, d, owner)
  {
  }

  /** An active user who is not the owner and has no open grant may ask for access to a published dashboard, with
      a new row or the one there is, unless it is pending already. */
  lemma AskingAccepted(w: World, d: DashboardId, u: UserId, at: Time, id: RequestId)
    requires d in w.dashboards && w.dashboards[d].state == PUBLISHED && IsActive(w.users, w.dashboards[d].owner)
    requires IsActive(w.users, u) && w.dashboards[d].owner != u && !HasOpenGrant(w.grants, d, u)
    requires if id in w.requests then RequestOf(w.requests, id, d, u) && w.requests[id].status != PENDING else !HasRequest(w.requests, d, u)
    ensures Changes(w, RequestAccess(d, u, at, id))
    ensures var row := Effect(w, RequestAccess(d, u, at, id)).requests;
            id in row && RequestOf(row, id, d, u) && row[id].status == PENDING && at <= row[id].requestedAt
  {
  }

  /** From a transfer until the next one the dashboard is the incoming user's: no owner's call of anybody else,
      the outgoing owner included, is accepted; and unless it is archived or deleted meanwhile, those of the
      incoming user are, while that account is active. */
  lemma TransferHandsOver(w: World, before: seq<Op>, transfer: Op, after: seq<Op>)
    requires Init(w) && transfer.TransferOwnership? && Changes(Run(w, before), transfer)
    requires KeepsOwner(Effect(Run(w, before), transfer), after, transfer.dashboard)
    ensures var v := Run(Effect(Run(w, before), transfer), after); var d := transfer.dashboard;
            && d in v.dashboards && v.dashboards[d].owner == transfer.incoming != transfer.actor
            && (forall op :: IsOwnerCall(op, d) && CallerOf(op, d) != transfer.incoming ==> !Changes(v, op))
            && (IsActive(v.users, transfer.incoming) && StaysInUse(Effect(Run(w, before), transfer), after, d) ==>
                  OwnerMay(v, d, transfer.incoming))
  {
    var u, d := Run(w, before), transfer.dashboard;
    var handed := Effect(u, transfer);
    InitInv(w);
    RunKeepsInv(w, before);
    EffectKeepsInv(u, transfer);
    RunKeepsInv(handed, after);
    OwnerStep(u, transfer, d);
    OwnerKept(handed, after, d);
    var v := Run(handed, after);
    forall op | IsOwnerCall(op, d) && CallerOf(op, d) != transfer.incoming ensures !Changes(v, op) {
      if Changes(v, op) { OnlyTheOwner(v, op, d); }
    }
    if IsActive(v.users, transfer.incoming) && StaysInUse(handed, after, d) {
      InUseKept(handed, after, d);
      assert DashboardOk(v.users, v.revisions, d, v.dashboards[d]);
      PublishingAccepted(v, d, transfer.incoming);
      SharingAccepted(v, d, transfer.incoming);
    }
  }

  // Grants

  /** The calls by which somebody is given access, and to whom. */
  ghost predicate GivesAccess(w: World, op: Op, d: DashboardId, u: UserId) {
    || (op.GrantViewer? && op.dashboard == d && op.target == u)
    || (op.ResolveRequest? && op.resolution == APPROVED && op.dashboard == d
        && op.request in w.requests && w.requests[op.request].requester == u)
  }

  /** After such a call there is an open grant. */
  lemma GivenAccess(w: World, op: Op, d: DashboardId, u: UserId) returns (g: GrantId)
    requires Changes(w, op) && GivesAccess(w, op, d, u)
    ensures OpenGrant(Effect(w, op).grants, g, d, u)
  {
    if op.GrantViewer? {
      g := op.id;
    } else if HasOpenGrant(w.grants, d, u) {
      g :| g in w.grants && OpenGrant(w.grants, g, d, u);
    } else {
      g := op.id;
    }
  }

  /** No other call opens a grant. */
  lemma NobodyElseGains(w: World, op: Op, g: GrantId)
    requires Changes(w, op) && g in Effect(w, op).grants && Effect(w, op).grants[g].revokedAt.None?
    requires g !in w.grants || w.grants[g].revokedAt.Some?
    ensures g !in w.grants && GivesAccess(w, op, Effect(w, op).grants[g].dashboard, Effect(w, op).grants[g].viewer)
  {
    if g in w.grants {
      GrantStep(w, op, g);
    } else if !op.GrantViewer? && !op.RevokeViewer? && !op.ResolveRequest? && !op.TransferOwnership? {
      TableFrame(w, op);
    }
  }

  /** Nobody revokes the grant, nor is the dashboard transferred to its viewer. */
  ghost predicate NeverCloses(w: World, calls: seq<Op>, g: GrantId, d: DashboardId, u: UserId)
    decreases |calls|
  {
    calls == [] ||
    (!(Changes(w, calls[0]) && ClosesGrant(calls[0], g, d, u)) && NeverCloses(Apply(w, calls[0]), calls[1..], g, d, u))
  }

  lemma OpenStep(w: World, op: Op, g: GrantId, d: DashboardId, u: UserId)
    requires Changes(w, op) && OpenGrant(w.grants, g, d, u)
    ensures OpenGrant(Effect(w, op).grants, g, d, u) <==> !ClosesGrant(op, g, d, u)
  {
    GrantStep(w, op, g);
    EffectOnGrant(w, op, g);
  }

  /** An open grant is open after a run exactly when nothing in the run closed it. */
  lemma {:induction false} OpenUntilClosed(w: World, calls: seq<Op>, g: GrantId, d: DashboardId, u: UserId)
    requires OpenGrant(w.grants, g, d, u)
    ensures OpenGrant(Run(w, calls).grants, g, d, u) <==> NeverCloses(w, calls, g, d, u)
    decreases |calls|
  {
    if calls != [] {
      if Changes(w, calls[0]) {
        OpenStep(w, calls[0], g, d, u);
        if ClosesGrant(calls[0], g, d, u) {
          GrantStep(w, calls[0], g);
          ClosedGrantStaysClosed(Effect(w, calls[0]), calls[1..], g);
        } else {
          OpenUntilClosed(Effect(w, calls[0]), calls[1..], g, d, u);
        }
      } else {
        OpenUntilClosed(w, calls[1..], g, d, u);
      }
    }
  }

  /** Whoever holds an open grant or owns the dashboard can be issued a view whenever it is published. */
  lemma MayView(w: World, d: DashboardId, u: UserId, expiresAt: Time, id: AuthorizationId)
    requires Inv(w) && d in w.dashboards && w.dashboards[d].state == PUBLISHED && IsActive(w.users, u) && id !in w.authorizations
    requires w.dashboards[d].owner == u || HasOpenGrant(w.grants, d, u)
    ensures Changes(w, IssueView(d, u, expiresAt, id))
  {
    assert DashboardOk(w.users, w.revisions, d, w.dashboards[d]);
    var grant := BoundGrant(w, d, u);
    IssuedViewCanSourceOpen(w, d, u, expiresAt);
  }

  /** From the call that gives somebody access until that grant is revoked or the dashboard is transferred to
      them, and by nothing else cut short, they can be issued a view whenever they are active and it is
      published. */
  lemma AccessGivenIsAccess(w: World, before: seq<Op>, give: Op, d: DashboardId, u: UserId) returns (g: GrantId)
    requires Init(w) && Changes(Run(w, before), give) && GivesAccess(Run(w, before), give, d, u)
    ensures OpenGrant(Effect(Run(w, before), give).grants, g, d, u)
    ensures forall after: seq<Op>, expiresAt, id ::
              var v := Run(Effect(Run(w, before), give), after);
              && NeverCloses(Effect(Run(w, before), give), after, g, d, u) && IsActive(v.users, u)
              && d in v.dashboards && v.dashboards[d].state == PUBLISHED && id !in v.authorizations ==>
                Changes(v, IssueView(d, u, expiresAt, id))
  {
    InitInv(w);
    RunKeepsInv(w, before);
    var given := Effect(Run(w, before), give);
    EffectKeepsInv(Run(w, before), give);
    g := GivenAccess(Run(w, before), give, d, u);
    forall after: seq<Op>, expiresAt, id |
      var v := Run(given, after);
      && NeverCloses(given, after, g, d, u) && IsActive(v.users, u)
      && d in v.dashboards && v.dashboards[d].state == PUBLISHED && id !in v.authorizations
      ensures Changes(Run(given, after), IssueView(d, u, expiresAt, id))
    {
      OpenUntilClosed(given, after, g, d, u);
      RunKeepsInv(given, after);
      MayView(Run(given, after), d, u, expiresAt, id);
    }
  }
}
