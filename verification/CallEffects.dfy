/** What a caller may rely on once a call has taken effect, at once and after any later calls. */
module CallEffects {
  import opened Wrappers
  import opened Entitlements
  import opened EntitlementInvariant
  import opened Credentials
  import opened EntitlementRuns

  /** Not current now, nor after any later calls. */
  ghost predicate Ended(w: World, a: AuthorizationId) {
    forall later: seq<Op> :: !Current(Run(w, later), a)
  }

  /** A credential to view the published dashboard `d`. */
  predicate IsViewOf(w: World, a: AuthorizationId, d: DashboardId) {
    a in w.authorizations && w.authorizations[a].audience == VIEWER && w.authorizations[a].dashboard == d
  }

  predicate HeldBy(w: World, a: AuthorizationId, u: UserId) {
    a in w.authorizations && w.authorizations[a].viewer == u
  }

  /** A preview, or a view issued to an owner of `d`. */
  predicate IsOwnersOf(w: World, a: AuthorizationId, d: DashboardId) {
    a in w.authorizations && w.authorizations[a].dashboard == d && w.authorizations[a].grant.None?
  }

  lemma DeadIsEnded(w: World, a: AuthorizationId)
    requires Inv(w) && a in w.authorizations && Fits(w, w.authorizations[a]) && Dead(w, a)
    ensures Ended(w, a)
  {
    forall later: seq<Op> ensures !Current(Run(w, later), a) {
      DeadForever(w, later, a);
    }
  }

  lemma Reached(w: World, calls: seq<Op>, op: Op)
    requires Init(w) && Changes(Run(w, calls), op)
    ensures Inv(Run(w, calls)) && Inv(Effect(Run(w, calls), op))
  {
    InitInv(w);
    RunKeepsInv(w, calls);
    EffectKeepsInv(Run(w, calls), op);
  }

  // Publication

  lemma PublicationChanges(v: World, op: Op, d: DashboardId)
    requires Changes(v, op) && TouchesPublication(op, d)
    ensures d in v.dashboards && d in Effect(v, op).dashboards
    ensures var row, row' := v.dashboards[d], Effect(v, op).dashboards[d];
            row'.version == row.version + 1 || row'.published.None?
  {
  }

  lemma PublicationChangeKills(v: World, op: Op, a: AuthorizationId)
    requires AuthorizationsOk(v) && Changes(v, op) && a in v.authorizations && v.authorizations[a].audience == VIEWER
    requires TouchesPublication(op, v.authorizations[a].dashboard) && AuthorizationsOk(Effect(v, op))
    ensures a in Effect(v, op).authorizations && Fits(Effect(v, op), Effect(v, op).authorizations[a])
    ensures Dead(Effect(v, op), a)
  {
    AuthorizationStep(v, op, a);
    PublicationChanges(v, op, v.authorizations[a].dashboard);
  }

  /** Publishing, unpublishing, archiving and deleting end every view issued before, for good: also when
      the very same revision is published again. */
  lemma PublicationChangeEndsViews(w: World, calls: seq<Op>, op: Op, d: DashboardId, a: AuthorizationId)
    requires Init(w) && Changes(Run(w, calls), op) && TouchesPublication(op, d) && IsViewOf(Run(w, calls), a, d)
    ensures Ended(Effect(Run(w, calls), op), a)
  {
    Reached(w, calls, op);
    PublicationChangeKills(Run(w, calls), op, a);
    DeadIsEnded(Effect(Run(w, calls), op), a);
  }

  /** The version of a dashboard is the number of publications since it was created. */
  lemma {:induction false} VersionCountsPublications(w: World, calls: seq<Op>, d: DashboardId)
    requires d in Run(w, calls).dashboards
    ensures Run(w, calls).dashboards[d].version ==
              (if d in w.dashboards then w.dashboards[d].version else 0) + Publications(w, calls, d)
    decreases |calls|
  {
    if d in w.dashboards {
      PublicationHistory(w, calls, d);
    } else if calls != [] {
      if Changes(w, calls[0]) && !Rewrites(calls[0], d) { OtherDashboards(w, calls[0], d); }
      VersionCountsPublications(Apply(w, calls[0]), calls[1..], d);
    }
  }

  // Accounts

  lemma AccountChangeKills(v: World, op: Op, a: AuthorizationId)
    requires AuthorizationsOk(v) && Changes(v, op) && a in v.authorizations && TouchesUser(op, v.authorizations[a].viewer)
    requires AuthorizationsOk(Effect(v, op))
    ensures a in Effect(v, op).authorizations && Fits(Effect(v, op), Effect(v, op).authorizations[a])
    ensures Dead(Effect(v, op), a)
  {
    AuthorizationStep(v, op, a);
    assert Fits(v, v.authorizations[a]);
  }

  /** Disabling, enabling and resetting an account end every credential its user holds, for good. */
  lemma AccountChangeEndsCredentials(w: World, calls: seq<Op>, op: Op, a: AuthorizationId)
    requires Init(w) && Changes(Run(w, calls), op) && (op.DisableUser? || op.EnableUser? || op.ResetPassword?)
    requires HeldBy(Run(w, calls), a, op.target)
    ensures Ended(Effect(Run(w, calls), op), a)
  {
    Reached(w, calls, op);
    AccountChangeKills(Run(w, calls), op, a);
    DeadIsEnded(Effect(Run(w, calls), op), a);
  }

  // Owners and grants

  lemma TransferKills(v: World, op: Op, a: AuthorizationId)
    requires AuthorizationsOk(v) && Changes(v, op) && a in v.authorizations && v.authorizations[a].grant.None?
    requires MovesOwner(op, v.authorizations[a].dashboard) && AuthorizationsOk(Effect(v, op))
    ensures a in Effect(v, op).authorizations && Fits(Effect(v, op), Effect(v, op).authorizations[a])
    ensures Dead(Effect(v, op), a)
  {
    AuthorizationStep(v, op, a);
    assert Fits(v, v.authorizations[a]);
  }

  /** A transfer ends every credential issued to this or an earlier owner, for good: also when the
      dashboard comes back to that owner. */
  lemma TransferEndsOwnerCredentials(w: World, calls: seq<Op>, op: Op, a: AuthorizationId)
    requires Init(w) && op.TransferOwnership? && Changes(Run(w, calls), op)
    requires IsOwnersOf(Run(w, calls), a, op.dashboard)
    ensures Ended(Effect(Run(w, calls), op), a)
  {
    Reached(w, calls, op);
    TransferKills(Run(w, calls), op, a);
    DeadIsEnded(Effect(Run(w, calls), op), a);
  }

  lemma RevocationClosesAll(v: World, op: Op)
    requires Inv(v) && Changes(v, op) && op.RevokeViewer?
    ensures !HasOpenGrant(Effect(v, op).grants, op.dashboard, v.grants[op.grant].viewer)
    ensures op.dashboard in v.dashboards && v.dashboards[op.dashboard].owner != v.grants[op.grant].viewer
    ensures Effect(v, op).dashboards == v.dashboards
  {
    var closed, viewer := op.grant, v.grants[op.grant].viewer;
    forall g | g in v.grants ensures !OpenGrant(Effect(v, op).grants, g, op.dashboard, viewer) {
      if g != closed {
        assert OpenGrant(v.grants, g, v.grants[closed].dashboard, viewer) ==> closed == g;
      }
    }
  }

  lemma ClosedOutIsNotCurrent(w: World, a: AuthorizationId, d: DashboardId, viewer: UserId)
    requires IsViewOf(w, a, d) && w.authorizations[a].viewer == viewer
    requires d in w.dashboards && w.dashboards[d].owner != viewer && !HasOpenGrant(w.grants, d, viewer)
    ensures !Current(w, a)
  {
    var grant := w.authorizations[a].grant;
    assert grant.Some? && OpenGrant(w.grants, grant.value, d, viewer) ==> HasOpenGrant(w.grants, d, viewer);
  }

  /** Revoking a grant ends every view of the dashboard that its holder was ever issued, by this grant, by
      an earlier one or as an earlier owner, for good: also when the holder is granted access again. */
  lemma RevocationEndsViews(w: World, calls: seq<Op>, op: Op, a: AuthorizationId)
    requires Init(w) && op.RevokeViewer? && Changes(Run(w, calls), op)
    requires IsViewOf(Run(w, calls), a, op.dashboard)
    requires Run(w, calls).authorizations[a].viewer == Run(w, calls).grants[op.grant].viewer
    ensures Ended(Effect(Run(w, calls), op), a)
  {
    var v := Run(w, calls);
    Reached(w, calls, op);
    RevocationClosesAll(v, op);
    AuthorizationStep(v, op, a);
    var v' := Effect(v, op);
    ClosedOutIsNotCurrent(v', a, op.dashboard, v.grants[op.grant].viewer);
    forall later: seq<Op> ensures !Current(Run(v', later), a) {
      NeverRevives(v', later, a);
    }
  }

  // Credentials

  lemma {:induction false} RevokedForever(w: World, calls: seq<Op>, a: AuthorizationId)
    requires a in w.authorizations && w.authorizations[a].revokedAt.Some?
    ensures a in Run(w, calls).authorizations && Run(w, calls).authorizations[a].revokedAt.Some?
    decreases |calls|
  {
    if calls != [] {
      if Changes(w, calls[0]) { AuthorizationStep(w, calls[0], a); }
      RevokedForever(Apply(w, calls[0]), calls[1..], a);
    }
  }

  lemma RevokedIsEnded(w: World, a: AuthorizationId)
    requires a in w.authorizations && w.authorizations[a].revokedAt.Some?
    ensures Ended(w, a)
  {
    forall later: seq<Op> ensures !Current(Run(w, later), a) {
      RevokedForever(w, later, a);
    }
  }

  /** Once a credential has been revoked, by this call or before, it is never current again and whenever
      it is revoked again nothing changes. */
  lemma RevokedOnce(w: World, a: AuthorizationId, at: Time, later: seq<Op>, again: Time)
    requires a in w.authorizations
    ensures var w' := Run(Apply(w, RevokeAuthorization(a, at)), later);
            !Current(w', a) && Apply(w', RevokeAuthorization(a, again)) == w'
  {
    RevokedForever(Apply(w, RevokeAuthorization(a, at)), later, a);
  }

  /** Issuing a credential makes no other credential current and ends none. */
  lemma IssuingDisturbsNobody(w: World, issue: Op, a: AuthorizationId)
    requires (issue.IssuePreview? || issue.IssueView?) && Changes(w, issue) && a != issue.id
    ensures Current(Effect(w, issue), a) <==> Current(w, a)
  {
  }

  // Freshness

  ghost predicate SameButFreshness(d: Dashboard, e: Dashboard) {
    e == d.(freshness := e.freshness)
  }

  /** The same rows, except perhaps how fresh the dashboards are said to be. */
  ghost predicate Alike(v: World, w: World) {
    && w == v.(dashboards := w.dashboards)
    && v.dashboards.Keys == w.dashboards.Keys
    && forall d :: d in v.dashboards ==> SameButFreshness(v.dashboards[d], w.dashboards[d])
  }

  lemma AlikeCurrent(v: World, w: World, a: AuthorizationId)
    requires Alike(v, w)
    ensures Current(v, a) <==> Current(w, a)
  {
  }

  lemma AlikeBound(v: World, w: World, d: DashboardId, u: UserId)
    requires Alike(v, w) && d in v.dashboards && GrantsOk(v.dashboards, v.grants)
    ensures BoundGrant(v, d, u) == BoundGrant(w, d, u)
  {
    var g, h := BoundGrant(v, d, u), BoundGrant(w, d, u);
    if g.Some? { assert OpenGrant(v.grants, h.value, v.grants[g.value].dashboard, v.grants[g.value].viewer); }
  }

  /** A call that moves a dashboard through its life, and writes its row only. */
  predicate MovesLifecycle(op: Op) {
    op.Publish? || op.Unpublish? || op.ConfirmFreshness? || op.Archive? || op.Restore? || op.Delete?
  }

  predicate RewritesDashboards(op: Op) {
    MovesLifecycle(op) || op.CreateDashboard? || op.CreateRevision? || op.TransferOwnership?
  }

  /** What the guards of a call on `d` read. */
  ghost predicate AlikeAt(v: World, w: World, d: DashboardId) {
    && v.users == w.users && v.revisions == w.revisions && v.transfers == w.transfers
    && (d in v.dashboards <==> d in w.dashboards)
    && (d in v.dashboards ==> SameButFreshness(v.dashboards[d], w.dashboards[d]))
  }

  lemma AlikeMoves(v: World, w: World, op: Op)
    requires MovesLifecycle(op) && AlikeAt(v, w, op.dashboard)
    ensures Changes(v, op) <==> Changes(w, op)
  {
  }

  lemma AlikeRewrites(v: World, w: World, op: Op)
    requires RewritesDashboards(op) && !MovesLifecycle(op)
    requires AlikeAt(v, w, if op.CreateDashboard? then op.id else op.dashboard)
    ensures Changes(v, op) <==> Changes(w, op)
  {
  }

  lemma AlikeWrites(v: World, w: World, op: Op)
    requires Alike(v, w) && GrantsOk(v.dashboards, v.grants) && !RewritesDashboards(op)
    ensures Changes(v, op) <==> Changes(w, op)
  {
    if op.IssueView? && op.dashboard in v.dashboards { AlikeBound(v, w, op.dashboard, op.viewer); }
  }

  lemma AlikeChanges(v: World, w: World, op: Op)
    requires Alike(v, w) && GrantsOk(v.dashboards, v.grants)
    ensures Changes(v, op) <==> Changes(w, op)
  {
    if MovesLifecycle(op) {
      AlikeMoves(v, w, op);
    } else if RewritesDashboards(op) {
      AlikeRewrites(v, w, op);
    } else {
      AlikeWrites(v, w, op);
    }
  }

  lemma MovedRow(v: World, op: Op)
    requires Changes(v, op) && MovesLifecycle(op)
    ensures op.dashboard in v.dashboards && op.dashboard in Effect(v, op).dashboards
    ensures Effect(v, op) == SetDashboard(v, op.dashboard, Effect(v, op).dashboards[op.dashboard])
  {
  }

  lemma MovedRowsAgree(v: World, w: World, op: Op)
    requires Changes(v, op) && Changes(w, op) && MovesLifecycle(op)
    requires op.dashboard in v.dashboards && op.dashboard in w.dashboards
    requires SameButFreshness(v.dashboards[op.dashboard], w.dashboards[op.dashboard])
    ensures op.dashboard in Effect(v, op).dashboards && op.dashboard in Effect(w, op).dashboards
    ensures SameButFreshness(Effect(v, op).dashboards[op.dashboard], Effect(w, op).dashboards[op.dashboard])
  {
  }

  lemma AlikeSet(v: World, w: World, d: DashboardId, row: Dashboard, other: Dashboard)
    requires Alike(v, w) && SameButFreshness(row, other)
    ensures Alike(SetDashboard(v, d, row), SetDashboard(w, d, other))
  {
  }

  lemma AlikeMoved(v: World, w: World, op: Op)
    requires Alike(v, w) && Changes(v, op) && Changes(w, op) && MovesLifecycle(op)
    ensures Alike(Effect(v, op), Effect(w, op))
  {
    MovedRow(v, op);
    MovedRow(w, op);
    MovedRowsAgree(v, w, op);
    AlikeSet(v, w, op.dashboard, Effect(v, op).dashboards[op.dashboard], Effect(w, op).dashboards[op.dashboard]);
  }

  lemma AlikeRewritten(v: World, w: World, op: Op)
    requires Alike(v, w) && Changes(v, op) && Changes(w, op) && RewritesDashboards(op) && !MovesLifecycle(op)
    ensures Alike(Effect(v, op), Effect(w, op))
  {
  }

  lemma AlikeView(v: World, w: World, op: Op)
    requires Alike(v, w) && GrantsOk(v.dashboards, v.grants) && Changes(v, op) && Changes(w, op) && op.IssueView?
    ensures Alike(Effect(v, op), Effect(w, op))
  {
    AlikeBound(v, w, op.dashboard, op.viewer);
  }

  lemma AlikeElsewhere(v: World, w: World, op: Op)
    requires Alike(v, w) && Changes(v, op) && Changes(w, op) && !RewritesDashboards(op) && !op.IssueView?
    ensures Alike(Effect(v, op), Effect(w, op))
  {
  }

  lemma AlikeEffect(v: World, w: World, op: Op)
    requires Alike(v, w) && GrantsOk(v.dashboards, v.grants) && Changes(v, op) && Changes(w, op)
    ensures Alike(Effect(v, op), Effect(w, op))
  {
    if MovesLifecycle(op) {
      AlikeMoved(v, w, op);
    } else if RewritesDashboards(op) {
      AlikeRewritten(v, w, op);
    } else if op.IssueView? {
      AlikeView(v, w, op);
    } else {
      AlikeElsewhere(v, w, op);
    }
  }

  lemma {:induction false} AlikeRun(v: World, w: World, later: seq<Op>)
    requires Alike(v, w) && Inv(v)
    ensures Alike(Run(v, later), Run(w, later))
    decreases |later|
  {
    if later != [] {
      AlikeChanges(v, w, later[0]);
      if Changes(v, later[0]) {
        AlikeEffect(v, w, later[0]);
        EffectKeepsInv(v, later[0]);
      }
      AlikeRun(Apply(v, later[0]), Apply(w, later[0]), later[1..]);
    }
  }

  /** Confirming freshness has no effect on any other row, nor on who may open what, at once or after
      any later calls: those rows are as if it had never been confirmed. */
  lemma FreshnessIsInert(w: World, calls: seq<Op>, confirm: Op, later: seq<Op>)
    requires Init(w) && confirm.ConfirmFreshness?
    ensures var v := Run(w, calls);
            && Alike(Run(v, later), Run(Apply(v, confirm), later))
            && forall a :: Current(Run(Apply(v, confirm), later), a) <==> Current(Run(v, later), a)
  {
    InitInv(w);
    RunKeepsInv(w, calls);
    var v := Run(w, calls);
    AlikeRun(v, Apply(v, confirm), later);
    forall a ensures Current(Run(Apply(v, confirm), later), a) <==> Current(Run(v, later), a) {
      AlikeCurrent(Run(v, later), Run(Apply(v, confirm), later), a);
    }
  }
}
