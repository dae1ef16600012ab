/** The life of a bearer credential, of a confirmation, of grants, requests and publications, over
    whole runs of service calls. */
module Credentials {
  import opened Wrappers
  import opened Entitlements
  import opened EntitlementInvariant

  /** Disabling, enabling or resetting the user. */
  predicate TouchesUser(op: Op, u: UserId) {
    (op.DisableUser? || op.EnableUser? || op.ResetPassword?) && op.target == u
  }

  /** Publishing again or withdrawing the publication. */
  predicate TouchesPublication(op: Op, d: DashboardId) {
    (op.Publish? || op.Unpublish? || op.Archive? || op.Delete?) && op.dashboard == d
  }

  predicate PutsAway(op: Op, d: DashboardId) {
    (op.Archive? || op.Delete?) && op.dashboard == d
  }

  predicate MovesOwner(op: Op, d: DashboardId) {
    op.TransferOwnership? && op.dashboard == d
  }

  /** Revoking the grant, or transferring the dashboard to its viewer. */
  predicate ClosesGrant(op: Op, g: GrantId, d: DashboardId, viewer: UserId) {
    (op.RevokeViewer? && op.grant == g) || (op.TransferOwnership? && op.dashboard == d && op.incoming == viewer)
  }

  /** The call ends the credential `a`, were it current. */
  ghost predicate Invalidates(w: World, op: Op, a: AuthorizationId)
    requires a in w.authorizations
  {
    var x := w.authorizations[a];
    && Changes(w, op)
    && (|| (op.Tick? && x.expiresAt <= op.to)
        || (op.RevokeAuthorization? && op.authorization == a)
        || TouchesUser(op, x.viewer)
        || (if x.audience == VIEWER then TouchesPublication(op, x.dashboard) else PutsAway(op, x.dashboard))
        || (if x.grant.None? then MovesOwner(op, x.dashboard) else ClosesGrant(op, x.grant.value, x.dashboard, x.viewer)))
  }

  /** A reason why the credential is not current that no later call can take back. */
  ghost predicate Dead(w: World, a: AuthorizationId)
    requires a in w.authorizations && Fits(w, w.authorizations[a])
  {
    var x := w.authorizations[a];
    var d := w.dashboards[x.dashboard];
    || x.revokedAt.Some?
    || x.expiresAt <= w.now
    || w.users[x.viewer].authVersion != x.viewerVersion
    || (x.version.Some? && (d.version != x.version.value || d.published.None?))
    || (x.grant.None? && x.epoch != d.head)
    || (x.grant.Some? && w.grants[x.grant.value].revokedAt.Some?)
  }

  /** A preview also pauses while its dashboard is archived or deleted. */
  ghost predicate Paused(w: World, a: AuthorizationId)
    requires a in w.authorizations
  {
    var x := w.authorizations[a];
    x.audience == PREVIEW && PutAway(w.dashboards, x.dashboard)
  }

  ghost predicate PutAway(dashboards: map<DashboardId, Dashboard>, d: DashboardId) {
    d in dashboards && (dashboards[d].state == ARCHIVED || dashboards[d].state == DELETED)
  }

  lemma CurrentWhenFits(w: World, a: AuthorizationId)
    requires a in w.authorizations && Fits(w, w.authorizations[a]) && GrantsOk(w.dashboards, w.grants)
    requires var d := w.authorizations[a].dashboard; DashboardOk(w.users, w.revisions, d, w.dashboards[d])
    ensures Current(w, a) <==> !Dead(w, a) && !Paused(w, a)
  {
  }

  lemma CurrentOrDead(w: World, a: AuthorizationId)
    requires Inv(w) && a in w.authorizations
    ensures Fits(w, w.authorizations[a])
    ensures Current(w, a) <==> !Dead(w, a) && !Paused(w, a)
  {
    CurrentWhenFits(w, a);
  }

  /** How one step moves what the credential `x` is checked against. */
  ghost predicate Moves(w: World, w': World, x: Authorization)
    requires Fits(w, x)
  {
    && w.now <= w'.now
    && x.viewer in w'.users
    && (w'.users[x.viewer] == w.users[x.viewer] || w.users[x.viewer].authVersion < w'.users[x.viewer].authVersion)
    && x.dashboard in w'.dashboards && DashboardAdvances(w, w.dashboards[x.dashboard], w'.dashboards[x.dashboard])
    && (x.grant.Some? ==> GrantStays(w.grants, w'.grants, x.grant.value))
  }

  lemma StepMoves(w: World, op: Op, x: Authorization)
    requires Changes(w, op) && Fits(w, x)
    ensures Moves(w, Effect(w, op), x)
  {
    UserStep(w, op, x.viewer);
    DashboardStep(w, op, x.dashboard);
    if x.grant.Some? { GrantStep(w, op, x.grant.value); }
    TimeStep(w, op);
  }

  lemma DeadCarries(w: World, w': World, a: AuthorizationId)
    requires a in w.authorizations && Fits(w, w.authorizations[a]) && Dead(w, a)
    requires a in w'.authorizations && Fits(w', w'.authorizations[a])
    requires w'.authorizations[a] == w.authorizations[a].(revokedAt := w'.authorizations[a].revokedAt)
    requires w.authorizations[a].revokedAt.Some? ==> w'.authorizations[a].revokedAt.Some?
    requires Moves(w, w', w.authorizations[a])
    ensures Dead(w', a)
  {
  }

  lemma DeadStaysDead(w: World, op: Op, a: AuthorizationId)
    requires Inv(w) && Changes(w, op) && a in w.authorizations && Fits(w, w.authorizations[a]) && Dead(w, a)
    ensures var w' := Effect(w, op); a in w'.authorizations && Fits(w', w'.authorizations[a]) && Dead(w', a)
  {
    var w' := Effect(w, op);
    AuthorizationsKept(w, op);
    AuthorizationStep(w, op, a);
    StepMoves(w, op, w.authorizations[a]);
    DeadCarries(w, w', a);
  }

  lemma TimeStep(w: World, op: Op)
    requires Changes(w, op)
    ensures w.now <= Effect(w, op).now && Effect(w, op).now == (if op.Tick? then op.to else w.now)
  {
  }

  // A current credential ends exactly at an invalidating call.

  lemma EffectOnUser(w: World, op: Op, u: UserId)
    requires Changes(w, op) && u in w.users
    ensures u in Effect(w, op).users
    ensures Effect(w, op).users[u].authVersion != w.users[u].authVersion <==> TouchesUser(op, u)
  {
  }

  lemma EffectOnPublication(w: World, op: Op, d: DashboardId)
    requires Changes(w, op) && d in w.dashboards && w.dashboards[d].published.Some?
    ensures d in Effect(w, op).dashboards
    ensures var row, row' := w.dashboards[d], Effect(w, op).dashboards[d];
            row'.version != row.version || row'.published.None? <==> TouchesPublication(op, d)
  {
    if !Rewrites(op, d) { OtherDashboards(w, op, d); }
  }

  lemma EffectOnHead(w: World, op: Op, d: DashboardId)
    requires Changes(w, op) && d in w.dashboards && (w.dashboards[d].head.Some? ==> w.dashboards[d].head.value in w.transfers)
    ensures d in Effect(w, op).dashboards
    ensures Effect(w, op).dashboards[d].head != w.dashboards[d].head <==> MovesOwner(op, d)
  {
    if !Rewrites(op, d) { OtherDashboards(w, op, d); }
  }

  lemma EffectOnGrant(w: World, op: Op, g: GrantId)
    requires Changes(w, op) && g in w.grants && w.grants[g].revokedAt.None?
    ensures g in Effect(w, op).grants
    ensures Effect(w, op).grants[g].revokedAt.Some? <==> ClosesGrant(op, g, w.grants[g].dashboard, w.grants[g].viewer)
  {
    if op.TransferOwnership? {
      assert g in CloseGrants(w.grants, op.dashboard, op.incoming, op.at, op.actor);
    } else if !op.GrantViewer? && !op.RevokeViewer? && !op.ResolveRequest? {
      TableFrame(w, op);
    }
  }

  lemma EffectOnState(w: World, op: Op, d: DashboardId)
    requires Changes(w, op) && d in w.dashboards && w.dashboards[d].state != ARCHIVED && w.dashboards[d].state != DELETED
    ensures d in Effect(w, op).dashboards
    ensures (Effect(w, op).dashboards[d].state == ARCHIVED || Effect(w, op).dashboards[d].state == DELETED) <==> PutsAway(op, d)
  {
    if !Rewrites(op, d) { OtherDashboards(w, op, d); }
  }

  /** How one call shows in the dashboard row a current credential is checked against. */
  ghost predicate ShowsInDashboard(op: Op, d: Dashboard, d': Dashboard, x: Authorization) {
    && (x.audience == VIEWER ==> (d'.version != d.version || d'.published.None? <==> TouchesPublication(op, x.dashboard)))
    && (x.audience == PREVIEW ==> (d'.state == ARCHIVED || d'.state == DELETED <==> PutsAway(op, x.dashboard)))
    && (d'.head != d.head <==> MovesOwner(op, x.dashboard))
  }

  /** How it shows in the user and grant rows and in the time. */
  ghost predicate ShowsElsewhere(w: World, op: Op, w': World, x: Authorization) {
    && x.viewer in w.users && x.viewer in w'.users
    && (w'.users[x.viewer].authVersion != w.users[x.viewer].authVersion <==> TouchesUser(op, x.viewer))
    && (x.grant.Some? ==>
          && x.grant.value in w'.grants
          && (w'.grants[x.grant.value].revokedAt.Some? <==> ClosesGrant(op, x.grant.value, x.dashboard, x.viewer)))
    && w'.now == (if op.Tick? then op.to else w.now)
  }

  lemma StepShowsInDashboard(w: World, op: Op, x: Authorization)
    requires Changes(w, op) && x.dashboard in w.dashboards
    requires w.dashboards[x.dashboard].head.Some? ==> w.dashboards[x.dashboard].head.value in w.transfers
    requires if x.audience == VIEWER then w.dashboards[x.dashboard].published.Some?
             else w.dashboards[x.dashboard].state != ARCHIVED && w.dashboards[x.dashboard].state != DELETED
    ensures x.dashboard in Effect(w, op).dashboards
    ensures ShowsInDashboard(op, w.dashboards[x.dashboard], Effect(w, op).dashboards[x.dashboard], x)
  {
    EffectOnHead(w, op, x.dashboard);
    if x.audience == VIEWER { EffectOnPublication(w, op, x.dashboard); } else { EffectOnState(w, op, x.dashboard); }
  }

  lemma StepShowsElsewhere(w: World, op: Op, x: Authorization)
    requires Changes(w, op) && x.viewer in w.users
    requires x.grant.Some? ==>
               && x.grant.value in w.grants && w.grants[x.grant.value].revokedAt.None?
               && w.grants[x.grant.value].dashboard == x.dashboard && w.grants[x.grant.value].viewer == x.viewer
    ensures ShowsElsewhere(w, op, Effect(w, op), x)
  {
    EffectOnUser(w, op, x.viewer);
    if x.grant.Some? { EffectOnGrant(w, op, x.grant.value); }
    TimeStep(w, op);
  }

  /** What ends a current credential, read off the rows after the call. */
  lemma EndsExactlyWhen(w: World, op: Op, w': World, a: AuthorizationId)
    requires a in w.authorizations && Fits(w, w.authorizations[a]) && !Dead(w, a) && !Paused(w, a) && Changes(w, op)
    requires a in w'.authorizations && Fits(w', w'.authorizations[a])
    requires w'.authorizations[a] == if op.RevokeAuthorization? && op.authorization == a
                                     then w.authorizations[a].(revokedAt := Some(op.at)) else w.authorizations[a]
    requires ShowsElsewhere(w, op, w', w.authorizations[a])
    requires var x := w.authorizations[a]; ShowsInDashboard(op, w.dashboards[x.dashboard], w'.dashboards[x.dashboard], x)
    ensures Dead(w', a) || Paused(w', a) <==> Invalidates(w, op, a)
  {
  }

  /** What a current credential is checked against. */
  ghost predicate Vouched(w: World, a: AuthorizationId) {
    && a in w.authorizations && Fits(w, w.authorizations[a]) && !Dead(w, a) && !Paused(w, a)
    && var x := w.authorizations[a]; var d := w.dashboards[x.dashboard];
       && (d.head.Some? ==> d.head.value in w.transfers)
       && (if x.audience == VIEWER then d.published.Some? else d.state != ARCHIVED && d.state != DELETED)
       && (x.grant.Some? ==> w.grants[x.grant.value].revokedAt.None?)
  }

  lemma CurrentIsVouched(w: World, a: AuthorizationId)
    requires Inv(w) && a in w.authorizations
    ensures Current(w, a) <==> Vouched(w, a)
  {
    CurrentOrDead(w, a);
    HeadIsMarker(w, w.authorizations[a].dashboard);
  }

  lemma VouchedUntilInvalidated(w: World, op: Op, a: AuthorizationId)
    requires Vouched(w, a) && Changes(w, op)
    requires AuthorizationsOk(Effect(w, op))
    ensures a in Effect(w, op).authorizations && Fits(Effect(w, op), Effect(w, op).authorizations[a])
    ensures Dead(Effect(w, op), a) || Paused(Effect(w, op), a) <==> Invalidates(w, op, a)
  {
    var x := w.authorizations[a];
    AuthorizationStep(w, op, a);
    StepShowsInDashboard(w, op, x);
    StepShowsElsewhere(w, op, x);
    EndsExactlyWhen(w, op, Effect(w, op), a);
  }

  /** One call ends a current credential exactly when it is an invalidating one. */
  lemma CurrentUntilInvalidated(w: World, op: Op, a: AuthorizationId)
    requires Inv(w) && Current(w, a) && Changes(w, op)
    ensures Current(Effect(w, op), a) <==> !Invalidates(w, op, a)
  {
    EffectKeepsInv(w, op);
    CurrentIsVouched(w, a);
    VouchedUntilInvalidated(w, op, a);
    CurrentOrDead(Effect(w, op), a);
  }

  // Whole runs.

  /** No call of the run, taken in the state it meets, invalidates the credential. */
  ghost predicate NeverInvalidated(w: World, ops: seq<Op>, a: AuthorizationId)
    decreases |ops|
  {
    ops == [] ||
    (a in w.authorizations && !Invalidates(w, ops[0], a) && NeverInvalidated(Apply(w, ops[0]), ops[1..], a))
  }

  /** Once dead, dead after every run. */
  lemma {:induction false} DeadForever(w: World, ops: seq<Op>, a: AuthorizationId)
    requires Inv(w) && a in w.authorizations && Fits(w, w.authorizations[a]) && Dead(w, a)
    ensures !Current(Run(w, ops), a)
    decreases |ops|
  {
    if ops == [] {
      CurrentOrDead(w, a);
    } else if Changes(w, ops[0]) {
      DeadStaysDead(w, ops[0], a);
      EffectKeepsInv(w, ops[0]);
      DeadForever(Effect(w, ops[0]), ops[1..], a);
    } else {
      DeadForever(w, ops[1..], a);
    }
  }

  ghost predicate NoRestore(ops: seq<Op>) {
    forall i :: 0 <= i < |ops| ==> !ops[i].Restore?
  }

  lemma PutAwayStays(w: World, op: Op, d: DashboardId)
    requires Changes(w, op) && !op.Restore? && PutAway(w.dashboards, d)
    ensures PutAway(Effect(w, op).dashboards, d)
  {
    if !Rewrites(op, d) { OtherDashboards(w, op, d); }
  }

  lemma PausedStep(w: World, op: Op, a: AuthorizationId)
    requires Changes(w, op) && !op.Restore? && a in w.authorizations && Paused(w, a)
    ensures a in Effect(w, op).authorizations && Paused(Effect(w, op), a)
  {
    AuthorizationStep(w, op, a);
    PutAwayStays(w, op, w.authorizations[a].dashboard);
  }

  lemma PausedIsNotCurrent(w: World, a: AuthorizationId)
    requires a in w.authorizations && Paused(w, a)
    ensures !Current(w, a)
  {
  }

  lemma {:induction false} PausedForever(w: World, ops: seq<Op>, a: AuthorizationId)
    requires NoRestore(ops) && a in w.authorizations && Paused(w, a)
    ensures !Current(Run(w, ops), a)
    decreases |ops|
  {
    if ops == [] {
      PausedIsNotCurrent(w, a);
    } else {
      if Changes(w, ops[0]) { PausedStep(w, ops[0], a); }
      assert NoRestore(ops[1..]);
      PausedForever(Apply(w, ops[0]), ops[1..], a);
    }
  }

  /** A credential that is not current never becomes current again; a preview needs that no archived
      dashboard is restored. */
  lemma NeverRevives(w: World, ops: seq<Op>, a: AuthorizationId)
    requires Inv(w) && a in w.authorizations && !Current(w, a)
    requires w.authorizations[a].audience == VIEWER || NoRestore(ops)
    ensures !Current(Run(w, ops), a)
  {
    CurrentOrDead(w, a);
    if Dead(w, a) { DeadForever(w, ops, a); } else { PausedForever(w, ops, a); }
  }

  lemma LifetimeStep(w: World, op: Op, a: AuthorizationId)
    requires Inv(w) && Current(w, a)
    ensures Inv(Apply(w, op)) && a in Apply(w, op).authorizations
    ensures Apply(w, op).authorizations[a].audience == w.authorizations[a].audience
    ensures Current(Apply(w, op), a) <==> !Invalidates(w, op, a)
  {
    if Changes(w, op) {
      CurrentUntilInvalidated(w, op, a);
      EffectKeepsInv(w, op);
      AuthorizationStep(w, op, a);
    }
  }

  /** A current credential is current after a run exactly when no call of the run invalidated it, for
      runs of any length, through transfers back and forth, regrants and republications. */
  lemma {:induction false} CredentialLifetime(w: World, ops: seq<Op>, a: AuthorizationId)
    requires Inv(w) && Current(w, a)
    requires w.authorizations[a].audience == VIEWER || NoRestore(ops)
    ensures Current(Run(w, ops), a) <==> NeverInvalidated(w, ops, a)
    decreases |ops|
  {
    if ops != [] {
      LifetimeStep(w, ops[0], a);
      if Invalidates(w, ops[0], a) {
        NeverRevives(Apply(w, ops[0]), ops[1..], a);
      } else {
        CredentialLifetime(Apply(w, ops[0]), ops[1..], a);
      }
    }
  }

  // Previews through archiving and restoring.

  /** The call ends a preview for good; archiving only pauses it. */
  ghost predicate Kills(w: World, op: Op, a: AuthorizationId)
    requires a in w.authorizations
  {
    var x := w.authorizations[a];
    && Changes(w, op)
    && ((op.Tick? && x.expiresAt <= op.to) || (op.RevokeAuthorization? && op.authorization == a)
        || TouchesUser(op, x.viewer) || MovesOwner(op, x.dashboard))
  }

  ghost predicate NeverKilled(w: World, ops: seq<Op>, a: AuthorizationId)
    decreases |ops|
  {
    ops == [] || (a in w.authorizations && !Kills(w, ops[0], a) && NeverKilled(Apply(w, ops[0]), ops[1..], a))
  }

  lemma PreviewEndsExactlyWhen(w: World, op: Op, w': World, a: AuthorizationId)
    requires a in w.authorizations && Fits(w, w.authorizations[a]) && !Dead(w, a) && Changes(w, op)
    requires w.authorizations[a].audience == PREVIEW
    requires a in w'.authorizations && Fits(w', w'.authorizations[a])
    requires w'.authorizations[a] == if op.RevokeAuthorization? && op.authorization == a
                                     then w.authorizations[a].(revokedAt := Some(op.at)) else w.authorizations[a]
    requires ShowsElsewhere(w, op, w', w.authorizations[a])
    requires var d := w.authorizations[a].dashboard;
             w'.dashboards[d].head != w.dashboards[d].head <==> MovesOwner(op, d)
    ensures Dead(w', a) <==> Kills(w, op, a)
  {
  }

  lemma AliveStep(w: World, op: Op, a: AuthorizationId)
    requires Changes(w, op) && a in w.authorizations && w.authorizations[a].audience == PREVIEW
    requires Fits(w, w.authorizations[a]) && !Dead(w, a) && AuthorizationsOk(Effect(w, op))
    requires var d := w.dashboards[w.authorizations[a].dashboard]; d.head.Some? ==> d.head.value in w.transfers
    ensures a in Effect(w, op).authorizations && Effect(w, op).authorizations[a].audience == PREVIEW
    ensures Fits(Effect(w, op), Effect(w, op).authorizations[a]) && (Dead(Effect(w, op), a) <==> Kills(w, op, a))
  {
    AuthorizationStep(w, op, a);
    StepShowsElsewhere(w, op, w.authorizations[a]);
    EffectOnHead(w, op, w.authorizations[a].dashboard);
    PreviewEndsExactlyWhen(w, op, Effect(w, op), a);
  }

  lemma AliveUntilKilled(w: World, op: Op, a: AuthorizationId)
    requires Inv(w) && Changes(w, op) && a in w.authorizations && w.authorizations[a].audience == PREVIEW && !Dead(w, a)
    ensures Inv(Effect(w, op)) && a in Effect(w, op).authorizations && Effect(w, op).authorizations[a].audience == PREVIEW
    ensures Dead(Effect(w, op), a) <==> Kills(w, op, a)
  {
    EffectKeepsInv(w, op);
    HeadIsMarker(w, w.authorizations[a].dashboard);
    AliveStep(w, op, a);
  }

  /** Over every run, restores included: a preview that is not dead is current at its end exactly when
      nothing killed it and its dashboard is then neither archived nor deleted.  So what archiving takes
      away, restoring gives back, and nothing else does. */
  lemma {:induction false} PreviewLifetime(w: World, ops: seq<Op>, a: AuthorizationId)
    requires Inv(w) && a in w.authorizations && w.authorizations[a].audience == PREVIEW && !Dead(w, a)
    ensures Current(Run(w, ops), a) <==>
              NeverKilled(w, ops, a) && !PutAway(Run(w, ops).dashboards, w.authorizations[a].dashboard)
    decreases |ops|
  {
    if ops == [] {
      CurrentOrDead(w, a);
    } else if Changes(w, ops[0]) {
      AliveUntilKilled(w, ops[0], a);
      AuthorizationStep(w, ops[0], a);
      CurrentOrDead(Effect(w, ops[0]), a);
      if Kills(w, ops[0], a) {
        DeadForever(Effect(w, ops[0]), ops[1..], a);
      } else {
        PreviewLifetime(Effect(w, ops[0]), ops[1..], a);
      }
    } else {
      PreviewLifetime(w, ops[1..], a);
    }
  }

  // Issuing.

  lemma IssuedFits(w: World, op: Op)
    requires Inv(w) && Changes(w, op) && (op.IssuePreview? || op.IssueView?)
    ensures op.id in Effect(w, op).authorizations && Fits(Effect(w, op), Effect(w, op).authorizations[op.id])
  {
    AuthorizationsKept(w, op);
  }

  lemma IssuedPreviewIsFresh(w: World, op: Op)
    requires Changes(w, op) && op.IssuePreview?
    requires op.id in Effect(w, op).authorizations && Fits(Effect(w, op), Effect(w, op).authorizations[op.id])
    ensures Dead(Effect(w, op), op.id) <==> op.expiresAt <= w.now
    ensures !Paused(Effect(w, op), op.id)
  {
  }

  lemma IssuedViewIsFresh(w: World, op: Op)
    requires Changes(w, op) && op.IssueView?
    requires op.id in Effect(w, op).authorizations && Fits(Effect(w, op), Effect(w, op).authorizations[op.id])
    ensures Dead(Effect(w, op), op.id) <==> op.expiresAt <= w.now
    ensures !Paused(Effect(w, op), op.id)
  {
  }

  /** A preview or view just issued is current exactly when its expiry lies ahead. */
  lemma IssuedIsCurrent(w: World, op: Op)
    requires Inv(w) && Changes(w, op) && (op.IssuePreview? || op.IssueView?)
    ensures Current(Effect(w, op), op.id) <==> w.now < op.expiresAt
  {
    IssuedFits(w, op);
    EffectKeepsInv(w, op);
    CurrentOrDead(Effect(w, op), op.id);
    if op.IssuePreview? { IssuedPreviewIsFresh(w, op); } else { IssuedViewIsFresh(w, op); }
  }

  lemma IssuedThen(w: World, before: seq<Op>, issue: Op, after: seq<Op>)
    requires Init(w) && (issue.IssuePreview? || issue.IssueView?) && Changes(Run(w, before), issue)
    ensures var v := Run(w, before);
            && Inv(v) && Run(w, before + [issue]) == Effect(v, issue) && Inv(Effect(v, issue))
            && Run(w, before + [issue] + after) == Run(Effect(v, issue), after)
            && issue.id in Effect(v, issue).authorizations
            && (Effect(v, issue).authorizations[issue.id].audience == if issue.IssueView? then VIEWER else PREVIEW)
  {
    InitInv(w);
    RunKeepsInv(w, before);
    RunAppend(w, before, issue);
    EffectKeepsInv(Run(w, before), issue);
    RunConcat(w, before + [issue], after);
  }

  /** The whole life of a credential: issued at any point of any run from empty tables, it is current at
      any later point exactly when it was issued unexpired and no call since has invalidated it. */
  lemma CurrentExactlyUntilInvalidated(w: World, before: seq<Op>, issue: Op, after: seq<Op>)
    requires Init(w) && (issue.IssuePreview? || issue.IssueView?) && Changes(Run(w, before), issue)
    requires issue.IssueView? || NoRestore(after)
    ensures Current(Run(w, before + [issue] + after), issue.id) <==>
              Run(w, before).now < issue.expiresAt && NeverInvalidated(Run(w, before + [issue]), after, issue.id)
  {
    var v := Run(w, before);
    IssuedThen(w, before, issue, after);
    IssuedIsCurrent(v, issue);
    if v.now < issue.expiresAt {
      CredentialLifetime(Effect(v, issue), after, issue.id);
    } else {
      NeverRevives(Effect(v, issue), after, issue.id);
    }
  }

  /** For a preview the same holds with restores: it is current exactly when it was issued unexpired,
      nothing has killed it, and its dashboard is not archived or deleted at present. */
  lemma PreviewCurrentExactlyWhen(w: World, before: seq<Op>, issue: Op, after: seq<Op>)
    requires Init(w) && issue.IssuePreview? && Changes(Run(w, before), issue)
    ensures Current(Run(w, before + [issue] + after), issue.id) <==>
              && Run(w, before).now < issue.expiresAt
              && NeverKilled(Run(w, before + [issue]), after, issue.id)
              && !PutAway(Run(w, before + [issue] + after).dashboards, issue.dashboard)
  {
    var v := Run(w, before);
    IssuedThen(w, before, issue, after);
    IssuedFits(v, issue);
    IssuedPreviewIsFresh(v, issue);
    if v.now < issue.expiresAt {
      PreviewLifetime(Effect(v, issue), after, issue.id);
      assert Effect(v, issue).authorizations[issue.id].dashboard == issue.dashboard;
    } else {
      DeadForever(Effect(v, issue), after, issue.id);
    }
  }

  /** A view that may be issued can always record its open: the capture inside
      `issue_published_view` never fails. */
  lemma IssuedViewCanSourceOpen(w: World, d: DashboardId, v: UserId, expiresAt: Time)
    requires Inv(w) && d in w.dashboards && w.dashboards[d].state == PUBLISHED && w.dashboards[d].published.Some?
    requires IsActive(w.users, v) && CanViewPublished(w, d, v, BoundGrant(w, d, v))
    ensures CanSourceOpen(w, NewView(w, d, v, expiresAt))
  {
    assert DashboardOk(w.users, w.revisions, d, w.dashboards[d]);
  }

  // The one exception: archiving and restoring.

  ghost function PreviewWorld(): World {
    World(0, map[1 := User(true, true, 1)],
          map[1 := Dashboard(1, DRAFT, Some(1), None, None, 0, None, None, None)],
          map[1 := Revision(1, 1, 1, true)], map[], map[], map[],
          map[1 := Authorization(PREVIEW, 1, 1, 1, 1, None, None, None, 0, 900, None, false)], map[])
  }

  lemma ArchiveAndRestore()
    ensures var w := PreviewWorld(); var w1 := SetDashboard(w, 1, w.dashboards[1].(state := ARCHIVED));
            Apply(w, Archive(1)) == w1 && Apply(w1, Restore(1)) == w && !Current(w1, 1) && Current(w, 1)
  {
  }

  ghost function EmptyTables(): World {
    World(0, map[], map[], map[], map[], map[], map[], map[], map[])
  }

  ghost function AccountWorld(): World {
    EmptyTables().(users := map[1 := User(true, true, 1)])
  }

  ghost function DraftWorld(): World {
    AccountWorld().(dashboards := map[1 := Dashboard(1, DRAFT, None, None, None, 0, None, None, None)])
  }

  ghost function RevisedWorld(): World {
    AccountWorld().(
      dashboards := map[1 := Dashboard(1, DRAFT, Some(1), None, None, 0, None, None, None)],
      revisions := map[1 := Revision(1, 1, 1, true)])
  }

  lemma Provisions()
    ensures Apply(EmptyTables(), ProvisionUser(1, true)) == AccountWorld()
    ensures Apply(AccountWorld(), CreateDashboard(1, 1)) == DraftWorld()
  {
  }

  lemma Revises()
    ensures Apply(DraftWorld(), CreateRevision(1, 1, 1)) == RevisedWorld()
  {
  }

  lemma IssuesPreview()
    ensures Apply(RevisedWorld(), IssuePreview(1, 1, 1, 900, 1)) == PreviewWorld()
  {
  }

  /** A new owner makes a dashboard and a revision and is issued a preview. */
  ghost function Preparation(): seq<Op> {
    [ProvisionUser(1, true)] + ([CreateDashboard(1, 1)] + ([CreateRevision(1, 1, 1)] + ([IssuePreview(1, 1, 1, 900, 1)] + [])))
  }

  lemma Prepared()
    ensures Init(EmptyTables()) && Run(EmptyTables(), Preparation()) == PreviewWorld()
  {
    var third := [IssuePreview(1, 1, 1, 900, 1)] + [];
    var second := [CreateRevision(1, 1, 1)] + third;
    var first := [CreateDashboard(1, 1)] + second;
    Provisions();
    Revises();
    IssuesPreview();
    RunOne(EmptyTables(), ProvisionUser(1, true), first);
    RunOne(AccountWorld(), CreateDashboard(1, 1), second);
    RunOne(DraftWorld(), CreateRevision(1, 1, 1), third);
    RunOne(RevisedWorld(), IssuePreview(1, 1, 1, 900, 1), []);
  }

  /** A preview outlives archiving, in a run from empty tables: it stops being current and, once the dashboard
      is restored, is current again. */
  lemma PreviewSurvivesArchive()
    ensures var w, prepared := EmptyTables(), Preparation();
            && Init(w) && Current(Run(w, prepared), 1)
            && !Current(Run(w, prepared + [Archive(1)]), 1)
            && Current(Run(w, prepared + [Archive(1), Restore(1)]), 1)
  {
    Prepared();
    ArchiveAndRestore();
    var w1 := Apply(PreviewWorld(), Archive(1));
    RunConcat(EmptyTables(), Preparation(), [Archive(1)]);
    RunConcat(EmptyTables(), Preparation(), [Archive(1), Restore(1)]);
    RunOne(PreviewWorld(), Archive(1), []);
    RunOne(PreviewWorld(), Archive(1), [Restore(1)]);
    RunOne(w1, Restore(1), []);
    assert [Archive(1)] + [Restore(1)] == [Archive(1), Restore(1)];
  }

  lemma RunOne(w: World, op: Op, ops: seq<Op>)
    ensures Run(w, [op] + ops) == Run(Apply(w, op), ops)
  {
    assert ([op] + ops)[1..] == ops;
  }
}
