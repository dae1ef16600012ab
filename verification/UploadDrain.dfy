/** What the cleaner comes to: which rows are left in the end, and which files are gone. */
module UploadDrain {
  import opened Wrappers
  import opened UploadProtocol
  import opened UploadSafety
  import opened UploadCleaner
  import UploadTheorems

  // What a drained table means for rows and files

  /** The reservations that have expired. */
  function Expired(rows: Rows, cutoff: Time): set<ReservationId> {
    set r | r in rows && rows[r].expiresAt <= cutoff
  }

  /** Every expired row has been quarantined: a write of it may still be going on. */
  predicate OnlyQuarantined(rows: Rows, cutoff: Time) {
    forall r :: r in rows && rows[r].expiresAt <= cutoff ==> rows[r].state == RESERVED && rows[r].cleanupRequired
  }

  lemma DrainedMeans(rows: Rows, cutoff: Time)
    ensures Actionable(rows, cutoff) == {} <==> OnlyQuarantined(rows, cutoff)
  {
    if OnlyQuarantined(rows, cutoff) {
      assert forall r :: r !in Actionable(rows, cutoff);
    } else {
      var r :| r in rows && rows[r].expiresAt <= cutoff && !(rows[r].state == RESERVED && rows[r].cleanupRequired);
      assert r in Actionable(rows, cutoff);
    }
  }

  lemma FewerThanExpired(rows: Rows, cutoff: Time)
    ensures |Actionable(rows, cutoff)| <= |Expired(rows, cutoff)|
  {
    SmallerSet(Actionable(rows, cutoff), Expired(rows, cutoff));
  }

  /** A file that a write has put in place belongs to an artifact, or its reservation still names it. */
  ghost predicate LinkKept(w: World, k: Key) {
    k in w.final && k in w.linkedBy ==>
      k !in w.alienFinal && (k !in w.artifacts ==> w.linkedBy[k] in w.rows && w.rows[w.linkedBy[k]].key == k)
  }

  lemma CompensateKeepsLink(w: World, r: ReservationId, out: CleanupOutcome, k: Key)
    requires Bookkeeping(w) && Enabled(w, Compensate(r, out)) && LinkKept(w, k)
    ensures LinkKept(CompensateOne(w, r, out), k)
  {
    assert CandidateOk(w, r);
    if r in w.rows { assert RowOk(w, r); }
  }

  lemma CleanKeepsLink(w: World, r: ReservationId, cutoff: Time, out: CleanupOutcome, k: Key)
    requires Bookkeeping(w) && Enabled(w, Clean(r, cutoff, out)) && LinkKept(w, k)
    ensures LinkKept(CleanOne(w, r, out), k)
  {
    assert RowOk(w, r);
    if r in w.candidates { assert CandidateOk(w, r); }
    CleaningKeepsLink(w, r, out, k);
  }

  /** A row is dropped without its file only for an artifact or after a collision. */
  lemma CleaningKeepsLink(w: World, r: ReservationId, out: CleanupOutcome, k: Key)
    requires r in w.rows && out.Possible() && LinkKept(w, k)
    requires w.rows[r].state == COLLISION && k !in w.artifacts ==> !(k in w.final && k in w.linkedBy && w.linkedBy[k] == r)
    ensures LinkKept(CleanOne(w, r, out), k)
  {
  }

  lemma CommitKeepsLink(w: World, a: AttemptId, acknowledged: bool, k: Key)
    requires Bookkeeping(w) && CommitReady(w, a) && LinkKept(w, k)
    ensures LinkKept(CommitRows(w, a, acknowledged), k)
  {
    if k in w.final && k in w.linkedBy && Owner(w, w.linkedBy[k], a) { CommitNames(w, a, w.linkedBy[k]); }
  }

  lemma LinkingKeepsLink(w: World, r: ReservationId, k: Key)
    requires Bookkeeping(w) && Enabled(w, LinkFinal(r)) && LinkKept(w, k)
    ensures LinkKept(Next(w, LinkFinal(r)), k)
  {
    assert CandidateOk(w, r);
  }

  lemma FailingKeepsLink(w: World, l: Label, k: Key)
    requires Enabled(w, l) && FailsOrFinishes(l) && LinkKept(w, k)
    ensures LinkKept(Next(w, l), k)
  {
    match l
    case WriteFails(_, _) =>
    case LinkCollides(_, _) =>
    case _ =>
  }

  lemma EndingKeepsLink(w: World, l: Label, k: Key)
    requires Bookkeeping(w) && Enabled(w, l) && EndsReservations(l) && LinkKept(w, k)
    ensures LinkKept(Next(w, l), k)
  {
    match l
    case Compensate(r, out) => CompensateKeepsLink(w, r, out, k);
    case Clean(r, cutoff, out) => CleanKeepsLink(w, r, cutoff, out, k);
    case Commit(a, acknowledged) => CommitKeepsLink(w, a, acknowledged, k);
  }

  lemma LinkKeptStep(w: World, l: Label, k: Key)
    requires Bookkeeping(w) && Enabled(w, l) && LinkKept(w, k)
    ensures LinkKept(Next(w, l), k)
  {
    if EndsReservations(l) {
      EndingKeepsLink(w, l, k);
    } else if l.LinkFinal? {
      LinkingKeepsLink(w, l.id, k);
    } else if FailsOrFinishes(l) {
      FailingKeepsLink(w, l, k);
    } else {
      assert forall r :: r in w.rows ==> RowOk(w, r);
      RecordingKeepsLink(w, l, k);
    }
  }

  lemma RecordingKeepsLink(w: World, l: Label, k: Key)
    requires Enabled(w, l) && !EndsReservations(l) && !FailsOrFinishes(l) && !l.LinkFinal? && LinkKept(w, k)
    requires forall r :: r in w.rows ==> r in w.usedIds
    ensures LinkKept(Next(w, l), k)
  {
  }

  lemma {:induction false} LinkKeptRun(w: World, steps: seq<Label>, k: Key)
    requires Bookkeeping(w) && LinkKept(w, k)
    ensures LinkKept(Run(w, steps), k)
    decreases |steps|
  {
    if steps != [] {
      if Enabled(w, steps[0]) {
        LinkKeptStep(w, steps[0], k);
        StepKeepsBookkeeping(w, steps[0]);
        LinkKeptRun(Next(w, steps[0]), steps[1..], k);
      } else {
        LinkKeptRun(w, steps[1..], k);
      }
    }
  }

  /** In every reachable state each file that a write has put in place and no artifact has is named by the
      reservation of that write. */
  lemma LinkedFilesAreNamed(start: World, steps: seq<Label>, k: Key)
    requires Init(start)
    ensures LinkKept(Run(start, steps), k)
  {
    InitInv(start);
    LinkKeptRun(start, steps, k);
  }

  /** An OWNED row stays so until it is deleted, and its id does not come back. */
  ghost predicate OwnedOrGone(w: World, r: ReservationId, expiresAt: Time) {
    r in w.usedIds && (r in w.rows ==> w.rows[r].state == OWNED && w.rows[r].expiresAt == expiresAt)
  }

  lemma OwnedEnds(w: World, l: Label, r: ReservationId, expiresAt: Time)
    requires Enabled(w, l) && (l.Compensate? || l.Clean?) && OwnedOrGone(w, r, expiresAt)
    ensures OwnedOrGone(Next(w, l), r, expiresAt)
  {
    match l
    case Compensate(q, out) =>
      CompensateSettles(w, q, out);
      UsedKept(w, l);
    case Clean(q, _, out) =>
      CleanSettles(w, q, out);
      UsedKept(w, l);
  }

  lemma UsedKept(w: World, l: Label)
    requires Enabled(w, l) && (l.Compensate? || l.Clean?)
    ensures Next(w, l).usedIds == w.usedIds
  {
    match l
    case Compensate(_, _) =>
    case Clean(_, _, _) =>
  }

  lemma OwnedFails(w: World, l: Label, r: ReservationId, expiresAt: Time)
    requires Enabled(w, l) && FailsOrFinishes(l) && OwnedOrGone(w, r, expiresAt)
    ensures OwnedOrGone(Next(w, l), r, expiresAt)
  {
    match l
    case WriteFails(_, _) =>
    case LinkCollides(_, _) =>
    case _ =>
  }

  lemma OwnedStep(w: World, l: Label, r: ReservationId, expiresAt: Time)
    requires Enabled(w, l) && OwnedOrGone(w, r, expiresAt)
    ensures OwnedOrGone(Next(w, l), r, expiresAt)
  {
    match l
    case Compensate(_, _) => OwnedEnds(w, l, r, expiresAt);
    case Clean(_, _, _) => OwnedEnds(w, l, r, expiresAt);
    case WriteFails(_, _) => OwnedFails(w, l, r, expiresAt);
    case LinkCollides(_, _) => OwnedFails(w, l, r, expiresAt);
    case FinishWrite(_) => OwnedFails(w, l, r, expiresAt);
    case FinishFails(_, _) => OwnedFails(w, l, r, expiresAt);
    case _ =>
  }

  lemma {:induction false} OwnedRun(w: World, steps: seq<Label>, r: ReservationId, expiresAt: Time)
    requires OwnedOrGone(w, r, expiresAt)
    ensures OwnedOrGone(Run(w, steps), r, expiresAt)
    decreases |steps|
  {
    if steps != [] {
      if Enabled(w, steps[0]) {
        OwnedStep(w, steps[0], r, expiresAt);
        OwnedRun(Next(w, steps[0]), steps[1..], r, expiresAt);
      } else {
        OwnedRun(w, steps[1..], r, expiresAt);
      }
    }
  }

  /** The file of a reservation that was OWNED and had expired. */
  predicate WasOrphan(rows: Rows, linkedBy: map<Key, ReservationId>, cutoff: Time, k: Key) {
    k in linkedBy && linkedBy[k] in rows && rows[linkedBy[k]].state == OWNED && rows[linkedBy[k]].expiresAt <= cutoff
  }

  ghost predicate NoOrphans(before: Rows, w: World, cutoff: Time) {
    forall k :: k in w.final && WasOrphan(before, w.linkedBy, cutoff, k) ==> k in w.artifacts
  }

  /** Once only quarantined rows are left of the expired ones, no final file remains of a reservation that was
      OWNED and had expired before, except those of artifacts. */
  lemma NoOrphanRemains(start: World, before: seq<Label>, meanwhile: seq<Label>, cutoff: Time)
    requires Init(start) && OnlyQuarantined(Run(start, before + meanwhile).rows, cutoff)
    ensures NoOrphans(Run(start, before).rows, Run(start, before + meanwhile), cutoff)
  {
    var v, w := Run(start, before), Run(start, before + meanwhile);
    UploadTheorems.RunConcat(start, before, meanwhile);
    InitInv(start);
    UploadTheorems.RunKeepsBookkeeping(start, before);
    forall k | k in w.final && WasOrphan(v.rows, w.linkedBy, cutoff, k) ensures k in w.artifacts {
      var r := w.linkedBy[k];
      LinkedFilesAreNamed(start, before + meanwhile, k);
      assert RowOk(v, r);
      OwnedRun(v, meanwhile, r, v.rows[r].expiresAt);
    }
  }

  // Quiet series, by the steps alone

  lemma {:induction false} NoLateSplit(w: World, first: seq<Label>, second: seq<Label>, cutoff: Time)
    requires NoLateCollision(w, first + second, cutoff)
    ensures NoLateCollision(w, first, cutoff) && NoLateCollision(Run(w, first), second, cutoff)
    decreases |first|
  {
    if first == [] {
      assert first + second == second;
    } else {
      assert (first + second)[0] == first[0] && (first + second)[1..] == first[1..] + second;
      NoLateSplit(if Enabled(w, first[0]) then Next(w, first[0]) else w, first[1..], second, cutoff);
    }
  }

  lemma {:induction false} TimeRuns(w: World, steps: seq<Label>)
    ensures w.now <= Run(w, steps).now
    decreases |steps|
  {
    if steps != [] {
      if Enabled(w, steps[0]) { TimeGoesOn(w, steps[0]); }
      TimeRuns(if Enabled(w, steps[0]) then Next(w, steps[0]) else w, steps[1..]);
    }
  }

  /** No late collision is reported between two moments, the first no earlier than the cutoff. */
  ghost predicate CalmBetween(start: World, first: seq<Label>, last: seq<Label>, cutoff: Time) {
    first <= last && cutoff <= Run(start, first).now && NoLateCollision(Run(start, first), last[|first|..], cutoff)
  }

  lemma CalmWithin(start: World, first: seq<Label>, a: seq<Label>, b: seq<Label>, last: seq<Label>, cutoff: Time)
    requires CalmBetween(start, first, last, cutoff) && first <= a <= b <= last
    ensures CalmBetween(start, a, b, cutoff)
  {
    var x, y, z := a[|first|..], b[|a|..], last[|b|..];
    assert a == first + x;
    assert last[|first|..] == x + (y + z);
    UploadTheorems.RunConcat(start, first, x);
    TimeRuns(Run(start, first), x);
    NoLateSplit(Run(start, first), x, y + z, cutoff);
    NoLateSplit(Run(start, a), y, z, cutoff);
  }

  lemma {:induction false} TurnsWithin(start: World, first: seq<Label>, turns: seq<Turn>, ids: seq<ReservationId>, cutoff: Time, last: seq<Label>, i: nat)
    requires Consecutive(start, first, turns, ids, cutoff, last) && i < |turns|
    ensures first <= turns[i].before <= turns[i].locked <= turns[i].after
    decreases i
  {
    assert IsTurn(start, turns[i], ids[i], cutoff);
    if i > 0 { TurnsWithin(start, first, turns, ids, cutoff, last, i - 1); }
  }

  lemma {:induction false} TurnsBefore(start: World, first: seq<Label>, turns: seq<Turn>, ids: seq<ReservationId>, cutoff: Time, last: seq<Label>, i: nat)
    requires Consecutive(start, first, turns, ids, cutoff, last) && i < |turns|
    ensures turns[i].after <= last
    decreases |turns| - i
  {
    if i + 1 < |turns| {
      assert IsTurn(start, turns[i + 1], ids[i + 1], cutoff);
      TurnsBefore(start, first, turns, ids, cutoff, last, i + 1);
    }
  }

  lemma CalmTurns(start: World, first: seq<Label>, turns: seq<Turn>, ids: seq<ReservationId>, cutoff: Time, last: seq<Label>)
    requires Consecutive(start, first, turns, ids, cutoff, last) && CalmBetween(start, first, last, cutoff)
    ensures forall i :: 0 <= i < |turns| ==> Quiet(start, turns[i], cutoff)
  {
    forall i | 0 <= i < |turns| ensures Quiet(start, turns[i], cutoff) {
      TurnsWithin(start, first, turns, ids, cutoff, last, i);
      TurnsBefore(start, first, turns, ids, cutoff, last, i);
      CalmWithin(start, first, turns[i].before, turns[i].locked, last, cutoff);
      TurnIsQuiet(start, turns[i], cutoff);
    }
  }

  lemma CalmPass(start: World, before: seq<Label>, pass: Pass, cutoff: Time, limit: nat)
    requires IsPass(start, before, pass, cutoff, limit) && CalmBetween(start, before, pass.end, cutoff) && pass.gap.after <= pass.end
    ensures Quiet(start, pass.gap, cutoff) && forall j :: 0 <= j < |pass.turns| ==> Quiet(start, pass.turns[j], cutoff)
  {
    CalmWithin(start, before, before, pass.gap.locked, pass.end, cutoff);
    TurnIsQuiet(start, pass.gap, cutoff);
    CalmWithin(start, before, pass.gap.after, pass.end, pass.end, cutoff);
    CalmTurns(start, pass.gap.after, pass.turns, pass.ids, cutoff, pass.end);
  }

  lemma PassGoesOn(start: World, before: seq<Label>, pass: Pass, cutoff: Time, limit: nat)
    requires IsPass(start, before, pass, cutoff, limit)
    ensures before <= pass.gap.after <= pass.end
  {
    var n := |pass.turns|;
    if n > 0 {
      TurnsWithin(start, pass.gap.after, pass.turns, pass.ids, cutoff, pass.end, n - 1);
      TurnsBefore(start, pass.gap.after, pass.turns, pass.ids, cutoff, pass.end, n - 1);
    }
  }

  lemma {:induction false} PassesGoOn(start: World, first: seq<Label>, passes: seq<Pass>, cutoff: Time, limits: seq<nat>)
    requires ArePasses(start, first, passes, cutoff, limits)
    ensures first <= EndOf(first, passes)
    decreases |passes|
  {
    if passes != [] {
      var n := |passes| - 1;
      PassesGoOn(start, first, passes[..n], cutoff, limits);
      PassGoesOn(start, EndOf(first, passes[..n]), passes[n], cutoff, limits[n]);
    }
  }

  lemma SplitsLast<T>(s: seq<T>)
    requires s != []
    ensures s == s[..|s| - 1] + [s[|s| - 1]]
  {
  }

  lemma SplitsAt<T>(first: seq<T>, all: seq<T>)
    requires first <= all
    ensures all == first + all[|first|..]
  {
  }

  lemma QuietGrows(start: World, passes: seq<Pass>, cutoff: Time, pass: Pass)
    requires AllQuiet(start, passes, cutoff) && Quiet(start, pass.gap, cutoff)
    requires forall j :: 0 <= j < |pass.turns| ==> Quiet(start, pass.turns[j], cutoff)
    ensures AllQuiet(start, passes + [pass], cutoff)
  {
  }

  /** A series of runs during which no late collision is reported is quiet. */
  lemma {:induction false} CalmSeries(start: World, first: seq<Label>, passes: seq<Pass>, cutoff: Time, limits: seq<nat>)
    requires ArePasses(start, first, passes, cutoff, limits) && CalmBetween(start, first, EndOf(first, passes), cutoff)
    ensures AllQuiet(start, passes, cutoff)
    decreases |passes|
  {
    if passes != [] {
      var n := |passes| - 1;
      var init, middle, last := passes[..n], EndOf(first, passes[..n]), passes[n];
      SplitsLast(passes);
      CalmLast(start, first, init, middle, last, cutoff, limits);
      CalmSeries(start, first, init, cutoff, limits);
      QuietGrows(start, init, cutoff, last);
    }
  }

  lemma CalmLast(start: World, first: seq<Label>, init: seq<Pass>, middle: seq<Label>, last: Pass, cutoff: Time, limits: seq<nat>)
    requires ArePasses(start, first, init, cutoff, limits) && middle == EndOf(first, init) && |init| < |limits|
    requires IsPass(start, middle, last, cutoff, limits[|init|]) && CalmBetween(start, first, last.end, cutoff)
    ensures CalmBetween(start, first, middle, cutoff) && Quiet(start, last.gap, cutoff)
    ensures forall j :: 0 <= j < |last.turns| ==> Quiet(start, last.turns[j], cutoff)
  {
    PassesGoOn(start, first, init, cutoff, limits);
    PassGoesOn(start, middle, last, cutoff, limits[|init|]);
    CalmWithin(start, first, first, middle, last.end, cutoff);
    CalmWithin(start, first, middle, last.end, last.end, cutoff);
    CalmPass(start, middle, last, cutoff, limits[|init|]);
  }

  lemma SelectionMeans(rows: Rows, cutoff: Time, limit: nat, ids: seq<ReservationId>)
    requires IsSelection(rows, cutoff, limit, ids)
    ensures forall i :: 0 <= i < |ids| ==>
              ids[i] in rows && rows[ids[i]].expiresAt <= cutoff && !(rows[ids[i]].state == RESERVED && rows[ids[i]].cleanupRequired)
    ensures forall r :: r in rows && rows[r].expiresAt <= cutoff && r !in ids ==>
              || (rows[r].state == RESERVED && rows[r].cleanupRequired)
              || (|ids| == limit && forall i :: 0 <= i < |ids| ==> rows[ids[i]].expiresAt <= rows[r].expiresAt)
  {
    assert forall i :: 0 <= i < |ids| ==> ids[i] in Actionable(rows, cutoff);
    forall r | r in rows && rows[r].expiresAt <= cutoff && r !in ids && !(rows[r].state == RESERVED && rows[r].cleanupRequired)
      ensures |ids| == limit && forall i :: 0 <= i < |ids| ==> rows[ids[i]].expiresAt <= rows[r].expiresAt
    {
      assert r in Actionable(rows, cutoff);
      DistinctIds(ids);
      if |ids| < limit {
        SmallerSet(IdSet(ids), Actionable(rows, cutoff) - {r});
      }
      assert forall i :: 0 <= i < |ids| ==> Earlier(rows, ids[i], r);
    }
  }

  lemma DrainEnds(start: World, before: seq<Label>, after: seq<Label>, cutoff: Time)
    requires Init(start) && before <= after && ActionableAt(start, after, cutoff) == {}
    ensures OnlyQuarantined(Run(start, after).rows, cutoff) && NoOrphans(Run(start, before).rows, Run(start, after), cutoff)
  {
    DrainedMeans(Run(start, after).rows, cutoff);
    SplitsAt(before, after);
    NoOrphanRemains(start, before, after[|before|..], cutoff);
  }

  /** The end of a run that had room for all expired rows. */
  lemma AllSelected(start: World, before: seq<Label>, turns: seq<Turn>, ids: seq<ReservationId>, cutoff: Time, after: seq<Label>, limit: nat)
    requires Init(start) && Consecutive(start, before, turns, ids, cutoff, after) && |turns| == |ids|
    requires DeletesWorked(start, turns, ids) && CalmBetween(start, before, after, cutoff)
    requires |Expired(Run(start, before).rows, cutoff)| <= limit
    requires WentWell(start, turns, ids, cutoff) ==>
               |ActionableAt(start, after, cutoff)| <= Minus(|ActionableAt(start, before, cutoff)|, limit)
    ensures OnlyQuarantined(Run(start, after).rows, cutoff) && NoOrphans(Run(start, before).rows, Run(start, after), cutoff)
  {
    CalmTurns(start, before, turns, ids, cutoff, after);
    FewerThanExpired(Run(start, before).rows, cutoff);
    DrainEnds(start, before, after, cutoff);
  }

  /** The end of a series with as many runs as there were expired rows. */
  lemma AllDrained(start: World, before: seq<Label>, passes: seq<Pass>, cutoff: Time, limits: seq<nat>, after: seq<Label>)
    requires Init(start) && ArePasses(start, before, passes, cutoff, limits) && after == EndOf(before, passes)
    requires QuietSuffices(start, passes, cutoff) && CalmBetween(start, before, after, cutoff)
    requires |Expired(Run(start, before).rows, cutoff)| <= |limits|
    requires AllPassedWell(start, passes, cutoff) && |ActionableAt(start, before, cutoff)| <= |limits| ==> ActionableAt(start, after, cutoff) == {}
    ensures OnlyQuarantined(Run(start, after).rows, cutoff) && NoOrphans(Run(start, before).rows, Run(start, after), cutoff)
  {
    CalmSeries(start, before, passes, cutoff, limits);
    FewerThanExpired(Run(start, before).rows, cutoff);
    DrainEnds(start, before, after, cutoff);
  }
}
