/** What a run of the expiry cleaner selects, and what the rest of the system may do meanwhile. */
module UploadCleaner {
  import opened Wrappers
  import opened UploadProtocol
  import UploadTheorems

  type Rows = map<ReservationId, Row>

  /** The rows the cleaner asks for: expired, and not already quarantined. */
  function Actionable(rows: Rows, cutoff: Time): set<ReservationId> {
    set r | r in rows && rows[r].expiresAt <= cutoff && !(rows[r].state == RESERVED && rows[r].cleanupRequired)
  }

  /** `order_by("expires_at", "id")`. */
  predicate Earlier(rows: Rows, r1: ReservationId, r2: ReservationId)
    requires r1 in rows && r2 in rows
  {
    rows[r1].expiresAt < rows[r2].expiresAt || (rows[r1].expiresAt == rows[r2].expiresAt && r1 <= r2)
  }

  function Min(a: nat, b: nat): nat {
    if a <= b then a else b
  }

  function Minus(a: nat, b: nat): nat {
    if a <= b then 0 else a - b
  }

  function IdSet(ids: seq<ReservationId>): set<ReservationId> {
    set r | r in ids
  }

  /** The earliest `limit` actionable rows, in order. */
  ghost predicate IsSelection(rows: Rows, cutoff: Time, limit: nat, ids: seq<ReservationId>) {
    && |ids| == Min(limit, |Actionable(rows, cutoff)|)
    && (forall i :: 0 <= i < |ids| ==> ids[i] in Actionable(rows, cutoff))
    && (forall i, j :: 0 <= i < j < |ids| ==> ids[i] != ids[j] && Earlier(rows, ids[i], ids[j]))
    && (forall i, r :: 0 <= i < |ids| && r in Actionable(rows, cutoff) && r !in ids ==> Earlier(rows, ids[i], r))
  }

  lemma {:induction false} DistinctIds(ids: seq<ReservationId>)
    requires forall i, j :: 0 <= i < j < |ids| ==> ids[i] != ids[j]
    ensures |IdSet(ids)| == |ids|
    decreases |ids|
  {
    if ids == [] {
      assert IdSet(ids) == {};
    } else {
      var init, last := ids[..|ids| - 1], ids[|ids| - 1];
      DistinctIds(init);
      assert IdSet(ids) == IdSet(init) + {last} && last !in IdSet(init);
    }
  }

  lemma {:induction false} SmallerSet(a: set<ReservationId>, b: set<ReservationId>)
    requires a <= b
    ensures |a| <= |b|
    decreases a
  {
    if a != {} {
      var x :| x in a;
      SmallerSet(a - {x}, b - {x});
    }
  }

  /** What a selection leaves over. */
  lemma LeftOver(rows: Rows, cutoff: Time, limit: nat, ids: seq<ReservationId>)
    requires IsSelection(rows, cutoff, limit, ids)
    ensures |Actionable(rows, cutoff) - IdSet(ids)| == Minus(|Actionable(rows, cutoff)|, limit)
  {
    var all := Actionable(rows, cutoff);
    DistinctIds(ids);
    assert IdSet(ids) <= all;
    assert |all - IdSet(ids)| == |all| - |ids|;
  }

  // Turns

  /** What became of a selected row. */
  datatype CleanResult = Skipped | Removed | Retained | RolledBack

  /** One turn of the cleaner: the steps taken before it, up to the moment it asked for its row, and up to the
      end of its transaction; and the outcome of that transaction, if the row was there. */
  datatype Turn = Turn(before: seq<Label>, locked: seq<Label>, outcome: Option<CleanupOutcome>, after: seq<Label>)

  ghost function ActionableAt(start: World, steps: seq<Label>, cutoff: Time): set<ReservationId> {
    Actionable(Run(start, steps).rows, cutoff)
  }

  /** The row is there, and expired, when the cleaner asks for its lock. */
  ghost predicate PresentAt(start: World, steps: seq<Label>, id: ReservationId, cutoff: Time) {
    id in Run(start, steps).rows && Run(start, steps).rows[id].expiresAt <= cutoff
  }

  /** Nothing became actionable while the cleaner waited for its lock. */
  ghost predicate Quiet(start: World, turn: Turn, cutoff: Time) {
    ActionableAt(start, turn.locked, cutoff) <= ActionableAt(start, turn.before, cutoff)
  }

  /** Nor did anybody else take an actionable row. */
  ghost predicate Untouched(start: World, turn: Turn, cutoff: Time) {
    ActionableAt(start, turn.locked, cutoff) == ActionableAt(start, turn.before, cutoff)
  }

  /** The row names a file that its own write has put there and no artifact has. */
  predicate OwnsFile(w: World, id: ReservationId) {
    id in w.rows && w.rows[id].state == OWNED && w.rows[id].key !in w.artifacts
  }

  /** The turn is the one step of the cleaner on its row, if the row was there, and no step otherwise. */
  ghost predicate IsTurn(start: World, turn: Turn, id: ReservationId, cutoff: Time) {
    && turn.before <= turn.locked
    && if PresentAt(start, turn.locked, id, cutoff)
       then turn.outcome.Some? && turn.outcome.value.Possible() && turn.after == turn.locked + [Clean(id, cutoff, turn.outcome.value)]
       else turn.outcome.None? && turn.after == turn.locked
  }

  /** `storage.delete` returned, if the turn called it. */
  ghost predicate DeleteWorked(start: World, turn: Turn, id: ReservationId) {
    turn.outcome.Some? && OwnsFile(Run(start, turn.locked), id) ==> turn.outcome.value.deleted
  }

  /** What the cleaner makes of an outcome. */
  function ResultOf(w: World, id: ReservationId, outcome: CleanupOutcome): CleanResult
    requires id in w.rows
  {
    if !outcome.committed then RolledBack
    else if OwnsFile(w, id) then (if outcome.deleted then Removed else Retained)
    else if w.rows[id].key !in w.artifacts && w.rows[id].state == RESERVED then Retained
    else Removed
  }

  ghost function ResultAt(start: World, turn: Turn, id: ReservationId): CleanResult {
    if turn.outcome.Some? && id in Run(start, turn.locked).rows then ResultOf(Run(start, turn.locked), id, turn.outcome.value)
    else Skipped
  }

  /** After a turn that was not rolled back and whose delete worked, its row is not actionable any more, and no
      other row has changed. */
  lemma TurnProcesses(start: World, turn: Turn, id: ReservationId, cutoff: Time)
    requires IsTurn(start, turn, id, cutoff) && ResultAt(start, turn, id) != RolledBack && DeleteWorked(start, turn, id)
    requires cutoff <= Run(start, turn.locked).now
    ensures ActionableAt(start, turn.after, cutoff) == ActionableAt(start, turn.locked, cutoff) - {id}
  {
    if turn.outcome.Some? {
      var w, outcome := Run(start, turn.locked), turn.outcome.value;
      UploadTheorems.RunConcat(start, turn.locked, [Clean(id, cutoff, outcome)]);
      OneCleaned(w, id, cutoff, outcome);
      CommittedClears(w, id, cutoff, outcome);
    }
  }

  lemma OneCleaned(w: World, id: ReservationId, cutoff: Time, outcome: CleanupOutcome)
    requires Enabled(w, Clean(id, cutoff, outcome))
    ensures Run(w, [Clean(id, cutoff, outcome)]) == CleanOne(w, id, outcome)
  {
    var l := Clean(id, cutoff, outcome);
    assert [l][1..] == [];
    assert Run(w, [l]) == Run(Next(w, l), []);
  }

  lemma CommittedClears(w: World, id: ReservationId, cutoff: Time, outcome: CleanupOutcome)
    requires id in w.rows && outcome.committed && (OwnsFile(w, id) ==> outcome.deleted)
    ensures Actionable(CleanOne(w, id, outcome).rows, cutoff) == Actionable(w.rows, cutoff) - {id}
  {
    var rows' := CleanOne(w, id, outcome).rows;
    if w.rows[id].key !in w.artifacts && w.rows[id].state == RESERVED {
      assert rows' == w.rows[id := w.rows[id].(cleanupRequired := true)];
    } else {
      assert rows' == w.rows - {id};
    }
  }

  ghost predicate Consecutive(start: World, first: seq<Label>, turns: seq<Turn>, ids: seq<ReservationId>, cutoff: Time, last: seq<Label>) {
    && |turns| <= |ids|
    && (forall i :: 0 <= i < |turns| ==> IsTurn(start, turns[i], ids[i], cutoff))
    && (turns != [] ==> turns[0].before == first)
    && (forall i, j :: 0 <= i && j == i + 1 && j < |turns| ==> turns[j].before == turns[i].after)
    && last == if turns == [] then first else turns[|turns| - 1].after
  }

  lemma OneMoreTurn(start: World, first: seq<Label>, turns: seq<Turn>, ids: seq<ReservationId>, cutoff: Time, last: seq<Label>, turn: Turn)
    requires Consecutive(start, first, turns, ids, cutoff, last) && |turns| < |ids|
    requires turn.before == last && IsTurn(start, turn, ids[|turns|], cutoff)
    ensures Consecutive(start, first, turns + [turn], ids, cutoff, turn.after)
  {
    var more := turns + [turn];
    assert forall i :: 0 <= i < |turns| ==> more[i] == turns[i];
  }

  /** The steps the cleaner took itself in its turns. */
  function OwnSteps(turns: seq<Turn>, ids: seq<ReservationId>, cutoff: Time): seq<Label>
    requires |turns| <= |ids|
  {
    if turns == [] then []
    else
      var n := |turns| - 1;
      OwnSteps(turns[..n], ids, cutoff) + if turns[n].outcome.Some? then [Clean(ids[n], cutoff, turns[n].outcome.value)] else []
  }

  /** How many turns had the result. */
  ghost function Count(start: World, turns: seq<Turn>, ids: seq<ReservationId>, result: CleanResult): nat
    requires |turns| <= |ids|
  {
    if turns == [] then 0
    else
      var n := |turns| - 1;
      Count(start, turns[..n], ids, result) + if ResultAt(start, turns[n], ids[n]) == result then 1 else 0
  }

  lemma OwnGrows(start: World, turns: seq<Turn>, ids: seq<ReservationId>, cutoff: Time, turn: Turn)
    requires |turns| < |ids|
    ensures OwnSteps(turns + [turn], ids, cutoff) ==
            OwnSteps(turns, ids, cutoff) + if turn.outcome.Some? then [Clean(ids[|turns|], cutoff, turn.outcome.value)] else []
    ensures forall result :: Count(start, turns + [turn], ids, result) ==
                             Count(start, turns, ids, result) + if ResultAt(start, turn, ids[|turns|]) == result then 1 else 0
  {
    assert (turns + [turn])[..|turns|] == turns;
  }

  /** The row is left, deleted or flagged. */
  ghost predicate Settles(rows: Rows, r: ReservationId, rows': Rows) {
    || rows' == rows
    || rows' == rows - {r}
    || (r in rows && rows' == rows[r := rows[r].(cleanupRequired := true)])
  }

  lemma DeleteSettles(w: World, r: ReservationId, k: Key, out: CleanupOutcome)
    requires r in w.rows
    ensures Settles(w.rows, r, DeleteFiles(w, r, k, out).rows)
  {
  }

  lemma FlagSettles(w: World, r: ReservationId)
    requires r in w.rows
    ensures Settles(w.rows, r, FlagRow(w, r).rows)
    ensures Settles(w.rows, r, DropRow(w, r).rows)
  {
  }

  lemma CompensateSettles(w: World, r: ReservationId, out: CleanupOutcome)
    requires r in w.candidates
    ensures Settles(w.rows, r, CompensateOne(w, r, out).rows)
  {
    if r in w.rows {
      FlagSettles(w, r);
      DeleteSettles(w, r, w.candidates[r].key, out);
    }
  }

  lemma CleanSettles(w: World, r: ReservationId, out: CleanupOutcome)
    requires r in w.rows
    ensures Settles(w.rows, r, CleanOne(w, r, out).rows)
  {
    FlagSettles(w, r);
    DeleteSettles(w, r, w.rows[r].key, out);
  }

  lemma SettlingAddsNone(rows: Rows, r: ReservationId, rows': Rows, cutoff: Time)
    requires Settles(rows, r, rows')
    ensures Actionable(rows', cutoff) <= Actionable(rows, cutoff)
  {
  }

  predicate EndsReservations(l: Label) {
    l.Compensate? || l.Clean? || l.Commit?
  }

  lemma EndingAddsNone(w: World, l: Label, cutoff: Time)
    requires Enabled(w, l) && EndsReservations(l)
    ensures Actionable(Next(w, l).rows, cutoff) <= Actionable(w.rows, cutoff) && Next(w, l).now == w.now
  {
    match l
    case Compensate(r, out) =>
      CompensateSettles(w, r, out);
      SettlingAddsNone(w.rows, r, CompensateOne(w, r, out).rows, cutoff);
    case Clean(r, _, out) =>
      CleanSettles(w, r, out);
      SettlingAddsNone(w.rows, r, CleanOne(w, r, out).rows, cutoff);
    case Commit(_, _) =>
  }

  predicate FailsOrFinishes(l: Label) {
    l.WriteFails? || l.LinkCollides? || l.FinishWrite? || l.FinishFails?
  }

  lemma FailingSteps(w: World, l: Label)
    requires Enabled(w, l) && FailsOrFinishes(l)
    ensures Next(w, l).now == w.now && Next(w, l).rows == w.rows
  {
    match l
    case WriteFails(_, _) =>
    case LinkCollides(_, _) =>
    case _ =>
  }

  /** What the steps of a write do to rows and clock. */
  lemma WritingSteps(w: World, l: Label)
    requires Enabled(w, l) && !EndsReservations(l)
    ensures Next(w, l).now == if l.Tick? then l.to else w.now
    ensures !(l.Reserve? || l.ReserveLost? || l.MarkVerified? || l.MarkCollision? || l.MarkCleanupRequired?) ==>
              Next(w, l).rows == w.rows
  {
    if FailsOrFinishes(l) { FailingSteps(w, l); }
  }

  /** A write reports a collision for an expired row that a cleaner has quarantined before. */
  predicate IsLateCollision(w: World, l: Label, cutoff: Time, r: ReservationId) {
    && l == MarkCollision(r) && r in w.rows && w.rows[r].expiresAt <= cutoff
    && w.rows[r].state == RESERVED && w.rows[r].cleanupRequired
  }

  /** All that may disturb the cleaner: a row becomes actionable if and only if the step is a late report of a
      collision for it.  New reservations expire later, and no other step makes a row actionable. */
  lemma OnlyLateCollisionsAppear(w: World, l: Label, cutoff: Time, r: ReservationId)
    requires Enabled(w, l) && cutoff <= w.now
    ensures r in Actionable(Next(w, l).rows, cutoff) - Actionable(w.rows, cutoff) <==> IsLateCollision(w, l, cutoff, r)
  {
    if EndsReservations(l) {
      EndingAddsNone(w, l, cutoff);
    } else if l.Reserve? || l.ReserveLost? || l.MarkVerified? || l.MarkCollision? || l.MarkCleanupRequired? {
      MarkingAppears(w, l, cutoff, r);
    } else {
      WritingSteps(w, l);
    }
  }

  lemma MarkingAppears(w: World, l: Label, cutoff: Time, r: ReservationId)
    requires Enabled(w, l) && cutoff <= w.now
    requires l.Reserve? || l.ReserveLost? || l.MarkVerified? || l.MarkCollision? || l.MarkCleanupRequired?
    ensures r in Actionable(Next(w, l).rows, cutoff) - Actionable(w.rows, cutoff) <==> IsLateCollision(w, l, cutoff, r)
  {
  }

  lemma TimeGoesOn(w: World, l: Label)
    requires Enabled(w, l)
    ensures w.now <= Next(w, l).now
  {
    if EndsReservations(l) { EndingAddsNone(w, l, w.now); } else { WritingSteps(w, l); }
  }

  /** No step of the stretch is such a report, in the state where it is taken. */
  ghost predicate NoLateCollision(w: World, steps: seq<Label>, cutoff: Time)
    decreases |steps|
  {
    steps == [] ||
    (if Enabled(w, steps[0])
     then (forall r :: !IsLateCollision(w, steps[0], cutoff, r)) && NoLateCollision(Next(w, steps[0]), steps[1..], cutoff)
     else NoLateCollision(w, steps[1..], cutoff))
  }

  /** However many steps of whatever kind come in between: without such a report nothing becomes actionable. */
  lemma {:induction false} QuietWithoutCollisions(w: World, steps: seq<Label>, cutoff: Time)
    requires cutoff <= w.now && NoLateCollision(w, steps, cutoff)
    ensures Actionable(Run(w, steps).rows, cutoff) <= Actionable(w.rows, cutoff)
    decreases |steps|
  {
    if steps != [] {
      var l := steps[0];
      if Enabled(w, l) {
        TimeGoesOn(w, l);
        forall r | r in Actionable(Next(w, l).rows, cutoff) ensures r in Actionable(w.rows, cutoff) {
          OnlyLateCollisionsAppear(w, l, cutoff, r);
        }
        QuietWithoutCollisions(Next(w, l), steps[1..], cutoff);
      } else {
        QuietWithoutCollisions(w, steps[1..], cutoff);
      }
    }
  }

  /** So a turn is quiet unless such a report comes while the cleaner waits for its lock. */
  lemma TurnIsQuiet(start: World, turn: Turn, cutoff: Time)
    requires turn.before <= turn.locked && cutoff <= Run(start, turn.before).now
    requires NoLateCollision(Run(start, turn.before), turn.locked[|turn.before|..], cutoff)
    ensures Quiet(start, turn, cutoff)
  {
    var meanwhile := turn.locked[|turn.before|..];
    assert turn.locked == turn.before + meanwhile;
    UploadTheorems.RunConcat(start, turn.before, meanwhile);
    QuietWithoutCollisions(Run(start, turn.before), meanwhile, cutoff);
  }

  // Such a report from an empty system

  /** Nothing but a leftover pending file. */
  ghost function LeftoverWorld(): World {
    UploadTheorems.EmptyWorld().(pending := map[7 := []], alienPending := {7})
  }

  ghost function CollidedWorld(): World {
    LeftoverWorld().(
      phases := map[1 := Running], usedIds := {5}, rows := map[5 := Row(7, RESERVATION_LIFETIME, RESERVED, None, false)],
      candidates := map[5 := Candidate(1, 7, RESERVATION_LIFETIME, Collided)])
  }

  ghost function QuarantinedWorld(): World {
    CollidedWorld().(now := RESERVATION_LIFETIME, rows := map[5 := Row(7, RESERVATION_LIFETIME, RESERVED, None, true)])
  }

  lemma CollidesWithLeftover()
    ensures Run(LeftoverWorld(), [Begin(1), Reserve(1, 5, 7), OpenCollides(5)]) == CollidedWorld()
  {
  }

  lemma Expires()
    ensures Step(CollidedWorld(), Tick(RESERVATION_LIFETIME), CollidedWorld().(now := RESERVATION_LIFETIME))
  {
  }

  lemma IsQuarantined()
    ensures Step(CollidedWorld().(now := RESERVATION_LIFETIME),
                 Clean(5, RESERVATION_LIFETIME, CleanupOutcome(false, false, false, true)), QuarantinedWorld())
  {
  }

  lemma ExpiresAndIsQuarantined()
    ensures Run(CollidedWorld(), [Tick(RESERVATION_LIFETIME)] + ([Clean(5, RESERVATION_LIFETIME, CleanupOutcome(false, false, false, true))] + []))
            == QuarantinedWorld()
  {
    var clean := Clean(5, RESERVATION_LIFETIME, CleanupOutcome(false, false, false, true));
    Expires();
    IsQuarantined();
    UploadTheorems.RunStep(CollidedWorld(), Tick(RESERVATION_LIFETIME), CollidedWorld().(now := RESERVATION_LIFETIME), [clean] + []);
    UploadTheorems.RunStep(CollidedWorld().(now := RESERVATION_LIFETIME), clean, QuarantinedWorld(), []);
  }

  lemma ReportsLate()
    ensures Run(QuarantinedWorld(), [MarkCollision(5)]) ==
            QuarantinedWorld().(rows := map[5 := Row(7, RESERVATION_LIFETIME, COLLISION, None, true)])
  {
  }

  /** One attempt collides with a leftover pending file, a day passes, the cleaner quarantines the row and
      nothing is actionable; then the attempt reports its collision, and the row is. */
  lemma LateCollisionDisturbs()
    ensures Init(LeftoverWorld())
    ensures var steps := [Begin(1), Reserve(1, 5, 7), OpenCollides(5)]
                         + [Tick(RESERVATION_LIFETIME), Clean(5, RESERVATION_LIFETIME, CleanupOutcome(false, false, false, true))];
            && ActionableAt(LeftoverWorld(), steps, RESERVATION_LIFETIME) == {}
            && IsLateCollision(Run(LeftoverWorld(), steps), MarkCollision(5), RESERVATION_LIFETIME, 5)
            && ActionableAt(LeftoverWorld(), steps + [MarkCollision(5)], RESERVATION_LIFETIME) == {5}
  {
    var collide := [Begin(1), Reserve(1, 5, 7), OpenCollides(5)];
    var expire := [Tick(RESERVATION_LIFETIME), Clean(5, RESERVATION_LIFETIME, CleanupOutcome(false, false, false, true))];
    CollidesWithLeftover();
    ExpiresAndIsQuarantined();
    assert expire == [expire[0]] + ([expire[1]] + []);
    ReportsLate();
    UploadTheorems.RunConcat(LeftoverWorld(), collide, expire);
    UploadTheorems.RunConcat(LeftoverWorld(), collide + expire, [MarkCollision(5)]);
  }

  // Whole runs of the cleaner

  /** Every turn so far was quiet and its delete worked. */
  ghost predicate WentWell(start: World, turns: seq<Turn>, ids: seq<ReservationId>, cutoff: Time) {
    |turns| <= |ids| && forall i :: 0 <= i < |turns| ==> Quiet(start, turns[i], cutoff) && DeleteWorked(start, turns[i], ids[i])
  }

  /** Every delete that a turn called returned. */
  ghost predicate DeletesWorked(start: World, turns: seq<Turn>, ids: seq<ReservationId>) {
    |turns| <= |ids| && forall i :: 0 <= i < |turns| ==> DeleteWorked(start, turns[i], ids[i])
  }

  ghost predicate WentUntouched(start: World, turns: seq<Turn>, ids: seq<ReservationId>, cutoff: Time) {
    |turns| <= |ids| && forall i :: 0 <= i < |turns| ==> Untouched(start, turns[i], cutoff) && DeleteWorked(start, turns[i], ids[i])
  }

  /** The selected rows that were gone, or no longer expired, when their turn came. */
  ghost function Missing(start: World, turns: seq<Turn>, ids: seq<ReservationId>, cutoff: Time): set<ReservationId>
    requires |turns| <= |ids|
  {
    set i | 0 <= i < |turns| && !PresentAt(start, turns[i].locked, ids[i], cutoff) :: ids[i]
  }

  lemma MissingGrows(start: World, turns: seq<Turn>, ids: seq<ReservationId>, cutoff: Time, turn: Turn)
    requires |turns| < |ids| && forall i, j :: 0 <= i < j < |ids| ==> ids[i] != ids[j]
    ensures var here := if PresentAt(start, turn.locked, ids[|turns|], cutoff) then {} else {ids[|turns|]};
            && Missing(start, turns + [turn], ids, cutoff) == Missing(start, turns, ids, cutoff) + here
            && ids[|turns|] !in Missing(start, turns, ids, cutoff)
  {
    var more := turns + [turn];
    assert forall i :: 0 <= i < |turns| ==> more[i] == turns[i];
    var here := if PresentAt(start, turn.locked, ids[|turns|], cutoff) then {} else {ids[|turns|]};
    forall r ensures r in Missing(start, more, ids, cutoff) <==> r in Missing(start, turns, ids, cutoff) + here {
      if r in Missing(start, turns, ids, cutoff) {
        var i :| 0 <= i < |turns| && !PresentAt(start, turns[i].locked, ids[i], cutoff) && ids[i] == r;
        assert more[i] == turns[i];
      }
      if r in here { assert more[|turns|] == turn; }
    }
  }

  ghost predicate Processes(start: World, turn: Turn, id: ReservationId, cutoff: Time) {
    DeleteWorked(start, turn, id) ==>
      ActionableAt(start, turn.after, cutoff) == ActionableAt(start, turn.locked, cutoff) - {id}
  }

  lemma PrefixIds(ids: seq<ReservationId>, n: nat)
    requires n < |ids|
    ensures IdSet(ids[..n + 1]) == IdSet(ids[..n]) + {ids[n]}
  {
    assert ids[..n + 1] == ids[..n] + [ids[n]];
  }

  lemma TurnWell(start: World, all: set<ReservationId>, turns: seq<Turn>, ids: seq<ReservationId>, cutoff: Time, turn: Turn)
    requires |turns| < |ids| && Processes(start, turn, ids[|turns|], cutoff)
    requires WentWell(start, turns, ids, cutoff) ==> ActionableAt(start, turn.before, cutoff) <= all - IdSet(ids[..|turns|])
    ensures WentWell(start, turns + [turn], ids, cutoff) ==>
              ActionableAt(start, turn.after, cutoff) <= all - IdSet(ids[..|turns| + 1])
  {
    var more := turns + [turn];
    PrefixIds(ids, |turns|);
    if WentWell(start, more, ids, cutoff) {
      assert more[|turns|] == turn;
      assert forall i :: 0 <= i < |turns| ==> more[i] == turns[i];
    }
  }

  /** A selected row is actionable until its own turn: so untouched runs find every row. */
  lemma TurnUntouched(start: World, all: set<ReservationId>, turns: seq<Turn>, ids: seq<ReservationId>, cutoff: Time, turn: Turn)
    requires |turns| < |ids| && Processes(start, turn, ids[|turns|], cutoff)
    requires ids[|turns|] in all && ids[|turns|] !in ids[..|turns|]
    requires WentUntouched(start, turns, ids, cutoff) ==> ActionableAt(start, turn.before, cutoff) == all - IdSet(ids[..|turns|])
    ensures WentUntouched(start, turns + [turn], ids, cutoff) ==>
              && ActionableAt(start, turn.after, cutoff) == all - IdSet(ids[..|turns| + 1])
              && WentUntouched(start, turns, ids, cutoff)
              && PresentAt(start, turn.locked, ids[|turns|], cutoff)
  {
    var more := turns + [turn];
    PrefixIds(ids, |turns|);
    if WentUntouched(start, more, ids, cutoff) {
      assert more[|turns|] == turn;
      assert forall i :: 0 <= i < |turns| ==> more[i] == turns[i];
      assert ids[|turns|] in ActionableAt(start, turn.locked, cutoff);
    }
  }

  /** A run raised exactly if a transaction was rolled back; then that was its last turn. */
  ghost predicate Raises(start: World, turns: seq<Turn>, ids: seq<ReservationId>)
    requires |turns| <= |ids|
  {
    turns != [] && ResultAt(start, turns[|turns| - 1], ids[|turns| - 1]) == RolledBack
  }

  /** How far a run has come: what it leaves of the actionable rows `all`, and how many rows it found. */
  ghost predicate Progress(start: World, all: set<ReservationId>, turns: seq<Turn>, ids: seq<ReservationId>, cutoff: Time,
                           present: set<ReservationId>, found: nat) {
    && |turns| <= |ids| && found + |Missing(start, turns, ids, cutoff)| == |turns|
    && (WentWell(start, turns, ids, cutoff) ==> present <= all - IdSet(ids[..|turns|]))
    && (WentUntouched(start, turns, ids, cutoff) ==>
          present == all - IdSet(ids[..|turns|]) && Missing(start, turns, ids, cutoff) == {})
  }

  lemma ProgressStep(start: World, all: set<ReservationId>, turns: seq<Turn>, ids: seq<ReservationId>, cutoff: Time, found: nat, turn: Turn)
    requires |turns| < |ids| && ids[|turns|] in all && forall i, j :: 0 <= i < j < |ids| ==> ids[i] != ids[j]
    requires Progress(start, all, turns, ids, cutoff, ActionableAt(start, turn.before, cutoff), found)
    ensures var found' := found + if PresentAt(start, turn.locked, ids[|turns|], cutoff) then 1 else 0;
            && found' + |Missing(start, turns + [turn], ids, cutoff)| == |turns| + 1
            && (Processes(start, turn, ids[|turns|], cutoff) ==>
                  Progress(start, all, turns + [turn], ids, cutoff, ActionableAt(start, turn.after, cutoff), found'))
  {
    MissingGrows(start, turns, ids, cutoff, turn);
    if Processes(start, turn, ids[|turns|], cutoff) {
      TurnWell(start, all, turns, ids, cutoff, turn);
      TurnUntouched(start, all, turns, ids, cutoff, turn);
    }
  }

  lemma ProgressTurn(start: World, all: set<ReservationId>, turns: seq<Turn>, ids: seq<ReservationId>, cutoff: Time, turn: Turn, found: nat)
    requires |turns| < |ids| && ids[|turns|] in all && forall i, j :: 0 <= i < j < |ids| ==> ids[i] != ids[j]
    requires IsTurn(start, turn, ids[|turns|], cutoff) && cutoff <= Run(start, turn.locked).now
    requires Progress(start, all, turns, ids, cutoff, ActionableAt(start, turn.before, cutoff), found)
    ensures ResultAt(start, turn, ids[|turns|]) != RolledBack ==>
              Progress(start, all, turns + [turn], ids, cutoff, ActionableAt(start, turn.after, cutoff),
                       found + if ResultAt(start, turn, ids[|turns|]) == Skipped then 0 else 1)
  {
    ProgressStep(start, all, turns, ids, cutoff, found, turn);
    if ResultAt(start, turn, ids[|turns|]) != RolledBack && DeleteWorked(start, turn, ids[|turns|]) {
      TurnProcesses(start, turn, ids[|turns|], cutoff);
    }
  }

  /** What the turns so far account for: the steps of the cleaner itself and its two counts. */
  ghost predicate Tallied(start: World, turns: seq<Turn>, ids: seq<ReservationId>, cutoff: Time, own: seq<Label>,
                          removed: nat, retained: nat)
  {
    && |turns| <= |ids| && own == OwnSteps(turns, ids, cutoff)
    && removed == Count(start, turns, ids, Removed) && retained == Count(start, turns, ids, Retained)
  }

  function StepOf(turn: Turn, id: ReservationId, cutoff: Time): seq<Label> {
    if turn.outcome.Some? then [Clean(id, cutoff, turn.outcome.value)] else []
  }

  lemma TalliedTurn(start: World, turns: seq<Turn>, ids: seq<ReservationId>, cutoff: Time, own: seq<Label>, removed: nat, retained: nat, turn: Turn)
    requires Tallied(start, turns, ids, cutoff, own, removed, retained) && |turns| < |ids|
    ensures var result := ResultAt(start, turn, ids[|turns|]);
            Tallied(start, turns + [turn], ids, cutoff, own + StepOf(turn, ids[|turns|], cutoff),
                    removed + if result == Removed then 1 else 0, retained + if result == Retained then 1 else 0)
  {
    OwnGrows(start, turns, ids, cutoff, turn);
  }

  /** Where the loop over the selected rows has got to. */
  ghost predicate SoFar(start: World, first: seq<Label>, all: set<ReservationId>, turns: seq<Turn>, ids: seq<ReservationId>, cutoff: Time,
                        last: seq<Label>, own: seq<Label>, removed: nat, retained: nat)
  {
    && Consecutive(start, first, turns, ids, cutoff, last)
    && Tallied(start, turns, ids, cutoff, own, removed, retained)
    && Progress(start, all, turns, ids, cutoff, ActionableAt(start, last, cutoff), removed + retained)
  }

  /** Everything that one more turn adds; a rolled-back one ends the run. */
  lemma TurnTaken(start: World, first: seq<Label>, all: set<ReservationId>, turns: seq<Turn>, ids: seq<ReservationId>, cutoff: Time,
                  own: seq<Label>, removed: nat, retained: nat, turn: Turn)
    requires SoFar(start, first, all, turns, ids, cutoff, turn.before, own, removed, retained) && |turns| < |ids|
    requires ids[|turns|] in all && forall i, j :: 0 <= i < j < |ids| ==> ids[i] != ids[j]
    requires IsTurn(start, turn, ids[|turns|], cutoff) && cutoff <= Run(start, turn.locked).now
    ensures var result := ResultAt(start, turn, ids[|turns|]);
            var removed', retained' := removed + (if result == Removed then 1 else 0), retained + (if result == Retained then 1 else 0);
            && Consecutive(start, first, turns + [turn], ids, cutoff, turn.after)
            && Tallied(start, turns + [turn], ids, cutoff, own + StepOf(turn, ids[|turns|], cutoff), removed', retained')
            && (result != RolledBack ==>
                  SoFar(start, first, all, turns + [turn], ids, cutoff, turn.after, own + StepOf(turn, ids[|turns|], cutoff), removed', retained'))
            && (Raises(start, turns + [turn], ids) <==> result == RolledBack)
  {
    OneMoreTurn(start, first, turns, ids, cutoff, turn.before, turn);
    TalliedTurn(start, turns, ids, cutoff, own, removed, retained, turn);
    ProgressTurn(start, all, turns, ids, cutoff, turn, removed + retained);
  }

  lemma DeletesWorkedGrows(start: World, turns: seq<Turn>, ids: seq<ReservationId>, turn: Turn)
    requires DeletesWorked(start, turns, ids) && |turns| < |ids| && DeleteWorked(start, turn, ids[|turns|])
    ensures DeletesWorked(start, turns + [turn], ids)
  {
  }

  lemma SoFarBegins(start: World, first: seq<Label>, ids: seq<ReservationId>, cutoff: Time)
    ensures SoFar(start, first, ActionableAt(start, first, cutoff), [], ids, cutoff, first, [], 0, 0)
  {
    ProgressBegins(start, ActionableAt(start, first, cutoff), ids, cutoff);
  }

  lemma ProgressBegins(start: World, all: set<ReservationId>, ids: seq<ReservationId>, cutoff: Time)
    ensures Progress(start, all, [], ids, cutoff, all, 0)
  {
    assert IdSet(ids[..0]) == {};
    assert Missing(start, [], ids, cutoff) == {};
  }

  lemma ProgressEnds(start: World, rows: Rows, limit: nat, turns: seq<Turn>, ids: seq<ReservationId>, cutoff: Time,
                     present: set<ReservationId>, found: nat)
    requires IsSelection(rows, cutoff, limit, ids) && |turns| == |ids|
    requires Progress(start, Actionable(rows, cutoff), turns, ids, cutoff, present, found)
    ensures WentWell(start, turns, ids, cutoff) ==>
              present <= Actionable(rows, cutoff) - IdSet(ids) && |present| <= Minus(|Actionable(rows, cutoff)|, limit)
    ensures WentUntouched(start, turns, ids, cutoff) ==>
              present == Actionable(rows, cutoff) - IdSet(ids) && Missing(start, turns, ids, cutoff) == {}
  {
    assert ids[..|ids|] == ids;
    LeftOver(rows, cutoff, limit, ids);
    if WentWell(start, turns, ids, cutoff) { SmallerSet(present, Actionable(rows, cutoff) - IdSet(ids)); }
  }

  // Repeated runs

  /** One run in a series: what happened since the run before, the rows it selected, its turns, and the steps
      taken at its end. */
  datatype Pass = Pass(gap: Turn, ids: seq<ReservationId>, turns: seq<Turn>, end: seq<Label>)

  /** The run began after `before` and selected up to `limit` rows. */
  ghost predicate IsPass(start: World, before: seq<Label>, pass: Pass, cutoff: Time, limit: nat) {
    && pass.gap.before == before && before <= pass.gap.locked == pass.gap.after && pass.gap.outcome.None?
    && IsSelection(Run(start, pass.gap.after).rows, cutoff, limit, pass.ids)
    && Consecutive(start, pass.gap.after, pass.turns, pass.ids, cutoff, pass.end) && |pass.turns| == |pass.ids|
  }

  ghost predicate PassedWell(start: World, pass: Pass, cutoff: Time) {
    Quiet(start, pass.gap, cutoff) && WentWell(start, pass.turns, pass.ids, cutoff)
  }

  /** A run that raised no error, with its counts and what it leaves. */
  ghost predicate PassDone(start: World, before: seq<Label>, pass: Pass, cutoff: Time, limit: nat, removed: nat, retained: nat) {
    && IsPass(start, before, pass, cutoff, limit)
    && removed == Count(start, pass.turns, pass.ids, Removed) && retained == Count(start, pass.turns, pass.ids, Retained)
    && (PassedWell(start, pass, cutoff) ==> Shrinks(start, before, pass.end, cutoff, limit))
  }

  /** No row has become actionable, and `limit` of those that were are not any more, or all. */
  ghost predicate Shrinks(start: World, before: seq<Label>, after: seq<Label>, cutoff: Time, limit: nat) {
    && ActionableAt(start, after, cutoff) <= ActionableAt(start, before, cutoff)
    && |ActionableAt(start, after, cutoff)| <= Minus(|ActionableAt(start, before, cutoff)|, limit)
  }

  lemma PassShrinks(start: World, pass: Pass, cutoff: Time, limit: nat)
    requires pass.gap.locked == pass.gap.after
    requires WentWell(start, pass.turns, pass.ids, cutoff) ==> Shrinks(start, pass.gap.after, pass.end, cutoff, limit)
    ensures PassedWell(start, pass, cutoff) ==> Shrinks(start, pass.gap.before, pass.end, cutoff, limit)
  {
    if PassedWell(start, pass, cutoff) {
      SmallerSet(ActionableAt(start, pass.gap.after, cutoff), ActionableAt(start, pass.gap.before, cutoff));
    }
  }

  ghost predicate AllPassedWell(start: World, passes: seq<Pass>, cutoff: Time) {
    forall i :: 0 <= i < |passes| ==> PassedWell(start, passes[i], cutoff)
  }

  function EndOf(first: seq<Label>, passes: seq<Pass>): seq<Label> {
    if passes == [] then first else passes[|passes| - 1].end
  }

  /** The runs follow one another, the first one after `first`. */
  ghost predicate ArePasses(start: World, first: seq<Label>, passes: seq<Pass>, cutoff: Time, limits: seq<nat>)
    decreases |passes|
  {
    passes == [] ||
    var n := |passes| - 1;
    && n < |limits|
    && IsPass(start, EndOf(first, passes[..n]), passes[n], cutoff, limits[n])
    && ArePasses(start, first, passes[..n], cutoff, limits)
  }

  lemma PassesGrow(start: World, first: seq<Label>, passes: seq<Pass>, cutoff: Time, limits: seq<nat>, pass: Pass)
    requires ArePasses(start, first, passes, cutoff, limits) && |passes| < |limits|
    requires IsPass(start, EndOf(first, passes), pass, cutoff, limits[|passes|])
    ensures ArePasses(start, first, passes + [pass], cutoff, limits) && EndOf(first, passes + [pass]) == pass.end
  {
    assert (passes + [pass])[..|passes|] == passes;
  }

  lemma PassedWellGrows(start: World, passes: seq<Pass>, cutoff: Time, pass: Pass)
    ensures AllPassedWell(start, passes + [pass], cutoff) <==> AllPassedWell(start, passes, cutoff) && PassedWell(start, pass, cutoff)
  {
    var more := passes + [pass];
    assert more[|passes|] == pass;
    assert forall i :: 0 <= i < |passes| ==> more[i] == passes[i];
  }

  ghost predicate AllQuiet(start: World, passes: seq<Pass>, cutoff: Time) {
    forall i :: 0 <= i < |passes| ==>
      Quiet(start, passes[i].gap, cutoff) && forall j :: 0 <= j < |passes[i].turns| ==> Quiet(start, passes[i].turns[j], cutoff)
  }

  function AllOwnSteps(passes: seq<Pass>, cutoff: Time): seq<Label> {
    if passes == [] then []
    else
      var last := passes[|passes| - 1];
      AllOwnSteps(passes[..|passes| - 1], cutoff) + if |last.turns| <= |last.ids| then OwnSteps(last.turns, last.ids, cutoff) else []
  }

  ghost function CountAll(start: World, passes: seq<Pass>, result: CleanResult): nat {
    if passes == [] then 0
    else
      var last := passes[|passes| - 1];
      CountAll(start, passes[..|passes| - 1], result) + if |last.turns| <= |last.ids| then Count(start, last.turns, last.ids, result) else 0
  }

  lemma PassCounted(start: World, passes: seq<Pass>, cutoff: Time, pass: Pass)
    requires |pass.turns| <= |pass.ids|
    ensures AllOwnSteps(passes + [pass], cutoff) == AllOwnSteps(passes, cutoff) + OwnSteps(pass.turns, pass.ids, cutoff)
    ensures forall result :: CountAll(start, passes + [pass], result) ==
                             CountAll(start, passes, result) + Count(start, pass.turns, pass.ids, result)
  {
    var more := passes + [pass];
    assert more[..|passes|] == passes && more[|passes|] == pass;
  }

  /** If the runs so far went well because they were quiet, and the deletes of the next worked, so will it. */
  ghost predicate QuietSuffices(start: World, passes: seq<Pass>, cutoff: Time) {
    AllQuiet(start, passes, cutoff) ==> AllPassedWell(start, passes, cutoff)
  }

  lemma QuietIsEnough(start: World, passes: seq<Pass>, cutoff: Time, pass: Pass)
    ensures QuietSuffices(start, passes, cutoff) && DeletesWorked(start, pass.turns, pass.ids) ==>
              QuietSuffices(start, passes + [pass], cutoff)
  {
    var more := passes + [pass];
    assert more[|passes|] == pass;
    assert forall i :: 0 <= i < |passes| ==> more[i] == passes[i];
    PassedWellGrows(start, passes, cutoff, pass);
  }

  /** What the series so far has left of the actionable rows `all`. */
  ghost predicate Shrunk(start: World, passes: seq<Pass>, cutoff: Time, all: set<ReservationId>, present: set<ReservationId>, total: nat) {
    AllPassedWell(start, passes, cutoff) ==> present <= all && |present| <= Minus(|all|, total)
  }

  lemma ShrunkStep(start: World, passes: seq<Pass>, cutoff: Time, all: set<ReservationId>, before: set<ReservationId>, present: set<ReservationId>,
                   limits: seq<nat>, pass: Pass)
    requires |passes| < |limits| && Shrunk(start, passes, cutoff, all, before, Total(limits[..|passes|]))
    requires PassedWell(start, pass, cutoff) ==> present <= before && |present| <= Minus(|before|, limits[|passes|])
    ensures Shrunk(start, passes + [pass], cutoff, all, present, Total(limits[..|passes| + 1]))
  {
    PassedWellGrows(start, passes, cutoff, pass);
    assert limits[..|passes| + 1] == limits[..|passes|] + [limits[|passes|]];
  }

  /** What a series of runs has done: its own steps and its counts. */
  datatype Series = Series(passes: seq<Pass>, own: seq<Label>, removed: nat, retained: nat)

  ghost predicate SeriesCounted(start: World, series: Series, cutoff: Time) {
    && series.own == AllOwnSteps(series.passes, cutoff)
    && series.removed == CountAll(start, series.passes, Removed) && series.retained == CountAll(start, series.passes, Retained)
  }

  /** Where a series of runs has got to after the steps `last`. */
  ghost predicate SeriesSoFar(start: World, first: seq<Label>, series: Series, cutoff: Time, limits: seq<nat>, last: seq<Label>,
                              all: set<ReservationId>, working: bool)
  {
    && |series.passes| <= |limits| && ArePasses(start, first, series.passes, cutoff, limits) && last == EndOf(first, series.passes)
    && SeriesCounted(start, series, cutoff)
    && Shrunk(start, series.passes, cutoff, all, ActionableAt(start, last, cutoff), Total(limits[..|series.passes|]))
    && (working ==> QuietSuffices(start, series.passes, cutoff))
  }

  function Extended(series: Series, cutoff: Time, pass: Pass, gone: nat, kept: nat): Series
    requires |pass.turns| <= |pass.ids|
  {
    Series(series.passes + [pass], series.own + OwnSteps(pass.turns, pass.ids, cutoff), series.removed + gone, series.retained + kept)
  }

  lemma OwnExtended(earlier: seq<Label>, series: Series, cutoff: Time, pass: Pass, gone: nat, kept: nat)
    requires |pass.turns| <= |pass.ids|
    ensures (earlier + series.own) + OwnSteps(pass.turns, pass.ids, cutoff) == earlier + Extended(series, cutoff, pass, gone, kept).own
  {
  }

  /** The total over one more limit. */
  lemma ShrunkMore(start: World, series: Series, cutoff: Time, limits: seq<nat>, before: seq<Label>, all: set<ReservationId>, pass: Pass,
                   gone: nat, kept: nat)
    requires |series.passes| < |limits| && |pass.turns| <= |pass.ids|
    requires Shrunk(start, series.passes, cutoff, all, ActionableAt(start, before, cutoff), Total(limits[..|series.passes|]))
    requires PassedWell(start, pass, cutoff) ==> Shrinks(start, before, pass.end, cutoff, limits[|series.passes|])
    ensures var more := Extended(series, cutoff, pass, gone, kept).passes;
            Shrunk(start, more, cutoff, all, ActionableAt(start, pass.end, cutoff), Total(limits[..|more|]))
  {
    ShrunkStep(start, series.passes, cutoff, all, ActionableAt(start, before, cutoff), ActionableAt(start, pass.end, cutoff), limits, pass);
    assert |Extended(series, cutoff, pass, gone, kept).passes| == |series.passes| + 1;
  }

  lemma CountedMore(start: World, series: Series, cutoff: Time, pass: Pass, gone: nat, kept: nat)
    requires SeriesCounted(start, series, cutoff) && |pass.turns| <= |pass.ids|
    requires gone == Count(start, pass.turns, pass.ids, Removed) && kept == Count(start, pass.turns, pass.ids, Retained)
    ensures SeriesCounted(start, Extended(series, cutoff, pass, gone, kept), cutoff)
  {
    PassCounted(start, series.passes, cutoff, pass);
  }

  lemma SeriesGrows(start: World, first: seq<Label>, series: Series, cutoff: Time, limits: seq<nat>, before: seq<Label>,
                    all: set<ReservationId>, working: bool, pass: Pass, gone: nat, kept: nat)
    requires |series.passes| < |limits| && |pass.turns| <= |pass.ids|
    ensures SeriesSoFar(start, first, series, cutoff, limits, before, all, working)
            && PassDone(start, before, pass, cutoff, limits[|series.passes|], gone, kept)
            && (working ==> DeletesWorked(start, pass.turns, pass.ids)) ==>
              SeriesSoFar(start, first, Extended(series, cutoff, pass, gone, kept), cutoff, limits, pass.end, all, working)
  {
    var passes := series.passes;
    if SeriesSoFar(start, first, series, cutoff, limits, before, all, working)
       && PassDone(start, before, pass, cutoff, limits[|passes|], gone, kept)
       && (working ==> DeletesWorked(start, pass.turns, pass.ids))
    {
      PassesGrow(start, first, passes, cutoff, limits, pass);
      CountedMore(start, series, cutoff, pass, gone, kept);
      ShrunkMore(start, series, cutoff, limits, before, all, pass, gone, kept);
      QuietIsEnough(start, passes, cutoff, pass);
    }
  }

  lemma SeriesEnds(start: World, first: seq<Label>, series: Series, cutoff: Time, limits: seq<nat>, last: seq<Label>,
                   all: set<ReservationId>, working: bool)
    requires SeriesSoFar(start, first, series, cutoff, limits, last, all, working) && |series.passes| == |limits|
    requires forall i :: 0 <= i < |limits| ==> limits[i] >= 1
    ensures AllPassedWell(start, series.passes, cutoff) ==>
              var present := ActionableAt(start, last, cutoff);
              present <= all && |present| <= Minus(|all|, Total(limits)) && (|all| <= |limits| ==> present == {})
  {
    assert limits[..|limits|] == limits;
    if AllPassedWell(start, series.passes, cutoff) && |all| <= |limits| {
      ShrunkEnds(start, series.passes, cutoff, all, ActionableAt(start, last, cutoff), limits);
    }
  }

  lemma ShrunkEnds(start: World, passes: seq<Pass>, cutoff: Time, all: set<ReservationId>, present: set<ReservationId>, limits: seq<nat>)
    requires Shrunk(start, passes, cutoff, all, present, Total(limits)) && AllPassedWell(start, passes, cutoff)
    requires |all| <= |limits| && forall i :: 0 <= i < |limits| ==> limits[i] >= 1
    ensures present == {}
  {
    TotalAtLeast(limits);
  }

  function Total(limits: seq<nat>): nat {
    if limits == [] then 0 else Total(limits[..|limits| - 1]) + limits[|limits| - 1]
  }

  lemma {:induction false} TotalAtLeast(limits: seq<nat>)
    requires forall i :: 0 <= i < |limits| ==> limits[i] >= 1
    ensures Total(limits) >= |limits|
    decreases |limits|
  {
    if limits != [] { TotalAtLeast(limits[..|limits| - 1]); }
  }
}
