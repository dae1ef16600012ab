/** What every run of the upload protocol guarantees. */
module UploadTheorems {
  import opened Wrappers
  import opened UploadProtocol
  import opened UploadSafety

  // Files of settled keys never change.

  /** A final file of `k` that no running protocol step may touch. */
  ghost predicate Settled(w: World, k: Key) {
    k in w.final && (k in w.artifacts || k in w.alienFinal)
  }

  /** The file-side footprint of one step on final names. */
  ghost predicate RemovesFinal(w: World, l: Label, k: Key)
    requires Enabled(w, l)
  {
    k in w.final && k !in Next(w, l).final
  }

  /** A cleanup step that touches files does so for a disposable row, and only its key. */
  ghost predicate TouchesOwn(w: World, r: ReservationId, w': World) {
    || (w'.final == w.final && w'.pending == w.pending)
    || (&& Disposable(w, r)
        && (w'.final == w.final || w'.final == w.final - {w.rows[r].key})
        && (w'.pending == w.pending || w'.pending == w.pending - {w.rows[r].key}))
  }

  lemma CompensateTouchesOwn(w: World, r: ReservationId, out: CleanupOutcome)
    requires Bookkeeping(w) && Enabled(w, Compensate(r, out))
    ensures TouchesOwn(w, r, CompensateOne(w, r, out))
  {
    assert CandidateOk(w, r) && (r in w.rows ==> RowOk(w, r));
  }

  lemma CleanTouchesOwn(w: World, r: ReservationId, cutoff: Time, out: CleanupOutcome)
    requires Bookkeeping(w) && Enabled(w, Clean(r, cutoff, out))
    ensures TouchesOwn(w, r, CleanOne(w, r, out))
  {
    assert RowOk(w, r) && (r in w.candidates ==> CandidateOk(w, r));
  }

  lemma CleanupTouchesOwn(w: World, l: Label)
    requires Bookkeeping(w) && Enabled(w, l) && (l.Compensate? || l.Clean?)
    ensures TouchesOwn(w, l.id, Next(w, l))
  {
    match l
    case Compensate(r, out) => CompensateTouchesOwn(w, r, out);
    case Clean(r, cutoff, out) => CleanTouchesOwn(w, r, cutoff, out);
  }

  lemma DisposableIsOwn(w: World, r: ReservationId)
    requires Bookkeeping(w) && Disposable(w, r)
    ensures var k := w.rows[r].key;
            && k !in w.artifacts && k !in w.alienFinal && k !in w.alienPending
            && (k in w.final ==> k in w.linkedBy && w.linkedBy[k] == r)
  {
    assert CandidateOk(w, r);
  }

  lemma StepDeletesOnlyOwn(w: World, l: Label, k: Key)
    requires Bookkeeping(w) && Enabled(w, l) && RemovesFinal(w, l, k)
    ensures l.Compensate? || l.Clean?
    ensures l.id in w.rows && w.rows[l.id].key == k
    ensures k in w.linkedBy && w.linkedBy[k] == l.id
    ensures k !in w.artifacts && k !in w.alienFinal
  {
    if l.Compensate? || l.Clean? {
      CleanupTouchesOwn(w, l);
      DisposableIsOwn(w, l.id);
    }
  }

  /** In every run a step removes a final file only through the reservation whose own write linked it; the
      key belongs to no artifact and the name did not exist before the system started. */
  lemma DeletesOnlyOwnBytes(w: World, schedule: seq<Label>, l: Label, k: Key)
    requires Init(w) && Enabled(Run(w, schedule), l) && RemovesFinal(Run(w, schedule), l, k)
    ensures l.Compensate? || l.Clean?
    ensures var v := Run(w, schedule);
            && l.id in v.rows && v.rows[l.id].key == k && k in v.linkedBy && v.linkedBy[k] == l.id
            && k !in v.artifacts && k !in w.final
  {
    InitInv(w);
    RunKeepsBookkeeping(w, schedule);
    AliensStay(w, schedule);
    StepDeletesOnlyOwn(Run(w, schedule), l, k);
  }

  lemma StepKeepsAliens(w: World, l: Label)
    requires Enabled(w, l)
    ensures Next(w, l).alienFinal == w.alienFinal && Next(w, l).alienPending == w.alienPending
  {
    if !l.Commit? { OnlyCommitsAddArtifacts(w, l); }
  }

  lemma {:induction false} AliensStay(w: World, schedule: seq<Label>)
    ensures Run(w, schedule).alienFinal == w.alienFinal && Run(w, schedule).alienPending == w.alienPending
    decreases |schedule|
  {
    if schedule != [] {
      var l := schedule[0];
      if Enabled(w, l) { StepKeepsAliens(w, l); }
      AliensStay(if Enabled(w, l) then Next(w, l) else w, schedule[1..]);
    }
  }

  lemma SettledFileStays(w: World, l: Label, k: Key)
    requires Bookkeeping(w) && Enabled(w, l) && Settled(w, k)
    ensures k in Next(w, l).final && Next(w, l).final[k] == w.final[k]
    ensures Settled(Next(w, l), k)
  {
    AttributionGrows(w, l);
    if l.Compensate? || l.Clean? {
      CleanupTouchesOwn(w, l);
      if Disposable(w, l.id) { DisposableIsOwn(w, l.id); }
    } else {
      OnlyLinksAddFinals(w, l);
    }
  }

  lemma FailuresKeepFinals(w: World, l: Label)
    requires Enabled(w, l) && (l.WriteFails? || l.LinkCollides? || l.FinishWrite? || l.FinishFails?)
    ensures Next(w, l).final == w.final
  {
    match l
    case WriteFails(_, _) =>
    case LinkCollides(_, _) =>
    case _ =>
  }

  lemma OnlyLinksAddFinals(w: World, l: Label)
    requires Enabled(w, l) && !l.Compensate? && !l.Clean?
    ensures Next(w, l).final == w.final ||
            (l.LinkFinal? && w.candidates[l.id].key !in w.final &&
             Next(w, l).final == w.final[w.candidates[l.id].key := w.pending[w.candidates[l.id].key]])
  {
    if l.WriteFails? || l.LinkCollides? || l.FinishWrite? || l.FinishFails? {
      FailuresKeepFinals(w, l);
    }
  }

  lemma AttributionGrows(w: World, l: Label)
    requires Enabled(w, l)
    ensures Next(w, l).alienFinal == w.alienFinal
    ensures forall k :: k in w.artifacts ==> k in Next(w, l).artifacts
  {
    if !l.Commit? { OnlyCommitsAddArtifacts(w, l); }
  }

  // A write that meets an existing name.

  lemma CollisionIsSettled(w: World, l: Label)
    requires Bookkeeping(w) && Enabled(w, l) && l.LinkCollides?
    ensures Settled(w, w.candidates[l.id].key)
  {
    assert CandidateOk(w, l.id);
  }

  /** Bytes under the final name that a write collides with, at any point of any run, survive every later
      step, recorded or not. */
  lemma CollisionBytesSurvive(w: World, before: seq<Label>, l: Label, after: seq<Label>)
    requires Init(w) && Enabled(Run(w, before), l) && l.LinkCollides?
    ensures var v, w' := Run(w, before), Run(Next(Run(w, before), l), after); var k := v.candidates[l.id].key;
            k in v.final && k in w'.final && w'.final[k] == v.final[k]
  {
    InitInv(w);
    RunKeepsBookkeeping(w, before);
    var v := Run(w, before);
    var k := v.candidates[l.id].key;
    CollisionIsSettled(v, l);
    SettledFileStays(v, l, k);
    StepKeepsBookkeeping(v, l);
    SettledFileSurvives(Next(v, l), after, k);
  }

  lemma {:induction false} SettledFileSurvives(w: World, schedule: seq<Label>, k: Key)
    requires Bookkeeping(w) && Settled(w, k)
    ensures k in Run(w, schedule).final && Run(w, schedule).final[k] == w.final[k]
    decreases |schedule|
  {
    if schedule != [] {
      var l := schedule[0];
      if Enabled(w, l) {
        SettledFileStays(w, l, k);
        StepKeepsBookkeeping(w, l);
        SettledFileSurvives(Next(w, l), schedule[1..], k);
      } else {
        SettledFileSurvives(w, schedule[1..], k);
      }
    }
  }

  /** Files that were there before the system started, final or pending, outlast every run unchanged. */
  lemma FilesFromBeforeSurvive(w: World, schedule: seq<Label>)
    requires Init(w)
    ensures var w' := Run(w, schedule);
            && (forall k :: k in w.final ==> k in w'.final && w'.final[k] == w.final[k])
            && (forall k :: k in w.pending ==> k in w'.pending && w'.pending[k] == w.pending[k])
  {
    InitInv(w);
    forall k | k in w.final ensures k in Run(w, schedule).final && Run(w, schedule).final[k] == w.final[k] {
      SettledFileSurvives(w, schedule, k);
    }
    forall k | k in w.pending ensures k in Run(w, schedule).pending && Run(w, schedule).pending[k] == w.pending[k] {
      assert PendingSettled(w, k);
      SettledPendingSurvives(w, schedule, k);
    }
  }

  /** A running write is using the pending name. */
  ghost predicate InFlight(w: World, k: Key) {
    exists q :: UsesPending(w, q, k)
  }

  ghost predicate UsesPending(w: World, q: ReservationId, k: Key) {
    AtStage(w, q) && w.candidates[q].key == k && w.candidates[q].stage.MidWrite()
  }

  /** A pending name that nobody may touch any more. */
  ghost predicate PendingSettled(w: World, k: Key) {
    k in w.pending && (k in w.artifacts || k in w.alienPending) && !InFlight(w, k)
  }

  lemma PendingCollisionIsSettled(w: World, l: Label)
    requires Bookkeeping(w) && Enabled(w, l) && l.OpenCollides?
    ensures var k := w.candidates[l.id].key; k in w.pending && (k in w.artifacts || k in w.alienPending)
  {
    assert CandidateOk(w, l.id);
  }

  /** The steps that act on the file names of a candidate. */
  predicate ActsOnFiles(l: Label) {
    l.OpenPending? || l.OpenCollides? || l.StreamPart? || l.StreamDone? || l.WriteFails? || l.LinkFinal? || l.LinkCollides?
    || l.FinishWrite? || l.FinishFails?
  }

  lemma FailingKeepsPending(w: World, l: Label, k: Key)
    requires Enabled(w, l) && (l.WriteFails? || l.LinkCollides? || l.FinishWrite? || l.FinishFails?) && w.candidates[l.id].key != k
    ensures k in Next(w, l).pending <==> k in w.pending
    ensures k in w.pending ==> Next(w, l).pending[k] == w.pending[k]
    ensures forall q :: UsesPending(Next(w, l), q, k) ==> UsesPending(w, q, k)
  {
    match l
    case WriteFails(_, _) =>
    case LinkCollides(_, _) =>
    case _ =>
  }

  lemma FileStepKeepsPending(w: World, l: Label, k: Key)
    requires Enabled(w, l) && ActsOnFiles(l) && w.candidates[l.id].key != k
    ensures k in Next(w, l).pending <==> k in w.pending
    ensures k in w.pending ==> Next(w, l).pending[k] == w.pending[k]
    ensures forall q :: UsesPending(Next(w, l), q, k) ==> UsesPending(w, q, k)
  {
    if l.WriteFails? || l.LinkCollides? || l.FinishWrite? || l.FinishFails? { FailingKeepsPending(w, l, k); }
  }

  /** On a settled name a file step can only be a write that does not get as far as the name. */
  lemma FileStepOnSettled(w: World, l: Label, k: Key)
    requires Enabled(w, l) && ActsOnFiles(l) && w.candidates[l.id].key == k && PendingSettled(w, k)
    ensures Next(w, l).pending == w.pending
    ensures forall q :: UsesPending(Next(w, l), q, k) ==> UsesPending(w, q, k)
  {
    assert w.candidates[l.id].stage.MidWrite() ==> UsesPending(w, l.id, k);
    match l
    case OpenCollides(_) =>
    case WriteFails(_, _) =>
    case _ => assert false;
  }

  lemma OtherStepKeepsPending(w: World, l: Label, k: Key)
    requires Enabled(w, l) && !ActsOnFiles(l) && !l.Compensate? && !l.Clean?
    ensures Next(w, l).pending == w.pending
    ensures forall q :: UsesPending(Next(w, l), q, k) && q in w.candidates ==> UsesPending(w, q, k) || l.Begin?
    ensures forall q :: q in Next(w, l).candidates && q !in w.candidates ==> !UsesPending(Next(w, l), q, k)
  {
  }

  lemma PendingSettledStays(w: World, l: Label, k: Key)
    requires Bookkeeping(w) && Enabled(w, l) && PendingSettled(w, k)
    ensures PendingSettled(Next(w, l), k) && Next(w, l).pending[k] == w.pending[k]
  {
    AttributionGrows(w, l);
    StepKeepsAliens(w, l);
    if l.Compensate? || l.Clean? {
      CleanupKeepsPending(w, l, k);
    } else if ActsOnFiles(l) {
      if w.candidates[l.id].key == k { FileStepOnSettled(w, l, k); } else { FileStepKeepsPending(w, l, k); }
    } else {
      if l.Begin? { BeginnerHasNoWrites(w, l, k); }
      OtherStepKeepsPending(w, l, k);
    }
  }

  lemma CleanupFrees(w: World, l: Label, k: Key)
    requires Enabled(w, l) && (l.Compensate? || l.Clean?)
    ensures forall q :: UsesPending(Next(w, l), q, k) ==> UsesPending(w, q, k)
  {
    match l
    case Compensate(r, out) => assert SameProcesses(w, CompensateOne(w, r, out));
    case Clean(r, _, out) => assert SameProcesses(w, CleanOne(w, r, out));
  }

  lemma CleanupKeepsPending(w: World, l: Label, k: Key)
    requires Bookkeeping(w) && Enabled(w, l) && (l.Compensate? || l.Clean?) && PendingSettled(w, k)
    ensures k in Next(w, l).pending && Next(w, l).pending[k] == w.pending[k] && !InFlight(Next(w, l), k)
  {
    CleanupTouchesOwn(w, l);
    if Disposable(w, l.id) { DisposableIsOwn(w, l.id); }
    CleanupFrees(w, l, k);
  }

  lemma BeginnerHasNoWrites(w: World, l: Label, k: Key)
    requires Bookkeeping(w) && Enabled(w, l) && l.Begin?
    ensures forall q :: UsesPending(Next(w, l), q, k) ==> UsesPending(w, q, k)
  {
    forall q | UsesPending(Next(w, l), q, k) ensures UsesPending(w, q, k) {
      assert CandidateOk(w, q);
    }
  }

  lemma {:induction false} SettledPendingSurvives(w: World, schedule: seq<Label>, k: Key)
    requires Bookkeeping(w) && PendingSettled(w, k)
    ensures k in Run(w, schedule).pending && Run(w, schedule).pending[k] == w.pending[k]
    decreases |schedule|
  {
    if schedule != [] {
      var l := schedule[0];
      if Enabled(w, l) {
        PendingSettledStays(w, l, k);
        StepKeepsBookkeeping(w, l);
        SettledPendingSurvives(Next(w, l), schedule[1..], k);
      } else {
        SettledPendingSurvives(w, schedule[1..], k);
      }
    }
  }

  /** The pending file outlasts every schedule unchanged. */
  ghost predicate PendingSafe(w: World, k: Key) {
    k in w.pending && forall after :: k in Run(w, after).pending && Run(w, after).pending[k] == w.pending[k]
  }

  lemma InFlightEnds(w: World, k: Key, q: ReservationId)
    requires Bookkeeping(w) && k in w.pending && UsesPending(w, q, k)
    ensures !PendingSafe(w, k)
  {
    var l := if w.candidates[q].stage.Linked? then FinishWrite(q) else WriteFails(q, true);
    assert Run(w, [l]) == Next(w, l);
    assert k !in Run(w, [l]).pending;
  }

  lemma CollisionKeepsWrites(w: World, l: Label, k: Key)
    requires Enabled(w, l) && l.OpenCollides?
    ensures Next(w, l).pending == w.pending
    ensures forall q :: UsesPending(Next(w, l), q, k) <==> UsesPending(w, q, k)
  {
  }

  /** A pending file that a write collides with, at any point of any run, survives every later step if and
      only if no running write is using it: one whose key has been taken by an artifact meanwhile. */
  lemma PendingCollisionSurvives(w: World, before: seq<Label>, l: Label)
    requires Init(w) && Enabled(Run(w, before), l) && l.OpenCollides?
    ensures var v := Run(w, before); var k := v.candidates[l.id].key;
            && Next(v, l).pending == v.pending
            && (PendingSafe(Next(v, l), k) <==> !InFlight(v, k))
            && (InFlight(v, k) ==> k in v.artifacts)
  {
    InitInv(w);
    RunKeepsBookkeeping(w, before);
    var v := Run(w, before);
    var k := v.candidates[l.id].key;
    PendingCollisionIsSettled(v, l);
    CollisionKeepsWrites(v, l, k);
    StepKeepsBookkeeping(v, l);
    if InFlight(v, k) {
      var q :| UsesPending(v, q, k);
      assert CandidateOk(v, q);
      assert UsesPending(Next(v, l), q, k);
      InFlightEnds(Next(v, l), k, q);
    } else {
      AttributionGrows(v, l);
      StepKeepsAliens(v, l);
      forall after ensures k in Run(Next(v, l), after).pending && Run(Next(v, l), after).pending[k] == v.pending[k] {
        SettledPendingSurvives(Next(v, l), after, k);
      }
    }
  }

  // The main theorem.

  lemma CommitIntact(w: World, a: AttemptId, acknowledged: bool)
    requires Inv(w) && Enabled(w, Commit(a, acknowledged)) && Timely(w, Commit(a, acknowledged))
    ensures ArtifactsIntact(CommitRows(w, a, acknowledged))
  {
    var w' := CommitRows(w, a, acknowledged);
    forall k | k in PreparedKeys(w, a)
      ensures w'.artifacts[k].key == k && k in w.final && Matches(w, w.final[k], w'.artifacts[k])
    {
      var r :| Owner(w, r, a) && r in w.candidates && w.candidates[r].stage.Verified? && w.candidates[r].stage.receipt.key == k
        by { WitnessOf(w, a, k); }
      CommitNames(w, a, r);
      assert CandidateOk(w, r) && Committable(w, r);
    }
  }

  lemma WitnessOf(w: World, a: AttemptId, k: Key)
    requires CommitReady(w, a) && k in PreparedKeys(w, a)
    ensures exists r :: Owner(w, r, a) && r in w.candidates && w.candidates[r].stage.Verified? && w.candidates[r].stage.receipt.key == k
  {
    var r :| r in w.candidates && Owner(w, r, a) && w.candidates[r].stage.receipt.key == k;
    assert Committable(w, r);
  }

  lemma FailuresKeepArtifacts(w: World, l: Label)
    requires Enabled(w, l) && (l.WriteFails? || l.LinkCollides? || l.FinishWrite? || l.FinishFails?)
    ensures SameArtifacts(w, Next(w, l))
  {
    match l
    case WriteFails(_, _) =>
    case LinkCollides(_, _) =>
    case _ =>
  }

  lemma OnlyCommitsAddArtifacts(w: World, l: Label)
    requires Enabled(w, l) && !l.Commit?
    ensures SameArtifacts(w, Next(w, l))
  {
    match l
    case Compensate(_, _) =>
    case Clean(_, _, _) =>
    case WriteFails(_, _) => FailuresKeepArtifacts(w, l);
    case LinkCollides(_, _) => FailuresKeepArtifacts(w, l);
    case FinishWrite(_) => FailuresKeepArtifacts(w, l);
    case FinishFails(_, _) => FailuresKeepArtifacts(w, l);
    case _ =>
  }

  lemma StepKeepsIntact(w: World, l: Label)
    requires Inv(w) && Enabled(w, l) && Timely(w, l)
    ensures Inv(Next(w, l))
  {
    StepKeepsBookkeeping(w, l);
    if l.Commit? {
      CommitIntact(w, l.attempt, l.acknowledged);
    } else {
      var w' := Next(w, l);
      OnlyCommitsAddArtifacts(w, l);
      forall k | k in w'.artifacts
        ensures w'.artifacts[k].key == k && k in w'.final && Matches(w', w'.final[k], w'.artifacts[k])
      {
        SettledFileStays(w, l, k);
      }
    }
  }

  /** Every commit taken along the schedule is timely. */
  ghost predicate AllTimely(w: World, schedule: seq<Label>)
    decreases |schedule|
  {
    schedule == [] ||
    (if Enabled(w, schedule[0])
     then Timely(w, schedule[0]) && AllTimely(Next(w, schedule[0]), schedule[1..])
     else AllTimely(w, schedule[1..]))
  }

  lemma {:induction false} RunKeepsInv(w: World, schedule: seq<Label>)
    requires Inv(w) && AllTimely(w, schedule)
    ensures Inv(Run(w, schedule))
    decreases |schedule|
  {
    if schedule != [] {
      if Enabled(w, schedule[0]) {
        StepKeepsIntact(w, schedule[0]);
        RunKeepsInv(Next(w, schedule[0]), schedule[1..]);
      } else {
        RunKeepsInv(w, schedule[1..]);
      }
    }
  }

  lemma {:induction false} RunKeepsBookkeeping(w: World, schedule: seq<Label>)
    requires Bookkeeping(w)
    ensures Bookkeeping(Run(w, schedule))
    decreases |schedule|
  {
    if schedule != [] {
      if Enabled(w, schedule[0]) {
        StepKeepsBookkeeping(w, schedule[0]);
        RunKeepsBookkeeping(Next(w, schedule[0]), schedule[1..]);
      } else {
        RunKeepsBookkeeping(w, schedule[1..]);
      }
    }
  }

  /** Whatever the interleaving, the write outcomes and the crashes: if attempts commit before their
      reservations expire, every committed artifact has exactly the bytes it describes. */
  lemma CommittedArtifactsHaveTheirBytes(w: World, schedule: seq<Label>)
    requires Init(w) && AllTimely(w, schedule)
    ensures ArtifactsIntact(Run(w, schedule))
  {
    InitInv(w);
    RunKeepsInv(w, schedule);
  }

  /** No file is ever left untracked, timely or not. */
  lemma NoFileUntracked(w: World, schedule: seq<Label>)
    requires Init(w)
    ensures Tracked(Run(w, schedule))
  {
    InitInv(w);
    RunKeepsBookkeeping(w, schedule);
  }

  // Why commits must be timely.

  /** Whatever one cleaner transaction does first, the commit leaves every artifact intact. */
  ghost predicate SurvivesCleaner(w: World, a: AttemptId) {
    forall r, cutoff, out: CleanupOutcome, w1 ::
      Step(w, Clean(r, cutoff, out), w1) && CommitReady(w1, a) ==> ArtifactsIntact(CommitRows(w1, a, true))
  }

  /** The cleaner unlinks both names, then its transaction rolls back: the row looks untouched. */
  const ROLLED_BACK := CleanupOutcome(true, true, false, false)

  lemma ExpiredRowLosesItsBytes(w: World, a: AttemptId, r: ReservationId)
    requires Inv(w) && CommitReady(w, a) && Owner(w, r, a) && w.candidates[r].expiresAt <= w.now
    ensures var w1 := CleanOne(w, r, ROLLED_BACK);
            && Enabled(w, Clean(r, w.now, ROLLED_BACK)) && Enabled(w1, Commit(a, true))
            && !ArtifactsIntact(CommitRows(w1, a, true))
  {
    var k := w.candidates[r].key;
    CommitNames(w, a, r);
    assert CandidateOk(w, r) && RowOk(w, r) && Committable(w, r);
    var w1 := CleanOne(w, r, ROLLED_BACK);
    assert w1 == w.(final := w.final - {k}, pending := w.pending - {k});
    forall q | Owner(w1, q, a) ensures Committable(w1, q) {
      assert Owner(w, q, a) && Committable(w, q);
    }
    CleanKeeps(w, r, w.now, ROLLED_BACK);
    CommitNames(w1, a, r);
    var w2 := CommitRows(w1, a, true);
    assert k in w2.artifacts && k !in w2.final;
  }

  lemma TimelySurvivesCleaner(w: World, a: AttemptId, l: Label, w1: World)
    requires Inv(w) && Timely(w, Commit(a, true)) && l.Clean? && Step(w, l, w1) && CommitReady(w1, a)
    ensures ArtifactsIntact(CommitRows(w1, a, true))
  {
    StepKeepsIntact(w, l);
    assert SameProcesses(w, CleanOne(w, l.id, l.outcome));
    assert forall q :: Owner(w1, q, a) ==> Owner(w, q, a);
    CommitIntact(w1, a, true);
  }

  /** A commit is safe from a cleaner acting at the same instant exactly when it is timely. */
  lemma CommitSafeExactlyWhenTimely(w: World, a: AttemptId)
    requires Inv(w) && CommitReady(w, a)
    ensures SurvivesCleaner(w, a) <==> Timely(w, Commit(a, true))
  {
    if Timely(w, Commit(a, true)) {
      forall r, cutoff, out: CleanupOutcome, w1 | Step(w, Clean(r, cutoff, out), w1) && CommitReady(w1, a)
        ensures ArtifactsIntact(CommitRows(w1, a, true))
      {
        TimelySurvivesCleaner(w, a, Clean(r, cutoff, out), w1);
      }
    } else {
      var r :| Owner(w, r, a) && w.candidates[r].expiresAt <= w.now;
      ExpiredRowLosesItsBytes(w, a, r);
      assert Step(w, Clean(r, w.now, ROLLED_BACK), CleanOne(w, r, ROLLED_BACK));
    }
  }

  lemma {:induction false} RunConcat(w: World, first: seq<Label>, second: seq<Label>)
    ensures Run(w, first + second) == Run(Run(w, first), second)
    decreases |first|
  {
    if first == [] {
      assert first + second == second;
    } else {
      assert (first + second)[1..] == first[1..] + second;
      RunConcat(if Enabled(w, first[0]) then Next(w, first[0]) else w, first[1..], second);
    }
  }

  ghost function EmptyWorld(): World {
    World(_ => 0, 0, map[], map[], map[], map[], map[], map[], {}, map[], {}, {})
  }

  ghost function OpenedWorld(): World {
    EmptyWorld().(
      pending := map[7 := []], phases := map[1 := Running], usedIds := {5},
      rows := map[5 := Row(7, RESERVATION_LIFETIME, RESERVED, None, false)],
      candidates := map[5 := Candidate(1, 7, RESERVATION_LIFETIME, Opened)])
  }

  ghost function ReadyWorld(): World {
    EmptyWorld().(
      final := map[7 := []], linkedBy := map[7 := 5], phases := map[1 := Running], usedIds := {5},
      rows := map[5 := Row(7, RESERVATION_LIFETIME, OWNED, Some(Receipt(7, 0, 0)), false)],
      candidates := map[5 := Candidate(1, 7, RESERVATION_LIFETIME, Verified(Receipt(7, 0, 0)))])
  }

  ghost function StreamedWorld(): World {
    SetStage(OpenedWorld(), 5, Streamed(Receipt(7, 0, 0)))
  }

  ghost function LinkedWorld(): World {
    SetStage(OpenedWorld(), 5, Linked(Receipt(7, 0, 0))).(final := map[7 := []], linkedBy := map[7 := 5])
  }

  ghost function StoredWorld(): World {
    SetStage(LinkedWorld(), 5, Stored(Receipt(7, 0, 0))).(pending := map[])
  }

  ghost function ExpiredWorld(): World {
    ReadyWorld().(now := RESERVATION_LIFETIME)
  }

  ghost function UnlinkedWorld(): World {
    ExpiredWorld().(final := map[])
  }

  lemma OpenStep()
    ensures Run(EmptyWorld(), [Begin(1), Reserve(1, 5, 7), OpenPending(5)]) == OpenedWorld()
  {
  }

  lemma StreamStep()
    ensures Step(OpenedWorld(), StreamDone(5), StreamedWorld())
  {
  }

  lemma LinkStep()
    ensures Step(StreamedWorld(), LinkFinal(5), LinkedWorld())
  {
  }

  lemma FinishStep()
    ensures Step(LinkedWorld(), FinishWrite(5), StoredWorld())
  {
  }

  lemma MarkStep()
    ensures Step(StoredWorld(), MarkVerified(5, true), ReadyWorld())
  {
  }

  lemma ExpireStep()
    ensures Step(ReadyWorld(), Tick(RESERVATION_LIFETIME), ExpiredWorld())
  {
  }

  lemma UnlinkStep()
    ensures Step(ExpiredWorld(), Clean(5, RESERVATION_LIFETIME, ROLLED_BACK), UnlinkedWorld())
  {
  }

  lemma CommitStep()
    ensures Enabled(UnlinkedWorld(), Commit(1, true))
    ensures var w := Next(UnlinkedWorld(), Commit(1, true)); 7 in w.artifacts && 7 !in w.final
  {
    var w := UnlinkedWorld();
    assert forall r :: Owner(w, r, 1) ==> Committable(w, r);
    assert Owner(w, 5, 1) && 7 in PreparedKeys(w, 1);
  }

  lemma RunStep(w: World, l: Label, w': World, rest: seq<Label>)
    requires Step(w, l, w')
    ensures Run(w, [l] + rest) == Run(w', rest)
  {
    assert ([l] + rest)[1..] == rest;
  }

  /** From an empty system: one attempt is ready, a day passes, the cleaner unlinks the bytes and its
      transaction rolls back, and the late commit leaves an artifact without a file. */
  lemma LateCommitLosesBytes()
    ensures Init(EmptyWorld())
    ensures var schedule := [Begin(1), Reserve(1, 5, 7), OpenPending(5)] + ([StreamDone(5)] + ([LinkFinal(5)] +
              ([FinishWrite(5)] + ([MarkVerified(5, true)] + ([Tick(RESERVATION_LIFETIME)] +
              ([Clean(5, RESERVATION_LIFETIME, ROLLED_BACK)] + ([Commit(1, true)] + [])))))));
            var w := Run(EmptyWorld(), schedule);
            7 in w.artifacts && 7 !in w.final
  {
    var s7: seq<Label> := [Commit(1, true)] + [];
    var s6 := [Clean(5, RESERVATION_LIFETIME, ROLLED_BACK)] + s7;
    var s5 := [Tick(RESERVATION_LIFETIME)] + s6;
    var s4 := [MarkVerified(5, true)] + s5;
    var s3 := [FinishWrite(5)] + s4;
    var s2 := [LinkFinal(5)] + s3;
    var s1 := [StreamDone(5)] + s2;
    RunConcat(EmptyWorld(), [Begin(1), Reserve(1, 5, 7), OpenPending(5)], s1);
    OpenStep();
    StreamStep();
    RunStep(OpenedWorld(), StreamDone(5), StreamedWorld(), s2);
    LinkStep();
    RunStep(StreamedWorld(), LinkFinal(5), LinkedWorld(), s3);
    FinishStep();
    RunStep(LinkedWorld(), FinishWrite(5), StoredWorld(), s4);
    MarkStep();
    RunStep(StoredWorld(), MarkVerified(5, true), ReadyWorld(), s5);
    ExpireStep();
    RunStep(ReadyWorld(), Tick(RESERVATION_LIFETIME), ExpiredWorld(), s6);
    UnlinkStep();
    RunStep(ExpiredWorld(), Clean(5, RESERVATION_LIFETIME, ROLLED_BACK), UnlinkedWorld(), s7);
    CommitStep();
    RunStep(UnlinkedWorld(), Commit(1, true), Next(UnlinkedWorld(), Commit(1, true)), []);
  }
}
