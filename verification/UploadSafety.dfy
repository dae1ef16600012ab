/** The inductive invariant of the upload protocol and its preservation by every step. */
module UploadSafety {
  import opened Wrappers
  import opened UploadProtocol

  /** The final file of `k` holds the bytes that `rc` describes, put there by `r`. */
  ghost predicate Holds(w: World, r: ReservationId, k: Key, rc: Receipt) {
    && k in w.final && Matches(w, w.final[k], rc)
    && k in w.linkedBy && w.linkedBy[k] == r
  }

  /** Files under `k` belong to a committed artifact or were there from the start. */
  ghost predicate SettledKey(w: World, k: Key) {
    && (k in w.final ==> k in w.artifacts || k in w.alienFinal)
    && (k in w.pending ==> k in w.artifacts || k in w.alienPending)
  }

  /** What a stage says about the file names of a key that no artifact owns. */
  ghost predicate FilesOk(w: World, r: ReservationId, c: Candidate) {
    var k := c.key;
    match c.stage
    case Reserved => SettledKey(w, k)
    case Collided => SettledKey(w, k)
    case Failed => SettledKey(w, k)
    case Uncertain => true
    case Opened => k in w.pending && (k in w.final ==> k in w.alienFinal)
    case Streamed(rc) => k in w.pending && Matches(w, w.pending[k], rc) && (k in w.final ==> k in w.alienFinal)
    case Linked(rc) => k in w.pending && Holds(w, r, k, rc)
    case _ => k in w.final ==> k in w.linkedBy && w.linkedBy[k] == r
  }

  /** What a stage says about its reservation row. */
  ghost predicate RowFits(c: Candidate, row: Row) {
    && row.key == c.key && row.expiresAt == c.expiresAt
    && (c.stage.OwnsBytes() ==> row.state != COLLISION && (row.state == OWNED ==> row.verified == Some(c.stage.receipt)))
    && (!c.stage.OwnsBytes() ==> row.state == RESERVED || (c.stage.Collided? && row.state == COLLISION))
  }

  /** Names that existed before the system started are never taken over. */
  ghost predicate Fresh(w: World, c: Candidate) {
    && (c.stage.MidWrite() ==> c.key !in w.alienPending)
    && (c.stage.OwnsBytes() || c.stage.Linked? ==> c.key !in w.alienPending && c.key !in w.alienFinal)
    && (c.stage.OwnsBytes() || c.stage.Streamed? || c.stage.Linked? ==> c.stage.receipt.key == c.key)
  }

  ghost predicate CandidateOk(w: World, r: ReservationId)
    requires r in w.candidates
  {
    var c := w.candidates[r];
    var running := IsRunning(w, c.attempt);
    && c.attempt in w.phases
    && r in w.usedIds
    && Fresh(w, c)
    && (c.stage.MidWrite() ==> running)
    && (r in w.rows ==> RowFits(c, w.rows[r]))
    && (r in w.rows && c.key !in w.artifacts ==> FilesOk(w, r, c))
    && (running && (c.stage.Reserved? || c.stage.MidWrite()) && c.key !in w.artifacts ==> r in w.rows)
    && (running && c.stage.OwnsBytes() && w.now < c.expiresAt && c.key !in w.artifacts ==>
          r in w.rows && Holds(w, r, c.key, c.stage.receipt))
    && (running && c.stage.Verified? && r in w.rows ==> w.rows[r].state == OWNED)
  }

  ghost predicate RowOk(w: World, r: ReservationId)
    requires r in w.rows
  {
    var row := w.rows[r];
    && r in w.usedIds
    && (row.state == OWNED <==> row.verified.Some?)
    && (row.state == OWNED ==> r in w.candidates && w.candidates[r].stage.OwnsBytes())
    && (row.state == COLLISION ==> r in w.candidates && w.candidates[r].stage.Collided?)
  }

  ghost predicate KeysUnique(w: World) {
    forall r1, r2 :: r1 in w.rows && r2 in w.rows && w.rows[r1].key == w.rows[r2].key ==> r1 == r2
  }

  /** Every file is accounted for. */
  ghost predicate Tracked(w: World) {
    && (forall k :: k in w.final ==> k in w.artifacts || k in w.alienFinal || KeyReserved(w, k))
    && (forall k :: k in w.pending ==> k in w.artifacts || k in w.alienPending || KeyReserved(w, k))
  }

  ghost predicate AliensOk(w: World) {
    && (forall k :: k in w.alienFinal ==> k in w.final)
    && (forall k :: k in w.alienPending ==> k in w.pending)
  }

  /** Every committed artifact's file holds exactly the bytes its size and digest describe. */
  ghost predicate ArtifactsIntact(w: World) {
    forall k :: k in w.artifacts ==>
      w.artifacts[k].key == k && k in w.final && Matches(w, w.final[k], w.artifacts[k])
  }

  /** Everything but `ArtifactsIntact`: this part needs no timeliness. */
  ghost predicate Bookkeeping(w: World) {
    && (forall r :: r in w.candidates ==> CandidateOk(w, r))
    && (forall r :: r in w.rows ==> RowOk(w, r))
    && KeysUnique(w) && Tracked(w) && AliensOk(w)
  }

  ghost predicate Inv(w: World) {
    Bookkeeping(w) && ArtifactsIntact(w)
  }

  lemma InitInv(w: World)
    requires Init(w)
    ensures Inv(w)
  {
  }

  // Every step keeps the bookkeeping, whatever its timing.

  /** What a step on the reservation `r` of key `k` leaves alone. */
  ghost predicate Local(w: World, w': World, r: ReservationId, k: Key) {
    && w'.sha256 == w.sha256 && w'.now == w.now && w'.artifacts == w.artifacts
    && w'.alienFinal == w.alienFinal && w'.alienPending == w.alienPending
    && (forall r2 :: r2 in w.usedIds ==> r2 in w'.usedIds)
    && (forall r2 :: r2 != r ==> (r2 in w'.candidates <==> r2 in w.candidates))
    && (forall r2 :: r2 != r && r2 in w.candidates ==> w'.candidates[r2] == w.candidates[r2])
    && (forall r2 :: r2 != r ==> (r2 in w'.rows <==> r2 in w.rows))
    && (forall r2 :: r2 != r && r2 in w.rows ==> w'.rows[r2] == w.rows[r2])
    && (forall a :: a in w.phases ==> a in w'.phases)
    && (forall a :: IsRunning(w', a) ==> IsRunning(w, a))
    && (forall r2 :: r2 in w.candidates && w.candidates[r2].stage.MidWrite() && r2 != r ==>
          (IsRunning(w, w.candidates[r2].attempt) ==> IsRunning(w', w.candidates[r2].attempt)))
    && LocalFiles(w, w', k)
  }

  ghost predicate LocalFiles(w: World, w': World, k: Key) {
    && (forall j :: j != k ==> (j in w'.final <==> j in w.final))
    && (forall j :: j != k && j in w.final ==> w'.final[j] == w.final[j])
    && (forall j :: j != k ==> (j in w'.pending <==> j in w.pending))
    && (forall j :: j != k && j in w.pending ==> w'.pending[j] == w.pending[j])
    && (forall j :: j != k ==> (j in w'.linkedBy <==> j in w.linkedBy))
    && (forall j :: j != k && j in w.linkedBy ==> w'.linkedBy[j] == w.linkedBy[j])
  }

  ghost predicate SameFiles(w: World, w': World) {
    w'.final == w.final && w'.pending == w.pending && w'.linkedBy == w.linkedBy
  }

  lemma OtherCandidate(w: World, w': World, r: ReservationId, k: Key, r2: ReservationId)
    requires Local(w, w', r, k)
    requires SameFiles(w, w') || k in w.artifacts || (r in w.rows && w.rows[r].key == k && KeysUnique(w))
    requires r2 != r && r2 in w.candidates && CandidateOk(w, r2)
    ensures r2 in w'.candidates && CandidateOk(w', r2)
  {
    var c := w.candidates[r2];
    assert w'.candidates[r2] == c;
    if r2 in w.rows {
      assert w'.rows[r2] == w.rows[r2];
      assert SameFiles(w, w') || k in w.artifacts || c.key != k;
      assert r2 in w.rows && c.key !in w.artifacts ==> FilesOk(w', r2, c);
    }
  }

  /** What the bookkeeping says about one reservation, its key and nothing else. */
  ghost predicate OwnPart(w: World, r: ReservationId, k: Key) {
    && (r in w.candidates ==> CandidateOk(w, r))
    && (r in w.rows ==> RowOk(w, r) && w.rows[r].key == k)
    && (k in w.alienFinal ==> k in w.final)
    && (k in w.alienPending ==> k in w.pending)
  }

  /** A step on the reservation `r` of key `k` that leaves its own part in order and disturbs no other. */
  ghost predicate Justified(w: World, w': World, r: ReservationId, k: Key) {
    && Local(w, w', r, k) && OwnPart(w', r, k)
    && (SameFiles(w, w') || k in w.artifacts || r in w.rows)
    && (r in w'.rows && r !in w.rows ==> !KeyReserved(w, k))
    && (r in w.rows && r !in w'.rows ==> k in w.artifacts || SettledKey(w', k))
  }

  lemma KnowsOwn(w: World, r: ReservationId)
    requires Bookkeeping(w)
    ensures r in w.candidates ==> OwnPart(w, r, w.candidates[r].key)
    ensures r in w.rows ==> OwnPart(w, r, w.rows[r].key)
  {
    if r in w.candidates { assert CandidateOk(w, r); }
    if r in w.rows { assert RowOk(w, r); }
  }

  /** A justified step keeps the bookkeeping. */
  lemma LocalStep(w: World, w': World, r: ReservationId, k: Key)
    requires Bookkeeping(w) && OwnPart(w, r, k) && Justified(w, w', r, k)
    ensures Bookkeeping(w')
  {
    forall r2 | r2 in w'.candidates ensures CandidateOk(w', r2) {
      if r2 != r { OtherCandidate(w, w', r, k, r2); }
    }
    forall r2 | r2 in w'.rows ensures RowOk(w', r2) {
      if r2 != r { assert RowOk(w, r2); }
    }
    LocalReserved(w, w', r, k);
    LocalTracked(w, w', r, k);
  }

  lemma LocalReserved(w: World, w': World, r: ReservationId, k: Key)
    requires OwnPart(w, r, k) && Justified(w, w', r, k)
    ensures r in w'.rows ==> KeyReserved(w', k)
    ensures forall j :: j != k && KeyReserved(w, j) ==> KeyReserved(w', j)
    ensures r !in w.rows && r !in w'.rows && KeyReserved(w, k) ==> KeyReserved(w', k)
  {
    if r in w'.rows { assert KeyReserved(w', k); }
    forall j | j != k && KeyReserved(w, j) ensures KeyReserved(w', j) {
      var r2 :| r2 in w.rows && w.rows[r2].key == j;
      assert r2 != r && r2 in w'.rows && w'.rows[r2].key == j;
    }
    if r !in w.rows && r !in w'.rows && KeyReserved(w, k) {
      var r2 :| r2 in w.rows && w.rows[r2].key == k;
      assert r2 in w'.rows && w'.rows[r2].key == k;
      assert KeyReserved(w', k);
    }
  }

  lemma LocalTracked(w: World, w': World, r: ReservationId, k: Key)
    requires KeysUnique(w) && Tracked(w) && AliensOk(w) && OwnPart(w, r, k) && Justified(w, w', r, k)
    requires r in w'.rows ==> KeyReserved(w', k)
    requires forall j :: j != k && KeyReserved(w, j) ==> KeyReserved(w', j)
    requires r !in w.rows && r !in w'.rows && KeyReserved(w, k) ==> KeyReserved(w', k)
    ensures KeysUnique(w') && Tracked(w') && AliensOk(w')
  {
  }

  lemma BeginKeeps(w: World, a: AttemptId)
    requires Bookkeeping(w) && Enabled(w, Begin(a))
    ensures Bookkeeping(Next(w, Begin(a)))
  {
    PhasesKeep(w, Next(w, Begin(a)), a);
  }

  lemma FailKeeps(w: World, a: AttemptId)
    requires Bookkeeping(w) && Enabled(w, Fail(a))
    ensures Bookkeeping(Next(w, Fail(a)))
  {
    forall r | r in w.candidates && w.candidates[r].attempt == a
      ensures !w.candidates[r].stage.MidWrite()
    {
      assert Owner(w, r, a);
    }
    PhasesKeep(w, Next(w, Fail(a)), a);
  }

  /** Starting an attempt, or ending one that is not in the middle of a write. */
  lemma PhasesKeep(w: World, w': World, a: AttemptId)
    requires Bookkeeping(w)
    requires a in w'.phases && w' == w.(phases := w.phases[a := w'.phases[a]])
    requires IsRunning(w', a) ==> a !in w.phases
    requires forall r :: r in w.candidates && w.candidates[r].attempt == a ==> !w.candidates[r].stage.MidWrite()
    ensures Bookkeeping(w')
  {
    forall k | KeyReserved(w, k) ensures KeyReserved(w', k) {
      var r :| r in w.rows && w.rows[r].key == k;
      assert r in w'.rows && w'.rows[r].key == k;
    }
    forall r | r in w'.candidates ensures CandidateOk(w', r) {
      assert CandidateOk(w, r);
      var c := w.candidates[r];
      assert r in w.rows && c.key !in w.artifacts ==> FilesOk(w', r, c);
    }
    forall r | r in w'.rows ensures RowOk(w', r) {
      assert RowOk(w, r);
    }
  }

  lemma TickKeeps(w: World, to: Time)
    requires Bookkeeping(w) && Enabled(w, Tick(to))
    ensures Bookkeeping(Next(w, Tick(to)))
  {
    var w' := Next(w, Tick(to));
    forall k | KeyReserved(w, k) ensures KeyReserved(w', k) {
      var r :| r in w.rows && w.rows[r].key == k;
      assert r in w'.rows && w'.rows[r].key == k;
    }
    forall r | r in w'.candidates ensures CandidateOk(w', r) {
      assert CandidateOk(w, r);
      var c := w.candidates[r];
      assert r in w.rows && c.key !in w.artifacts ==> FilesOk(w', r, c);
    }
    forall r | r in w'.rows ensures RowOk(w', r) {
      assert RowOk(w, r);
    }
  }

  lemma FreshId(w: World, r: ReservationId)
    requires Bookkeeping(w) && r !in w.usedIds
    ensures r !in w.candidates && r !in w.rows
  {
    assert r in w.candidates ==> CandidateOk(w, r);
    assert r in w.rows ==> RowOk(w, r);
  }

  lemma ReserveKeeps(w: World, a: AttemptId, r: ReservationId, k: Key)
    requires Bookkeeping(w) && Enabled(w, Reserve(a, r, k))
    ensures Bookkeeping(Next(w, Reserve(a, r, k)))
  {
    FreshId(w, r);
    assert SettledKey(w, k);
    ReserveJustified(w, a, r, k);
    LocalStep(w, Next(w, Reserve(a, r, k)), r, k);
  }

  lemma ReserveJustified(w: World, a: AttemptId, r: ReservationId, k: Key)
    requires Enabled(w, Reserve(a, r, k)) && OwnPart(w, r, k) && SettledKey(w, k) && r !in w.candidates && r !in w.rows
    ensures Justified(w, Next(w, Reserve(a, r, k)), r, k)
  {
    var w' := Next(w, Reserve(a, r, k));
    assert FilesOk(w', r, w'.candidates[r]);
  }

  lemma AddRowJustified(w: World, r: ReservationId, k: Key)
    requires OwnPart(w, r, k) && !KeyReserved(w, k) && r !in w.candidates && r !in w.rows
    ensures Justified(w, AddRow(w, r, k), r, k)
  {
  }

  lemma ReserveLostKeeps(w: World, a: AttemptId, r: ReservationId, k: Key)
    requires Bookkeeping(w) && Enabled(w, ReserveLost(a, r, k))
    ensures Bookkeeping(Next(w, ReserveLost(a, r, k)))
  {
    FreshId(w, r);
    var w1 := AddRow(w, r, k);
    AddRowJustified(w, r, k);
    LocalStep(w, w1, r, k);
    assert forall q :: Owner(w, q, a) <==> Owner(w1, q, a);
    FailKeeps(w1, a);
    assert Next(w, ReserveLost(a, r, k)) == Next(w1, Fail(a));
  }

  // The steps of one write.

  lemma SetStageKeeps(w: World, r: ReservationId, s: Stage)
    requires Bookkeeping(w) && AtStage(w, r) && !s.OwnsBytes() && !s.Reserved?
    requires Fresh(w, w.candidates[r].(stage := s))
    requires r in w.rows ==> RowFits(w.candidates[r].(stage := s), w.rows[r]) && w.rows[r].state != OWNED
    requires w.candidates[r].key in w.artifacts || FilesOk(w, r, w.candidates[r].(stage := s))
    requires w.candidates[r].key in w.artifacts || r in w.rows
    ensures Bookkeeping(SetStage(w, r, s))
  {
    KnowsOwn(w, r);
    SetStageJustified(w, r, s);
    LocalStep(w, SetStage(w, r, s), r, w.candidates[r].key);
  }

  lemma SetStageJustified(w: World, r: ReservationId, s: Stage)
    requires AtStage(w, r) && !s.OwnsBytes() && !s.Reserved? && OwnPart(w, r, w.candidates[r].key)
    requires Fresh(w, w.candidates[r].(stage := s))
    requires r in w.rows ==> RowFits(w.candidates[r].(stage := s), w.rows[r]) && w.rows[r].state != OWNED
    requires w.candidates[r].key in w.artifacts || FilesOk(w, r, w.candidates[r].(stage := s))
    requires w.candidates[r].key in w.artifacts || r in w.rows
    ensures Justified(w, SetStage(w, r, s), r, w.candidates[r].key)
  {
  }

  /** Once a write is over, its pending name may go. */
  lemma DropPendingKeeps(w: World, r: ReservationId)
    requires Bookkeeping(w) && AtStage(w, r) && w.candidates[r].stage.Uncertain?
    requires w.candidates[r].key in w.artifacts || r in w.rows
    requires w.candidates[r].key !in w.alienPending
    ensures Bookkeeping(DropPending(w, w.candidates[r].key, true))
  {
    KnowsOwn(w, r);
    DropPendingJustified(w, r);
    LocalStep(w, DropPending(w, w.candidates[r].key, true), r, w.candidates[r].key);
  }

  lemma DropPendingJustified(w: World, r: ReservationId)
    requires r in w.candidates && OwnPart(w, r, w.candidates[r].key)
    requires w.candidates[r].stage.Uncertain? || w.candidates[r].stage.OwnsBytes()
    requires w.candidates[r].key in w.artifacts || r in w.rows
    requires w.candidates[r].key !in w.alienPending
    ensures Justified(w, DropPending(w, w.candidates[r].key, true), r, w.candidates[r].key)
  {
  }

  lemma UnlinkedKeeps(w: World, r: ReservationId, s: Stage)
    requires Bookkeeping(w) && AtStage(w, r) && w.candidates[r].stage.Uncertain? && (s.Collided? || s.Failed?)
    requires w.candidates[r].key !in w.alienPending
    requires w.candidates[r].key in w.artifacts ||
             (r in w.rows && (w.candidates[r].key in w.final ==> w.candidates[r].key in w.alienFinal))
    ensures Bookkeeping(DropPending(SetStage(w, r, s), w.candidates[r].key, true))
  {
    var k := w.candidates[r].key;
    assert CandidateOk(w, r) && (r in w.rows ==> RowOk(w, r));
    var w1 := DropPending(w, k, true);
    DropPendingKeeps(w, r);
    SetStageKeeps(w1, r, s);
    assert SetStage(w1, r, s) == DropPending(SetStage(w, r, s), k, true);
  }

  lemma SetStageTwice(w: World, r: ReservationId, s1: Stage, s2: Stage)
    requires r in w.candidates
    ensures SetStage(SetStage(w, r, s1), r, s2) == SetStage(w, r, s2)
  {
  }

  lemma DoubtKeeps(w: World, r: ReservationId)
    requires Bookkeeping(w) && AtStage(w, r)
    requires w.candidates[r].stage.Opened? || w.candidates[r].stage.Streamed?
    ensures Bookkeeping(SetStage(w, r, Uncertain))
    ensures w.candidates[r].key !in w.alienPending
    ensures w.candidates[r].key in w.artifacts ||
            (r in w.rows && (w.candidates[r].key in w.final ==> w.candidates[r].key in w.alienFinal))
  {
    assert CandidateOk(w, r) && (r in w.rows ==> RowOk(w, r));
    SetStageKeeps(w, r, Uncertain);
  }

  /** A streaming write that ends without its final name: the pending name is removed, or doubted. */
  lemma AbandonKeeps(w: World, r: ReservationId, unlinked: bool, s: Stage)
    requires Bookkeeping(w) && AtStage(w, r)
    requires w.candidates[r].stage.Opened? || w.candidates[r].stage.Streamed?
    requires s.Collided? || s.Failed?
    ensures Bookkeeping(DropPending(SetStage(w, r, if unlinked then s else Uncertain), w.candidates[r].key, unlinked))
  {
    DoubtKeeps(w, r);
    if unlinked {
      var w1 := SetStage(w, r, Uncertain);
      UnlinkedKeeps(w1, r, s);
      SetStageTwice(w, r, Uncertain, s);
    }
  }

  /** The final name appears: nobody else's promise is about it. */
  lemma InstallKeeps(w: World, r: ReservationId, bytes: Bytes)
    requires Bookkeeping(w) && AtStage(w, r) && w.candidates[r].stage.Uncertain?
    requires w.candidates[r].key in w.artifacts || r in w.rows
    requires w.candidates[r].key !in w.final
    ensures Bookkeeping(w.(final := w.final[w.candidates[r].key := bytes], linkedBy := w.linkedBy[w.candidates[r].key := r]))
  {
    var k := w.candidates[r].key;
    KnowsOwn(w, r);
    InstallJustified(w, r, bytes);
    LocalStep(w, w.(final := w.final[k := bytes], linkedBy := w.linkedBy[k := r]), r, k);
  }

  lemma InstallJustified(w: World, r: ReservationId, bytes: Bytes)
    requires AtStage(w, r) && w.candidates[r].stage.Uncertain? && OwnPart(w, r, w.candidates[r].key)
    requires w.candidates[r].key in w.artifacts || r in w.rows
    ensures var k := w.candidates[r].key;
            Justified(w, w.(final := w.final[k := bytes], linkedBy := w.linkedBy[k := r]), r, k)
  {
  }

  lemma OpenJustified(w: World, r: ReservationId)
    requires Enabled(w, OpenPending(r)) && OwnPart(w, r, w.candidates[r].key)
    ensures Justified(w, Next(w, OpenPending(r)), r, w.candidates[r].key)
  {
  }

  lemma OpenKeeps(w: World, r: ReservationId)
    requires Bookkeeping(w) && Enabled(w, OpenPending(r))
    ensures Bookkeeping(Next(w, OpenPending(r)))
  {
    KnowsOwn(w, r);
    OpenJustified(w, r);
    LocalStep(w, Next(w, OpenPending(r)), r, w.candidates[r].key);
  }

  lemma OpenCollidesJustified(w: World, r: ReservationId)
    requires Enabled(w, OpenCollides(r)) && OwnPart(w, r, w.candidates[r].key)
    ensures Justified(w, Next(w, OpenCollides(r)), r, w.candidates[r].key)
  {
  }

  lemma OpenCollidesKeeps(w: World, r: ReservationId)
    requires Bookkeeping(w) && Enabled(w, OpenCollides(r))
    ensures Bookkeeping(Next(w, OpenCollides(r)))
  {
    KnowsOwn(w, r);
    OpenCollidesJustified(w, r);
    LocalStep(w, Next(w, OpenCollides(r)), r, w.candidates[r].key);
  }

  lemma StreamPartJustified(w: World, r: ReservationId, bytes: Bytes)
    requires Enabled(w, StreamPart(r, bytes)) && OwnPart(w, r, w.candidates[r].key)
    ensures Justified(w, Next(w, StreamPart(r, bytes)), r, w.candidates[r].key)
  {
  }

  lemma StreamPartKeeps(w: World, r: ReservationId, bytes: Bytes)
    requires Bookkeeping(w) && Enabled(w, StreamPart(r, bytes))
    ensures Bookkeeping(Next(w, StreamPart(r, bytes)))
  {
    KnowsOwn(w, r);
    StreamPartJustified(w, r, bytes);
    LocalStep(w, Next(w, StreamPart(r, bytes)), r, w.candidates[r].key);
  }

  lemma StreamDoneJustified(w: World, r: ReservationId)
    requires Enabled(w, StreamDone(r)) && OwnPart(w, r, w.candidates[r].key)
    ensures Justified(w, Next(w, StreamDone(r)), r, w.candidates[r].key)
  {
  }

  lemma StreamDoneKeeps(w: World, r: ReservationId)
    requires Bookkeeping(w) && Enabled(w, StreamDone(r))
    ensures Bookkeeping(Next(w, StreamDone(r)))
  {
    KnowsOwn(w, r);
    StreamDoneJustified(w, r);
    LocalStep(w, Next(w, StreamDone(r)), r, w.candidates[r].key);
  }

  lemma WriteFailsKeeps(w: World, r: ReservationId, unlinked: bool)
    requires Bookkeeping(w) && Enabled(w, WriteFails(r, unlinked))
    ensures Bookkeeping(Next(w, WriteFails(r, unlinked)))
  {
    assert CandidateOk(w, r) && (r in w.rows ==> RowOk(w, r));
    if w.candidates[r].stage.Reserved? {
      SetStageKeeps(w, r, Failed);
    } else {
      AbandonKeeps(w, r, unlinked, Failed);
    }
  }

  lemma InstalledKeeps(w: World, r: ReservationId, bytes: Bytes, rc: Receipt)
    requires Bookkeeping(w) && AtStage(w, r) && w.candidates[r].stage.Uncertain?
    requires w.candidates[r].key in w.artifacts || (r in w.rows && w.candidates[r].key in w.pending)
    requires w.candidates[r].key !in w.final && w.candidates[r].key !in w.alienPending
    requires rc.key == w.candidates[r].key
    requires w.candidates[r].key in w.artifacts || Matches(w, bytes, rc)
    ensures Bookkeeping(SetStage(w, r, Linked(rc)).(
                          final := w.final[w.candidates[r].key := bytes], linkedBy := w.linkedBy[w.candidates[r].key := r]))
  {
    var c := w.candidates[r];
    assert CandidateOk(w, r) && (r in w.rows ==> RowOk(w, r));
    InstallKeeps(w, r, bytes);
    var w1 := w.(final := w.final[c.key := bytes], linkedBy := w.linkedBy[c.key := r]);
    SetStageKeeps(w1, r, Linked(rc));
  }

  lemma LinkKeeps(w: World, r: ReservationId)
    requires Bookkeeping(w) && Enabled(w, LinkFinal(r))
    ensures Bookkeeping(Next(w, LinkFinal(r)))
  {
    var c := w.candidates[r];
    DoubtKeeps(w, r);
    assert c.stage.receipt.key == c.key && (c.key in w.artifacts || Matches(w, w.pending[c.key], c.stage.receipt)) by {
      assert CandidateOk(w, r);
    }
    var w1 := SetStage(w, r, Uncertain);
    InstalledKeeps(w1, r, w.pending[c.key], c.stage.receipt);
    SetStageTwice(w, r, Uncertain, Linked(c.stage.receipt));
  }

  lemma LinkCollidesKeeps(w: World, r: ReservationId, unlinked: bool)
    requires Bookkeeping(w) && Enabled(w, LinkCollides(r, unlinked))
    ensures Bookkeeping(Next(w, LinkCollides(r, unlinked)))
  {
    AbandonKeeps(w, r, unlinked, Collided);
  }

  lemma FinishJustified(w: World, r: ReservationId)
    requires Enabled(w, FinishWrite(r)) && OwnPart(w, r, w.candidates[r].key)
    ensures Justified(w, Next(w, FinishWrite(r)), r, w.candidates[r].key)
  {
  }

  lemma FinishKeeps(w: World, r: ReservationId)
    requires Bookkeeping(w) && Enabled(w, FinishWrite(r))
    ensures Bookkeeping(Next(w, FinishWrite(r)))
  {
    KnowsOwn(w, r);
    FinishJustified(w, r);
    LocalStep(w, Next(w, FinishWrite(r)), r, w.candidates[r].key);
  }

  lemma FinishFailsKeeps(w: World, r: ReservationId, unlinked: bool)
    requires Bookkeeping(w) && Enabled(w, FinishFails(r, unlinked))
    ensures Bookkeeping(Next(w, FinishFails(r, unlinked)))
  {
    var c, rc := w.candidates[r], w.candidates[r].stage.receipt;
    FinishKeeps(w, r);
    if unlinked {
      InDoubtKeeps(Next(w, FinishWrite(r)), r);
      SetStageTwice(w, r, Stored(rc), WriteCommitted(rc));
    } else {
      InDoubtKeeps(w, r);
    }
  }

  /** A write that has linked its final name ends without being acknowledged. */
  lemma InDoubtKeeps(w: World, r: ReservationId)
    requires Bookkeeping(w) && AtStage(w, r) && (w.candidates[r].stage.Linked? || w.candidates[r].stage.Stored?)
    ensures Bookkeeping(SetStage(w, r, WriteCommitted(w.candidates[r].stage.receipt)))
  {
    KnowsOwn(w, r);
    InDoubtJustified(w, r);
    LocalStep(w, SetStage(w, r, WriteCommitted(w.candidates[r].stage.receipt)), r, w.candidates[r].key);
  }

  lemma InDoubtJustified(w: World, r: ReservationId)
    requires AtStage(w, r) && (w.candidates[r].stage.Linked? || w.candidates[r].stage.Stored?)
    requires OwnPart(w, r, w.candidates[r].key)
    ensures Justified(w, SetStage(w, r, WriteCommitted(w.candidates[r].stage.receipt)), r, w.candidates[r].key)
  {
  }

  // Recording the outcome of a write.

  lemma MarkVerifiedJustified(w: World, r: ReservationId, acknowledged: bool)
    requires Enabled(w, MarkVerified(r, acknowledged)) && OwnPart(w, r, w.candidates[r].key)
    ensures Justified(w, Next(w, MarkVerified(r, acknowledged)), r, w.candidates[r].key)
  {
  }

  lemma MarkVerifiedKeeps(w: World, r: ReservationId, acknowledged: bool)
    requires Bookkeeping(w) && Enabled(w, MarkVerified(r, acknowledged))
    ensures Bookkeeping(Next(w, MarkVerified(r, acknowledged)))
  {
    KnowsOwn(w, r);
    MarkVerifiedJustified(w, r, acknowledged);
    LocalStep(w, Next(w, MarkVerified(r, acknowledged)), r, w.candidates[r].key);
  }

  lemma MarkCollisionJustified(w: World, r: ReservationId)
    requires Enabled(w, MarkCollision(r)) && OwnPart(w, r, w.candidates[r].key)
    ensures Justified(w, Next(w, MarkCollision(r)), r, w.candidates[r].key)
  {
  }

  lemma MarkCollisionKeeps(w: World, r: ReservationId)
    requires Bookkeeping(w) && Enabled(w, MarkCollision(r))
    ensures Bookkeeping(Next(w, MarkCollision(r)))
  {
    KnowsOwn(w, r);
    MarkCollisionJustified(w, r);
    LocalStep(w, Next(w, MarkCollision(r)), r, w.candidates[r].key);
  }

  lemma FlagKeeps(w: World, r: ReservationId)
    requires Bookkeeping(w) && r in w.rows
    ensures Bookkeeping(FlagRow(w, r))
  {
    KnowsOwn(w, r);
    FlagJustified(w, r);
    LocalStep(w, FlagRow(w, r), r, w.rows[r].key);
  }

  lemma FlagJustified(w: World, r: ReservationId)
    requires r in w.rows && OwnPart(w, r, w.rows[r].key)
    ensures Justified(w, FlagRow(w, r), r, w.rows[r].key)
  {
    var w' := FlagRow(w, r);
    if r in w.candidates {
      assert FilesOk(w, r, w.candidates[r]) ==> FilesOk(w', r, w'.candidates[r]);
    }
  }

  // Cleanup.

  /** A row may go as soon as no unsettled file bears its key and its attempt no longer relies on it. */
  lemma DropKeeps(w: World, r: ReservationId)
    requires Bookkeeping(w) && r in w.rows
    requires w.rows[r].key in w.artifacts || SettledKey(w, w.rows[r].key)
    requires r in w.candidates && IsRunning(w, w.candidates[r].attempt) ==>
               w.rows[r].key in w.artifacts || w.candidates[r].stage.Collided? || (w.candidates[r].stage.OwnsBytes() && w.candidates[r].expiresAt <= w.now)
    ensures Bookkeeping(DropRow(w, r))
  {
    KnowsOwn(w, r);
    DropJustified(w, r);
    LocalStep(w, DropRow(w, r), r, w.rows[r].key);
  }

  lemma DropJustified(w: World, r: ReservationId)
    requires r in w.rows && OwnPart(w, r, w.rows[r].key)
    requires w.rows[r].key in w.artifacts || SettledKey(w, w.rows[r].key)
    requires r in w.candidates && IsRunning(w, w.candidates[r].attempt) ==>
               w.rows[r].key in w.artifacts || w.candidates[r].stage.Collided? || (w.candidates[r].stage.OwnsBytes() && w.candidates[r].expiresAt <= w.now)
    ensures Justified(w, DropRow(w, r), r, w.rows[r].key)
  {
  }

  /** The row of bytes that its attempt wrote and no longer commits. */
  ghost predicate Disposable(w: World, r: ReservationId) {
    && r in w.rows && r in w.candidates && w.rows[r].key !in w.artifacts
    && w.candidates[r].stage.OwnsBytes()
    && (IsRunning(w, w.candidates[r].attempt) ==> w.candidates[r].expiresAt <= w.now)
  }

  lemma RemoveFinalKeeps(w: World, r: ReservationId)
    requires Bookkeeping(w) && Disposable(w, r)
    ensures var w' := w.(final := w.final - {w.rows[r].key}); Bookkeeping(w') && Disposable(w', r)
  {
    KnowsOwn(w, r);
    RemoveFinalJustified(w, r);
    LocalStep(w, w.(final := w.final - {w.rows[r].key}), r, w.rows[r].key);
  }

  lemma RemoveFinalJustified(w: World, r: ReservationId)
    requires Disposable(w, r) && OwnPart(w, r, w.rows[r].key)
    ensures Justified(w, w.(final := w.final - {w.rows[r].key}), r, w.rows[r].key)
  {
  }

  lemma RemovePendingKeeps(w: World, r: ReservationId)
    requires Bookkeeping(w) && Disposable(w, r)
    ensures var w' := DropPending(w, w.rows[r].key, true); Bookkeeping(w') && Disposable(w', r)
  {
    KnowsOwn(w, r);
    DropPendingJustified(w, r);
    LocalStep(w, DropPending(w, w.rows[r].key, true), r, w.rows[r].key);
  }

  lemma DeleteKeeps(w: World, r: ReservationId, out: CleanupOutcome)
    requires Bookkeeping(w) && Disposable(w, r) && out.Possible()
    ensures Bookkeeping(DeleteFiles(w, r, w.rows[r].key, out))
  {
    var k := w.rows[r].key;
    if out.finalGone { RemoveFinalKeeps(w, r); }
    var w1 := if out.finalGone then w.(final := w.final - {k}) else w;
    if out.pendingGone { RemovePendingKeeps(w1, r); }
    var w2 := DropPending(w1, k, out.pendingGone);
    if out.committed {
      if out.deleted { DropKeeps(w2, r); } else { FlagKeeps(w2, r); }
    }
  }

  lemma CompensateKeeps(w: World, r: ReservationId, out: CleanupOutcome)
    requires Bookkeeping(w) && Enabled(w, Compensate(r, out))
    ensures Bookkeeping(CompensateOne(w, r, out))
  {
    var c := w.candidates[r];
    assert CandidateOk(w, r) && (r in w.rows ==> RowOk(w, r));
    if r in w.rows {
      if c.key in w.artifacts || w.rows[r].state == COLLISION {
        DropKeeps(w, r);
      } else if c.stage.Uncertain? {
        FlagKeeps(w, r);
      } else if !w.rows[r].cleanupRequired {
        if c.stage.OwnsBytes() { DeleteKeeps(w, r, out); } else { DropKeeps(w, r); }
      }
    }
  }

  lemma CleanKeeps(w: World, r: ReservationId, cutoff: Time, out: CleanupOutcome)
    requires Bookkeeping(w) && Enabled(w, Clean(r, cutoff, out))
    ensures Bookkeeping(CleanOne(w, r, out))
  {
    var row := w.rows[r];
    assert RowOk(w, r) && (r in w.candidates ==> CandidateOk(w, r));
    if row.key in w.artifacts || row.state == COLLISION {
      DropKeeps(w, r);
    } else if row.state == RESERVED {
      FlagKeeps(w, r);
    } else {
      DeleteKeeps(w, r, out);
    }
  }

  // The commit.

  lemma CommitNames(w: World, a: AttemptId, r: ReservationId)
    requires Bookkeeping(w) && CommitReady(w, a) && Owner(w, r, a)
    ensures var k := w.candidates[r].key;
            && w.candidates[r].stage.Verified? && w.candidates[r].stage.receipt.key == k
            && r in w.rows && w.rows[r].key == k
            && k in PreparedKeys(w, a) && PreparedReceipt(w, a, k) == w.candidates[r].stage.receipt
  {
    var c := w.candidates[r];
    assert CandidateOk(w, r) && Committable(w, r);
    var r2 :| Owner(w, r2, a) && w.candidates[r2].stage.receipt.key == c.key
              && PreparedReceipt(w, a, c.key) == w.candidates[r2].stage.receipt;
    assert CandidateOk(w, r2) && Committable(w, r2);
    assert r2 == r;
  }

  lemma CommitKeeps(w: World, a: AttemptId, acknowledged: bool)
    requires Bookkeeping(w) && Enabled(w, Commit(a, acknowledged))
    ensures Bookkeeping(CommitRows(w, a, acknowledged))
  {
    var w' := CommitRows(w, a, acknowledged);
    forall r | Owner(w, r, a) ensures r !in w'.rows && r in w.rows && w.rows[r].key in w'.artifacts {
      CommitNames(w, a, r);
    }
    forall r | r in w'.candidates ensures CandidateOk(w', r) {
      assert CandidateOk(w, r);
      var c := w.candidates[r];
      if c.attempt == a {
        assert Owner(w, r, a);
      } else {
        assert r in w.rows <==> r in w'.rows;
        assert r in w.rows && c.key !in w'.artifacts ==> FilesOk(w', r, c);
      }
    }
    forall r | r in w'.rows ensures RowOk(w', r) {
      assert RowOk(w, r);
    }
    forall k | KeyReserved(w, k) && k !in w'.artifacts ensures KeyReserved(w', k) {
      var r :| r in w.rows && w.rows[r].key == k;
      assert !Owner(w, r, a);
      assert r in w'.rows && w'.rows[r].key == k;
    }
  }

  /** The steps of the file system inside one write. */
  predicate InsideWrite(l: Label) {
    l.OpenPending? || l.OpenCollides? || l.StreamPart? || l.StreamDone? || l.WriteFails? ||
    l.LinkFinal? || l.LinkCollides? || l.FinishWrite? || l.FinishFails?
  }

  lemma WriteKeeps(w: World, l: Label)
    requires Bookkeeping(w) && Enabled(w, l) && InsideWrite(l)
    ensures Bookkeeping(Next(w, l))
  {
    match l
    case OpenPending(r) => OpenKeeps(w, r);
    case OpenCollides(r) => OpenCollidesKeeps(w, r);
    case StreamPart(r, bytes) => StreamPartKeeps(w, r, bytes);
    case StreamDone(r) => StreamDoneKeeps(w, r);
    case WriteFails(r, unlinked) => WriteFailsKeeps(w, r, unlinked);
    case LinkFinal(r) => LinkKeeps(w, r);
    case LinkCollides(r, unlinked) => LinkCollidesKeeps(w, r, unlinked);
    case FinishWrite(r) => FinishKeeps(w, r);
    case FinishFails(r, unlinked) => FinishFailsKeeps(w, r, unlinked);
  }

  lemma TransactionKeeps(w: World, l: Label)
    requires Bookkeeping(w) && Enabled(w, l) && !InsideWrite(l)
    ensures Bookkeeping(Next(w, l))
  {
    match l
    case Begin(a) => BeginKeeps(w, a);
    case Reserve(a, r, k) => ReserveKeeps(w, a, r, k);
    case ReserveLost(a, r, k) => ReserveLostKeeps(w, a, r, k);
    case MarkVerified(r, acknowledged) => MarkVerifiedKeeps(w, r, acknowledged);
    case MarkCollision(r) => MarkCollisionKeeps(w, r);
    case MarkCleanupRequired(r) => FlagKeeps(w, r);
    case Fail(a) => FailKeeps(w, a);
    case Commit(a, acknowledged) => CommitKeeps(w, a, acknowledged);
    case Compensate(r, out) => CompensateKeeps(w, r, out);
    case Clean(r, cutoff, out) => CleanKeeps(w, r, cutoff, out);
    case Tick(to) => TickKeeps(w, to);
  }

  /** Every step keeps the bookkeeping, whatever its timing. */
  lemma StepKeepsBookkeeping(w: World, l: Label)
    requires Bookkeeping(w) && Enabled(w, l)
    ensures Bookkeeping(Next(w, l))
  {
    if InsideWrite(l) { WriteKeeps(w, l); } else { TransactionKeeps(w, l); }
  }
}
