/** What an upload attempt can rely on until its reservations expire, whatever other processes do.  This is why
    an upload in a working environment succeeds. */
module UploadSuccess {
  import opened Wrappers
  import opened UploadProtocol
  import opened UploadSafety
  import opened UploadTheorems
  import opened UploadCleaner
  import opened UploadDrain

  // Rows

  /** Until it expires, the row of a running attempt is in place, and flagged only if its write ended in doubt. */
  ghost predicate InTime(w: World, r: ReservationId) {
    r in w.candidates && IsRunning(w, w.candidates[r].attempt) && w.now < w.candidates[r].expiresAt ==>
      r in w.rows && (w.rows[r].cleanupRequired ==> w.candidates[r].stage.Uncertain?)
  }

  lemma CompensateInTime(w: World, q: ReservationId, out: CleanupOutcome, r: ReservationId)
    requires Enabled(w, Compensate(q, out)) && InTime(w, r)
    ensures InTime(CompensateOne(w, q, out), r)
  {
    CompensateSettles(w, q, out);
  }

  lemma CleanInTime(w: World, q: ReservationId, cutoff: Time, out: CleanupOutcome, r: ReservationId)
    requires Bookkeeping(w) && Enabled(w, Clean(q, cutoff, out)) && InTime(w, r)
    ensures InTime(CleanOne(w, q, out), r)
  {
    CleanSettles(w, q, out);
    if r in w.candidates { assert CandidateOk(w, r); }
  }

  lemma CommitInTime(w: World, a: AttemptId, acknowledged: bool, r: ReservationId)
    requires CommitReady(w, a) && InTime(w, r)
    ensures InTime(CommitRows(w, a, acknowledged), r)
  {
  }

  lemma FailingInTime(w: World, l: Label, r: ReservationId)
    requires Enabled(w, l) && FailsOrFinishes(l) && InTime(w, r)
    ensures InTime(Next(w, l), r)
  {
    FailingMemory(w, l);
    FailingSteps(w, l);
  }

  /** All but the stage. */
  predicate SameName(c: Candidate, c': Candidate) {
    c'.attempt == c.attempt && c'.key == c.key && c'.expiresAt == c.expiresAt
  }

  /** A step inside a write moves one candidate. */
  lemma FailingMemory(w: World, l: Label)
    requires Enabled(w, l) && FailsOrFinishes(l)
    ensures l.id in w.candidates && Next(w, l).candidates.Keys == w.candidates.Keys && Next(w, l).phases == w.phases
    ensures SameName(w.candidates[l.id], Next(w, l).candidates[l.id])
    ensures forall r :: r in w.candidates && r != l.id ==> Next(w, l).candidates[r] == w.candidates[r]
  {
    match l
    case WriteFails(_, _) =>
    case LinkCollides(_, _) =>
    case _ =>
  }

  lemma CleaningMemory(w: World, l: Label)
    requires Enabled(w, l) && (l.Compensate? || l.Clean?)
    ensures SameProcesses(w, Next(w, l))
  {
    match l
    case Compensate(q, out) => assert SameProcesses(w, CompensateOne(w, q, out));
    case Clean(q, _, out) => assert SameProcesses(w, CleanOne(w, q, out));
  }

  /** The attempt of a candidate has begun, so nobody begins it again. */
  lemma RecordingInTime(w: World, l: Label, r: ReservationId)
    requires Enabled(w, l) && !EndsReservations(l) && !FailsOrFinishes(l) && InTime(w, r)
    requires r in w.candidates ==> r in w.usedIds && w.candidates[r].attempt in w.phases
    ensures InTime(Next(w, l), r)
  {
  }

  lemma EndingInTime(w: World, l: Label, r: ReservationId)
    requires Bookkeeping(w) && Enabled(w, l) && EndsReservations(l) && InTime(w, r)
    ensures InTime(Next(w, l), r)
  {
    match l
    case Compensate(q, out) => CompensateInTime(w, q, out, r);
    case Clean(q, cutoff, out) => CleanInTime(w, q, cutoff, out, r);
    case Commit(a, acknowledged) => CommitInTime(w, a, acknowledged, r);
  }

  lemma StepInTime(w: World, l: Label, r: ReservationId)
    requires Bookkeeping(w) && Enabled(w, l) && InTime(w, r)
    ensures InTime(Next(w, l), r)
  {
    if EndsReservations(l) {
      EndingInTime(w, l, r);
    } else if FailsOrFinishes(l) {
      FailingInTime(w, l, r);
    } else {
      assert r in w.candidates ==> CandidateOk(w, r);
      RecordingInTime(w, l, r);
    }
  }

  lemma {:induction false} RunInTime(w: World, steps: seq<Label>, r: ReservationId)
    requires Bookkeeping(w) && InTime(w, r)
    ensures InTime(Run(w, steps), r)
    decreases |steps|
  {
    if steps != [] {
      if Enabled(w, steps[0]) {
        StepInTime(w, steps[0], r);
        StepKeepsBookkeeping(w, steps[0]);
        RunInTime(Next(w, steps[0]), steps[1..], r);
      } else {
        RunInTime(w, steps[1..], r);
      }
    }
  }

  /** In every reachable state the rows of running attempts are in place until they expire. */
  lemma RowsStayInTime(start: World, steps: seq<Label>)
    requires Init(start)
    ensures forall r :: InTime(Run(start, steps), r)
  {
    InitInv(start);
    forall r ensures InTime(Run(start, steps), r) {
      RunInTime(start, steps, r);
    }
  }

  // Keys

  /** Why an attempt may fail although nothing goes wrong: one of its reservations has expired, an artifact has
      its key, or a file was there under its key before the system started. */
  ghost predicate Lost(w: World, r: ReservationId)
    requires r in w.candidates
  {
    w.candidates[r].expiresAt <= w.now || w.candidates[r].key in w.artifacts || Alien(w, w.candidates[r].key)
  }

  ghost predicate Alien(w: World, k: Key) {
    k in w.alienFinal || k in w.alienPending
  }

  ghost predicate LostOne(w: World, a: AttemptId) {
    exists r :: Owner(w, r, a) && Lost(w, r)
  }

  /** The artifact was there when the row was inserted. */
  ghost predicate InsertedTaken(start: World, steps: seq<Label>, a: AttemptId, r: ReservationId, k: Key) {
    exists n :: 0 <= n < |steps| && steps[n] == Reserve(a, r, k) && k in Run(start, steps[..n]).artifacts
  }

  lemma TakenBefore(start: World, init: seq<Label>, l: Label, a: AttemptId, r: ReservationId, k: Key)
    requires InsertedTaken(start, init, a, r, k)
    ensures InsertedTaken(start, init + [l], a, r, k)
  {
    var n :| 0 <= n < |init| && init[n] == Reserve(a, r, k) && k in Run(start, init[..n]).artifacts;
    assert (init + [l])[n] == init[n] && (init + [l])[..n] == init[..n];
  }

  /** Nobody's commit takes the key of a reservation in place, except that of its own attempt. */
  lemma CommitTakesOwn(w: World, b: AttemptId, acknowledged: bool, r: ReservationId)
    requires Bookkeeping(w) && CommitReady(w, b) && r in w.candidates && r in w.rows
    requires w.candidates[r].key !in w.artifacts && w.candidates[r].key in CommitRows(w, b, acknowledged).artifacts
    ensures w.candidates[r].attempt == b
  {
    var k := w.candidates[r].key;
    WitnessOf(w, b, k);
    var q :| Owner(w, q, b) && q in w.candidates && w.candidates[q].stage.Verified? && w.candidates[q].stage.receipt.key == k;
    CommitNames(w, b, q);
    assert CandidateOk(w, r);
    assert q == r;
  }

  /** What a step leaves to a reservation that is still running and unexpired after it. */
  lemma KeyStaysFree(w: World, l: Label, a: AttemptId, r: ReservationId)
    requires Bookkeeping(w) && Enabled(w, l) && InTime(w, r) && Owner(w, r, a)
    ensures Owner(Next(w, l), r, a) && SameName(w.candidates[r], Next(w, l).candidates[r])
    ensures IsRunning(Next(w, l), a) ==> IsRunning(w, a)
    ensures IsRunning(Next(w, l), a) && w.now < w.candidates[r].expiresAt && w.candidates[r].key in Next(w, l).artifacts ==>
              w.candidates[r].key in w.artifacts
  {
    assert CandidateOk(w, r);
    NamesKept(w, l, r);
    PhasesEnd(w, l, a);
    if l.Commit? {
      if IsRunning(w, a) && w.now < w.candidates[r].expiresAt && w.candidates[r].key !in w.artifacts
         && w.candidates[r].key in Next(w, l).artifacts
      {
        CommitTakesOwn(w, l.attempt, l.acknowledged, r);
      }
    } else {
      OnlyCommitsAddArtifacts(w, l);
    }
  }

  lemma NamesKept(w: World, l: Label, r: ReservationId)
    requires Enabled(w, l) && r in w.candidates && r in w.usedIds
    ensures r in Next(w, l).candidates && SameName(w.candidates[r], Next(w, l).candidates[r])
  {
    if l.Compensate? || l.Clean? { CleaningMemory(w, l); } else if FailsOrFinishes(l) { FailingMemory(w, l); }
  }

  lemma PhasesEnd(w: World, l: Label, a: AttemptId)
    requires Enabled(w, l) && a in w.phases
    ensures a in Next(w, l).phases && (IsRunning(Next(w, l), a) ==> IsRunning(w, a))
  {
    if l.Compensate? || l.Clean? { CleaningMemory(w, l); } else if FailsOrFinishes(l) { FailingMemory(w, l); }
  }

  /** A candidate appears only by the insert of its row. */
  lemma BornByInsert(w: World, l: Label, r: ReservationId)
    requires Enabled(w, l) && r !in w.candidates && r in Next(w, l).candidates
    ensures var c := Next(w, l).candidates[r]; l == Reserve(c.attempt, r, c.key) && Next(w, l).artifacts == w.artifacts
  {
    if l.Compensate? || l.Clean? { CleaningMemory(w, l); } else if FailsOrFinishes(l) { FailingMemory(w, l); }
  }

  lemma LastStep(start: World, init: seq<Label>, l: Label)
    ensures Run(start, init + [l]) == if Enabled(Run(start, init), l) then Next(Run(start, init), l) else Run(start, init)
  {
    RunConcat(start, init, [l]);
  }

  /** In every reachable state, an artifact with the key of a running, unexpired reservation was there when the
      row was inserted. */
  lemma {:induction false} TakenOnlyAtInsert(start: World, steps: seq<Label>, a: AttemptId, r: ReservationId)
    requires Init(start)
    ensures var w := Run(start, steps);
            Owner(w, r, a) && IsRunning(w, a) && w.now < w.candidates[r].expiresAt && w.candidates[r].key in w.artifacts ==>
              InsertedTaken(start, steps, a, r, w.candidates[r].key)
    decreases |steps|
  {
    if steps != [] {
      var init, l := steps[..|steps| - 1], steps[|steps| - 1];
      assert init + [l] == steps;
      TakenOnlyAtInsert(start, init, a, r);
      TakenStep(start, init, l, a, r);
    }
  }

  lemma TakenStep(start: World, init: seq<Label>, l: Label, a: AttemptId, r: ReservationId)
    requires Init(start)
    requires var v := Run(start, init);
             Owner(v, r, a) && IsRunning(v, a) && v.now < v.candidates[r].expiresAt && v.candidates[r].key in v.artifacts ==>
               InsertedTaken(start, init, a, r, v.candidates[r].key)
    ensures var w := Run(start, init + [l]);
            Owner(w, r, a) && IsRunning(w, a) && w.now < w.candidates[r].expiresAt && w.candidates[r].key in w.artifacts ==>
              InsertedTaken(start, init + [l], a, r, w.candidates[r].key)
  {
    var v, w := Run(start, init), Run(start, init + [l]);
    LastStep(start, init, l);
    if Owner(w, r, a) && IsRunning(w, a) && w.now < w.candidates[r].expiresAt && w.candidates[r].key in w.artifacts {
      var k := w.candidates[r].key;
      if r in v.candidates {
        if Enabled(v, l) { StepBack(start, init, l, a, r); }
        TakenBefore(start, init, l, a, r, k);
      } else {
        BornByInsert(v, l, r);
        assert (init + [l])[|init|] == l && (init + [l])[..|init|] == init;
      }
    }
  }

  /** Before the step the reservation was running and unexpired, and its key as taken. */
  lemma StepBack(start: World, init: seq<Label>, l: Label, a: AttemptId, r: ReservationId)
    requires Init(start) && Enabled(Run(start, init), l) && r in Run(start, init).candidates
    requires var w := Next(Run(start, init), l);
             Owner(w, r, a) && IsRunning(w, a) && w.now < w.candidates[r].expiresAt && w.candidates[r].key in w.artifacts
    ensures var v, w := Run(start, init), Next(Run(start, init), l);
            && Owner(v, r, a) && IsRunning(v, a) && v.now < v.candidates[r].expiresAt
            && v.candidates[r].key in v.artifacts && v.candidates[r].key == w.candidates[r].key
  {
    var v := Run(start, init);
    InitInv(start);
    RunKeepsBookkeeping(start, init);
    RowsStayInTime(start, init);
    assert InTime(v, r);
    KeyStaysFree(v, l, v.candidates[r].attempt, r);
    TimeGoesOn(v, l);
  }

  // Bytes

  /** The step is one of attempt `a`. */
  ghost predicate ActsFor(w: World, l: Label, a: AttemptId) {
    if l.Begin? || l.Reserve? || l.ReserveLost? || l.Fail? || l.Commit? then l.attempt == a
    else !l.Clean? && !l.Tick? && Owner(w, l.id, a)
  }

  /** No step of the stretch is one of attempt `a`. */
  ghost predicate OthersOnly(w: World, steps: seq<Label>, a: AttemptId) {
    forall i :: 0 <= i < |steps| ==> !ActsFor(w, steps[i], a)
  }

  /** As far as the reservation `r` of `a` is concerned. */
  predicate LeavesAlone(l: Label, a: AttemptId, r: ReservationId) {
    if l.Begin? || l.Reserve? || l.ReserveLost? || l.Fail? || l.Commit? then l.attempt != a
    else l.Clean? || l.Tick? || l.id != r
  }

  /** A write of `a` uses the pending name `k`. */
  ghost predicate Streaming(w: World, a: AttemptId, r: ReservationId, k: Key) {
    && Owner(w, r, a) && IsRunning(w, a) && w.candidates[r].stage.MidWrite()
    && w.candidates[r].key == k && k in w.pending
  }

  /** Only one running write uses the pending name of a key that no artifact has. */
  lemma OneWriter(w: World, a: AttemptId, r: ReservationId, k: Key, q: ReservationId)
    requires Bookkeeping(w) && Streaming(w, a, r, k) && k !in w.artifacts && UsesPending(w, q, k)
    ensures q == r
  {
    assert CandidateOk(w, r) && CandidateOk(w, q);
  }

  lemma OthersFileStep(w: World, l: Label, a: AttemptId, r: ReservationId, k: Key)
    requires Bookkeeping(w) && Enabled(w, l) && Streaming(w, a, r, k) && k !in w.artifacts && LeavesAlone(l, a, r)
    requires ActsOnFiles(l)
    ensures k in Next(w, l).pending && Next(w, l).pending[k] == w.pending[k]
  {
    if w.candidates[l.id].key != k {
      FileStepKeepsPending(w, l, k);
    } else {
      if UsesPending(w, l.id, k) { OneWriter(w, a, r, k, l.id); }
      match l
      case OpenCollides(_) =>
      case WriteFails(_, _) =>
      case _ =>
    }
  }

  lemma OthersCleanup(w: World, l: Label, a: AttemptId, r: ReservationId, k: Key)
    requires Bookkeeping(w) && Enabled(w, l) && Streaming(w, a, r, k) && k !in w.artifacts
    requires l.Compensate? || l.Clean?
    ensures k in Next(w, l).pending && Next(w, l).pending[k] == w.pending[k]
  {
    CleanupTouchesOwn(w, l);
    assert CandidateOk(w, r);
  }

  /** Steps of others leave the pending bytes of a running write alone. */
  lemma OthersStep(w: World, l: Label, a: AttemptId, r: ReservationId, k: Key)
    requires Bookkeeping(w) && Enabled(w, l) && Streaming(w, a, r, k) && k !in w.artifacts && LeavesAlone(l, a, r)
    ensures Streaming(Next(w, l), a, r, k) && Next(w, l).pending[k] == w.pending[k]
  {
    assert CandidateOk(w, r);
    OthersLeaveMemory(w, l, a, r);
    if l.Compensate? || l.Clean? {
      OthersCleanup(w, l, a, r, k);
    } else if ActsOnFiles(l) {
      OthersFileStep(w, l, a, r, k);
    } else {
      OtherStepKeepsPending(w, l, k);
    }
  }

  lemma OthersLeaveMemory(w: World, l: Label, a: AttemptId, r: ReservationId)
    requires Enabled(w, l) && LeavesAlone(l, a, r) && Owner(w, r, a) && r in w.usedIds && IsRunning(w, a)
    ensures r in Next(w, l).candidates && Next(w, l).candidates[r] == w.candidates[r] && IsRunning(Next(w, l), a)
  {
    if l.Compensate? || l.Clean? { CleaningMemory(w, l); } else if FailsOrFinishes(l) { FailingMemory(w, l); }
  }

  lemma {:induction false} ArtifactsGrow(w: World, steps: seq<Label>)
    ensures forall k :: k in w.artifacts ==> k in Run(w, steps).artifacts
    decreases |steps|
  {
    if steps != [] {
      if Enabled(w, steps[0]) { AttributionGrows(w, steps[0]); }
      ArtifactsGrow(if Enabled(w, steps[0]) then Next(w, steps[0]) else w, steps[1..]);
    }
  }

  lemma {:induction false} BytesStayBetween(w: World, steps: seq<Label>, a: AttemptId, r: ReservationId, k: Key)
    requires Bookkeeping(w) && Streaming(w, a, r, k) && forall i :: 0 <= i < |steps| ==> LeavesAlone(steps[i], a, r)
    ensures k !in Run(w, steps).artifacts ==> k in Run(w, steps).pending && Run(w, steps).pending[k] == w.pending[k]
    decreases |steps|
  {
    if steps != [] && k !in w.artifacts {
      if Enabled(w, steps[0]) {
        OthersStep(w, steps[0], a, r, k);
        StepKeepsBookkeeping(w, steps[0]);
        BytesStayBetween(Next(w, steps[0]), steps[1..], a, r, k);
      } else {
        BytesStayBetween(w, steps[1..], a, r, k);
      }
    }
    ArtifactsGrow(w, steps);
  }

  /** What a running write has streamed into its pending file stays there while only others act, unless an
      artifact has the key. */
  lemma BytesStay(start: World, before: seq<Label>, meanwhile: seq<Label>, a: AttemptId, r: ReservationId, k: Key)
    requires Init(start) && Streaming(Run(start, before), a, r, k) && OthersOnly(Run(start, before), meanwhile, a)
    ensures var v, w := Run(start, before), Run(start, before + meanwhile);
            k !in w.artifacts ==> k in w.pending && w.pending[k] == v.pending[k]
  {
    InitInv(start);
    RunKeepsBookkeeping(start, before);
    RunConcat(start, before, meanwhile);
    forall i | 0 <= i < |meanwhile| ensures LeavesAlone(meanwhile[i], a, r) {
      assert !ActsFor(Run(start, before), meanwhile[i], a);
    }
    BytesStayBetween(Run(start, before), meanwhile, a, r, k);
  }

  // What fails

  /** The row is there, unflagged, and the file names are as the write left them. */
  ghost predicate Intact(w: World, r: ReservationId)
    requires r in w.candidates
  {
    var c := w.candidates[r];
    && r in w.rows && RowFits(c, w.rows[r]) && (w.rows[r].cleanupRequired ==> c.stage.Uncertain?)
    && (c.stage.Reserved? ==> c.key !in w.pending)
    && (c.stage.Opened? ==> c.key in w.pending)
    && (c.stage.Streamed? ==> c.key in w.pending && c.key !in w.final)
    && (c.stage.OwnsBytes() ==> MayMarkVerified(w, r, c.stage.receipt))
    && (c.stage.Verified? ==> Committable(w, r))
  }

  lemma IntactUnlessLost(w: World, a: AttemptId, r: ReservationId)
    requires Bookkeeping(w) && InTime(w, r) && Owner(w, r, a) && IsRunning(w, a)
    ensures Intact(w, r) || Lost(w, r)
  {
    assert CandidateOk(w, r) && (r in w.rows ==> RowOk(w, r));
  }

  lemma LostStep(w: World, l: Label, r: ReservationId)
    requires Bookkeeping(w) && Enabled(w, l) && r in w.candidates && Lost(w, r)
    ensures r in Next(w, l).candidates && Next(w, l).candidates[r].attempt == w.candidates[r].attempt && Lost(Next(w, l), r)
  {
    assert CandidateOk(w, r);
    NamesKept(w, l, r);
    AttributionGrows(w, l);
    StepKeepsAliens(w, l);
    TimeGoesOn(w, l);
  }

  lemma {:induction false} LostRun(w: World, steps: seq<Label>, r: ReservationId)
    requires Bookkeeping(w) && r in w.candidates && Lost(w, r)
    ensures var w' := Run(w, steps); r in w'.candidates && w'.candidates[r].attempt == w.candidates[r].attempt && Lost(w', r)
    decreases |steps|
  {
    if steps != [] {
      if Enabled(w, steps[0]) {
        LostStep(w, steps[0], r);
        StepKeepsBookkeeping(w, steps[0]);
        LostRun(Next(w, steps[0]), steps[1..], r);
      } else {
        LostRun(w, steps[1..], r);
      }
    }
  }

  lemma LostStays(start: World, before: seq<Label>, after: seq<Label>, a: AttemptId)
    requires Init(start) && before <= after
    ensures LostOne(Run(start, before), a) ==> LostOne(Run(start, after), a)
  {
    var v := Run(start, before);
    if LostOne(v, a) {
      InitInv(start);
      RunKeepsBookkeeping(start, before);
      var r :| Owner(v, r, a) && Lost(v, r);
      LostRun(v, after[|before|..], r);
      RunConcat(start, before, after[|before|..]);
      assert before + after[|before|..] == after;
      assert Owner(Run(start, after), r, a);
    }
  }

  /** A reservation that was not intact at some point of a run of its attempt is lost from then on. */
  lemma BrokenIsLost(start: World, before: seq<Label>, after: seq<Label>, a: AttemptId, r: ReservationId)
    requires Init(start) && before <= after
    requires var v := Run(start, before); Owner(v, r, a) && IsRunning(v, a) && !Intact(v, r)
    ensures LostOne(Run(start, after), a)
  {
    InitInv(start);
    RunKeepsBookkeeping(start, before);
    RowsStayInTime(start, before);
    assert InTime(Run(start, before), r);
    IntactUnlessLost(Run(start, before), a, r);
    LostStays(start, before, after, a);
  }

  /** After the steps `point` the attempt was running and one of its reservations had expired, or had a key
      that was an artifact's when the row was inserted or a file's before the system started. */
  ghost predicate Spoilt(start: World, point: seq<Label>, a: AttemptId) {
    var w := Run(start, point);
    IsRunning(w, a) && exists r :: Owner(w, r, a) && SpoiltOne(start, point, a, r)
  }

  ghost predicate SpoiltOne(start: World, point: seq<Label>, a: AttemptId, r: ReservationId)
    requires r in Run(start, point).candidates
  {
    var w := Run(start, point);
    var c := w.candidates[r];
    c.expiresAt <= w.now || Alien(start, c.key) || InsertedTaken(start, point, a, r, c.key)
  }

  lemma LostIsSpoilt(start: World, point: seq<Label>, a: AttemptId)
    requires Init(start) && IsRunning(Run(start, point), a) && LostOne(Run(start, point), a)
    ensures Spoilt(start, point, a)
  {
    var w := Run(start, point);
    var r :| Owner(w, r, a) && Lost(w, r);
    AliensStay(start, point);
    TakenOnlyAtInsert(start, point, a, r);
    assert SpoiltOne(start, point, a, r);
  }

  /** An artifact or a reservation row has the key. */
  ghost predicate Taken(w: World, key: Key) {
    key in w.artifacts || KeyReserved(w, key)
  }

  /** What the `n`th call of the key generator returns. */
  function KeyAt(supply: nat -> Key, n: nat): Key {
    supply(n)
  }

  /** So many keys of the supply, one after the other, were each found taken at some moment between two. */
  ghost predicate RefusedInRow(start: World, first: seq<Label>, last: seq<Label>, supply: nat -> Key, from: nat, moments: seq<seq<Label>>) {
    forall i :: 0 <= i < |moments| ==> first <= moments[i] <= last && Taken(Run(start, moments[i]), KeyAt(supply, from + i))
  }

  lemma RefusedGrows(start: World, first: seq<Label>, last: seq<Label>, last': seq<Label>, supply: nat -> Key, from: nat, moments: seq<seq<Label>>,
                     moment: seq<Label>)
    requires RefusedInRow(start, first, last, supply, from, moments) && first <= last <= last'
    ensures first <= last' && RefusedInRow(start, first, last', supply, from, moments)
    ensures first <= moment <= last' && Taken(Run(start, moment), KeyAt(supply, from + |moments|)) ==>
              RefusedInRow(start, first, last', supply, from, moments + [moment])
  {
  }

  /** What makes an upload fail in a working environment: a spoilt reservation, or so many refused keys. */
  ghost predicate Reason(start: World, first: seq<Label>, last: seq<Label>, a: AttemptId, supply: nat -> Key, attempts: nat) {
    || (exists point :: first <= point <= last && Spoilt(start, point, a))
    || (exists from, moments :: |moments| == attempts && RefusedInRow(start, first, last, supply, from, moments))
  }

  lemma ReasonStays(start: World, first: seq<Label>, first': seq<Label>, last: seq<Label>, last': seq<Label>, a: AttemptId,
                    supply: nat -> Key, attempts: nat)
    requires first <= first' && last <= last'
    ensures Reason(start, first', last, a, supply, attempts) ==> Reason(start, first, last', a, supply, attempts)
  {
    if Reason(start, first', last, a, supply, attempts) {
      if point :| first' <= point <= last && Spoilt(start, point, a) {
        assert first <= point <= last';
      } else {
        var from, moments :| |moments| == attempts && RefusedInRow(start, first', last, supply, from, moments);
        assert RefusedInRow(start, first, last', supply, from, moments);
      }
    }
  }

  lemma LostIsReason(start: World, first: seq<Label>, last: seq<Label>, a: AttemptId, supply: nat -> Key, attempts: nat)
    requires Init(start) && first <= last && IsRunning(Run(start, last), a)
    ensures LostOne(Run(start, last), a) ==> Reason(start, first, last, a, supply, attempts)
  {
    if LostOne(Run(start, last), a) { LostIsSpoilt(start, last, a); }
  }

  // Compensation

  /** What a cleanup transaction that works makes of a reservation: with an artifact or a collision only the row
      goes; in doubt, or when the cleaner has flagged it, it stays flagged; otherwise row and own files go. */
  ghost predicate CleanedUp(w: World, w': World, r: ReservationId)
    requires r in w.candidates
  {
    var c := w.candidates[r];
    r in w.rows && w.rows[r].key == c.key ==>
      if c.key in w.artifacts || w.rows[r].state == COLLISION then r !in w'.rows && w'.final == w.final && w'.pending == w.pending
      else if c.stage.Uncertain? || w.rows[r].cleanupRequired then r in w'.rows && w'.rows[r].cleanupRequired && w'.final == w.final
      else r !in w'.rows && (c.stage.OwnsBytes() ==> c.key !in w'.final && c.key !in w'.pending)
  }

  /** The reservation of an attempt that has ended has no row any more, or one that is flagged. */
  ghost predicate GoneOrFlagged(w: World, r: ReservationId) {
    && r in w.candidates && r in w.usedIds && w.candidates[r].attempt in w.phases && !IsRunning(w, w.candidates[r].attempt)
    && (r in w.rows ==> w.rows[r].cleanupRequired)
  }

  lemma CleanedUpIsGone(w: World, w': World, r: ReservationId)
    requires Bookkeeping(w) && r in w.candidates && !IsRunning(w, w.candidates[r].attempt) && CleanedUp(w, w', r)
    requires SameProcesses(w, w') && w'.usedIds == w.usedIds && (r !in w.rows ==> r !in w'.rows)
    ensures GoneOrFlagged(w', r)
  {
    assert CandidateOk(w, r);
  }

  lemma EndingKeepsGone(w: World, l: Label, r: ReservationId)
    requires Enabled(w, l) && EndsReservations(l) && GoneOrFlagged(w, r)
    ensures r in Next(w, l).rows ==> Next(w, l).rows[r].cleanupRequired
    ensures r in Next(w, l).usedIds
  {
    match l
    case Compensate(q, out) =>
      CompensateSettles(w, q, out);
      UsedKept(w, l);
    case Clean(q, _, out) =>
      CleanSettles(w, q, out);
      UsedKept(w, l);
    case Commit(_, _) =>
  }

  lemma FailingKeepsUsed(w: World, l: Label)
    requires Enabled(w, l) && FailsOrFinishes(l)
    ensures Next(w, l).usedIds == w.usedIds
  {
    match l
    case WriteFails(_, _) =>
    case LinkCollides(_, _) =>
    case _ =>
  }

  lemma GoneStep(w: World, l: Label, r: ReservationId)
    requires Enabled(w, l) && GoneOrFlagged(w, r)
    ensures GoneOrFlagged(Next(w, l), r)
  {
    NamesKept(w, l, r);
    PhasesEnd(w, l, w.candidates[r].attempt);
    if EndsReservations(l) {
      EndingKeepsGone(w, l, r);
    } else if FailsOrFinishes(l) {
      FailingSteps(w, l);
      FailingKeepsUsed(w, l);
    }
  }

  lemma {:induction false} GoneRun(w: World, steps: seq<Label>, r: ReservationId)
    requires GoneOrFlagged(w, r)
    ensures GoneOrFlagged(Run(w, steps), r)
    decreases |steps|
  {
    if steps != [] {
      if Enabled(w, steps[0]) {
        GoneStep(w, steps[0], r);
        GoneRun(Next(w, steps[0]), steps[1..], r);
      } else {
        GoneRun(w, steps[1..], r);
      }
    }
  }

  lemma GoneStays(start: World, before: seq<Label>, after: seq<Label>, r: ReservationId)
    requires before <= after
    ensures GoneOrFlagged(Run(start, before), r) ==> GoneOrFlagged(Run(start, after), r)
  {
    if GoneOrFlagged(Run(start, before), r) {
      GoneRun(Run(start, before), after[|before|..], r);
      RunConcat(start, before, after[|before|..]);
      assert before + after[|before|..] == after;
    }
  }

  /** Nothing of an ended attempt is left unaccounted: each of its rows is flagged for cleanup, and each file it
      put in place is an artifact's or has such a row. */
  ghost predicate NothingLeft(w: World, a: AttemptId) {
    && (forall r :: Owner(w, r, a) && r in w.rows ==> w.rows[r].cleanupRequired)
    && (forall k :: k in w.final && k in w.linkedBy && Owner(w, w.linkedBy[k], a) && k !in w.artifacts ==>
          w.linkedBy[k] in w.rows && w.rows[w.linkedBy[k]].key == k)
  }

  lemma AllGone(start: World, steps: seq<Label>, a: AttemptId)
    requires Init(start) && forall r :: Owner(Run(start, steps), r, a) ==> GoneOrFlagged(Run(start, steps), r)
    ensures NothingLeft(Run(start, steps), a)
  {
    var w := Run(start, steps);
    forall k | k in w.final && k in w.linkedBy && Owner(w, w.linkedBy[k], a) && k !in w.artifacts
      ensures w.linkedBy[k] in w.rows && w.rows[w.linkedBy[k]].key == k
    {
      LinkedFilesAreNamed(start, steps, k);
    }
  }
}
