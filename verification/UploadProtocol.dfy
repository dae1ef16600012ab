/** The durable artifact upload protocol of services.py over storage.py, as one transition system.

    Two stores cannot commit together: the private file tree (final and pending names) and the
    database (reservation and artifact rows).  `World` holds both, the in-memory progress of every
    upload attempt, and the clock.  A label is one atomic step: a file-system call, one database
    transaction with its row locks, or a tick.  A crash is an attempt that takes no further step. */
module UploadProtocol {
  import opened Wrappers

  type Byte = bv8
  type Bytes = seq<Byte>
  type Digest = nat
  type Key = nat
  type ReservationId = nat
  type AttemptId = nat
  type Time = int

  /** A verified durable-write receipt (StoredArtifact). */
  datatype Receipt = Receipt(key: Key, byteSize: nat, sha256: Digest)

  datatype StorageState = RESERVED | OWNED | COLLISION

  /** One StorageReservation row. */
  datatype Row = Row(key: Key, expiresAt: Time, state: StorageState, verified: Option<Receipt>, cleanupRequired: bool)

  /** How far one payload of an attempt has come. */
  datatype Stage =
    | Reserved
    | Opened                        // the pending name exists and bytes are streaming into it
    | Streamed(receipt: Receipt)    // pending bytes are verified and closed
    | Linked(receipt: Receipt)      // the final name exists, the pending one is not yet removed
    | Stored(receipt: Receipt)      // write returned
    | WriteCommitted(receipt: Receipt) // write raised StorageWriteCommitted
    | Verified(receipt: Receipt)    // the receipt is recorded and acknowledged
    | Collided                      // write raised StorageCollision
    | Uncertain                     // write raised StorageCleanupRequired
    | Failed                        // write raised anything else
  {
    predicate MidWrite() {
      Opened? || Streamed? || Linked?
    }

    /** `_CleanupCandidate.owns_bytes`. */
    predicate OwnsBytes() {
      Stored? || WriteCommitted? || Verified?
    }
  }

  /** A `_CleanupCandidate` with the progress of its payload, named by its reservation. */
  datatype Candidate = Candidate(attempt: AttemptId, key: Key, expiresAt: Time, stage: Stage)

  datatype Phase = Running | Compensating | Done

  datatype World = World(
    sha256: Bytes -> Digest,
    now: Time,
    final: map<Key, Bytes>,
    pending: map<Key, Bytes>,
    rows: map<ReservationId, Row>,
    artifacts: map<Key, Receipt>,
    phases: map<AttemptId, Phase>,
    candidates: map<ReservationId, Candidate>,
    usedIds: set<ReservationId>,
    linkedBy: map<Key, ReservationId>,  // which reservation's write linked a final name
    alienFinal: set<Key>,               // names that already existed when the system started
    alienPending: set<Key>)

  const RESERVATION_LIFETIME: Time := 24 * 3600

  /** What one cleanup transaction did: which names `delete` removed, whether it returned, and
      whether the transaction around it committed. */
  datatype CleanupOutcome = CleanupOutcome(finalGone: bool, pendingGone: bool, deleted: bool, committed: bool)
  {
    /** `delete` unlinks the final name first and returns only after both are gone. */
    predicate Possible() {
      (pendingGone ==> finalGone) && (deleted ==> pendingGone)
    }
  }

  datatype Label =
    | Begin(attempt: AttemptId)
    | Reserve(attempt: AttemptId, id: ReservationId, key: Key)
    | ReserveLost(attempt: AttemptId, id: ReservationId, key: Key)
    | OpenPending(id: ReservationId)
    | OpenCollides(id: ReservationId)
    | StreamPart(id: ReservationId, bytes: Bytes)
    | StreamDone(id: ReservationId)
    | WriteFails(id: ReservationId, unlinked: bool)
    | LinkFinal(id: ReservationId)
    | LinkCollides(id: ReservationId, unlinked: bool)
    | FinishWrite(id: ReservationId)
    | FinishFails(id: ReservationId, unlinked: bool)
    | MarkVerified(id: ReservationId, acknowledged: bool)
    | MarkCollision(id: ReservationId)
    | MarkCleanupRequired(id: ReservationId)
    | Fail(attempt: AttemptId)
    | Commit(attempt: AttemptId, acknowledged: bool)
    | Compensate(id: ReservationId, outcome: CleanupOutcome)
    | Clean(id: ReservationId, cutoff: Time, outcome: CleanupOutcome)
    | Tick(to: Time)

  ghost predicate Matches(w: World, bytes: Bytes, receipt: Receipt) {
    receipt.byteSize == |bytes| && receipt.sha256 == w.sha256(bytes)
  }

  ghost predicate KeyReserved(w: World, k: Key) {
    exists r :: r in w.rows && w.rows[r].key == k
  }

  ghost predicate Owner(w: World, r: ReservationId, a: AttemptId) {
    r in w.candidates && w.candidates[r].attempt == a
  }

  ghost predicate IsRunning(w: World, a: AttemptId) {
    a in w.phases && w.phases[a] == Running
  }

  ghost predicate AtStage(w: World, r: ReservationId) {
    r in w.candidates && IsRunning(w, w.candidates[r].attempt)
  }

  /** An attempt raises only between writes: the exceptions of `write` are its own stages. */
  ghost predicate BetweenWrites(w: World, a: AttemptId) {
    forall r :: Owner(w, r, a) ==> !w.candidates[r].stage.MidWrite()
  }

  /** The check made by `_commit_revision_metadata` on one prepared item. */
  ghost predicate Committable(w: World, r: ReservationId)
    requires r in w.candidates
  {
    var c := w.candidates[r];
    && c.stage.Verified?
    && r in w.rows
    && w.rows[r].key == c.stage.receipt.key
    && w.rows[r].verified == Some(c.stage.receipt)
    && !w.rows[r].cleanupRequired
    && c.stage.receipt.key !in w.artifacts
  }

  ghost predicate CommitReady(w: World, a: AttemptId) {
    && IsRunning(w, a)
    && forall r :: Owner(w, r, a) ==> Committable(w, r)
  }

  /** The save guard of a StorageReservation row that becomes OWNED. */
  ghost predicate MayMarkVerified(w: World, r: ReservationId, receipt: Receipt) {
    && r in w.rows
    && w.rows[r].key == receipt.key
    && !w.rows[r].cleanupRequired
    && (w.rows[r].state == RESERVED || (w.rows[r].state == OWNED && w.rows[r].verified == Some(receipt)))
  }

  ghost predicate Enabled(w: World, l: Label) {
    match l
    case Begin(a) => a !in w.phases
    case Reserve(a, r, k) => IsRunning(w, a) && r !in w.usedIds && !KeyReserved(w, k)
    case ReserveLost(a, r, k) => IsRunning(w, a) && BetweenWrites(w, a) && r !in w.usedIds && !KeyReserved(w, k)
    case OpenPending(r) => AtStage(w, r) && w.candidates[r].stage.Reserved? && w.candidates[r].key !in w.pending
    case OpenCollides(r) => AtStage(w, r) && w.candidates[r].stage.Reserved? && w.candidates[r].key in w.pending
    case StreamPart(r, _) => AtStage(w, r) && w.candidates[r].stage.Opened?
    case StreamDone(r) => AtStage(w, r) && w.candidates[r].stage.Opened? && w.candidates[r].key in w.pending
    case WriteFails(r, _) =>
      AtStage(w, r) && (w.candidates[r].stage.Reserved? || w.candidates[r].stage.Opened? || w.candidates[r].stage.Streamed?)
    case LinkFinal(r) =>
      && AtStage(w, r) && w.candidates[r].stage.Streamed?
      && w.candidates[r].key !in w.final && w.candidates[r].key in w.pending
    case LinkCollides(r, _) => AtStage(w, r) && w.candidates[r].stage.Streamed? && w.candidates[r].key in w.final
    case FinishWrite(r) => AtStage(w, r) && w.candidates[r].stage.Linked?
    case FinishFails(r, _) => AtStage(w, r) && w.candidates[r].stage.Linked?
    case MarkVerified(r, _) =>
      && AtStage(w, r)
      && (w.candidates[r].stage.Stored? || w.candidates[r].stage.WriteCommitted?)
      && MayMarkVerified(w, r, w.candidates[r].stage.receipt)
    case MarkCollision(r) =>
      && AtStage(w, r) && w.candidates[r].stage.Collided? && r in w.rows
      && (w.rows[r].state == RESERVED || w.rows[r].state == COLLISION)
    case MarkCleanupRequired(r) => AtStage(w, r) && w.candidates[r].stage.Uncertain? && r in w.rows
    case Fail(a) => IsRunning(w, a) && BetweenWrites(w, a)
    case Commit(a, _) => CommitReady(w, a)
    case Compensate(r, out) =>
      && r in w.candidates && w.candidates[r].attempt in w.phases
      && w.phases[w.candidates[r].attempt] == Compensating && out.Possible()
    case Clean(r, cutoff, out) => cutoff <= w.now && r in w.rows && w.rows[r].expiresAt <= cutoff && out.Possible()
    case Tick(to) => w.now <= to
  }

  /** The proviso of the main theorem: an attempt commits before any of its reservations expires. */
  ghost predicate Timely(w: World, l: Label) {
    l.Commit? ==> forall r :: Owner(w, r, l.attempt) ==> w.now < w.candidates[r].expiresAt
  }

  ghost function SetStage(w: World, r: ReservationId, s: Stage): World
    requires r in w.candidates
  {
    w.(candidates := w.candidates[r := w.candidates[r].(stage := s)])
  }

  ghost function AddRow(w: World, r: ReservationId, k: Key): World {
    w.(rows := w.rows[r := Row(k, w.now + RESERVATION_LIFETIME, RESERVED, None, false)],
       usedIds := w.usedIds + {r})
  }

  ghost function DropRow(w: World, r: ReservationId): World {
    w.(rows := w.rows - {r})
  }

  ghost function FlagRow(w: World, r: ReservationId): World
    requires r in w.rows
  {
    w.(rows := w.rows[r := w.rows[r].(cleanupRequired := true)])
  }

  ghost function DropPending(w: World, k: Key, gone: bool): World {
    if gone then w.(pending := w.pending - {k}) else w
  }

  /** Neither the artifact rows, nor the digest, nor what counts as alien changed. */
  ghost predicate SameArtifacts(w: World, w': World) {
    w'.artifacts == w.artifacts && w'.sha256 == w.sha256 && w'.alienFinal == w.alienFinal
    && w'.alienPending == w.alienPending
  }

  /** Nor did what the attempts remember, or the clock. */
  ghost predicate SameProcesses(w: World, w': World) {
    w'.candidates == w.candidates && w'.phases == w.phases && w'.now == w.now && w'.linkedBy == w.linkedBy
  }

  /** `storage.delete` followed by what the surrounding transaction makes of it. */
  ghost function DeleteFiles(w: World, r: ReservationId, k: Key, out: CleanupOutcome): (w': World)
    requires r in w.rows
    ensures SameArtifacts(w, w') && SameProcesses(w, w')
  {
    var w1 := if out.finalGone then w.(final := w.final - {k}) else w;
    var w2 := DropPending(w1, k, out.pendingGone);
    if !out.committed then w2 else if out.deleted then DropRow(w2, r) else FlagRow(w2, r)
  }

  /** One iteration of `_cleanup_unowned`. */
  ghost function CompensateOne(w: World, r: ReservationId, out: CleanupOutcome): (w': World)
    requires r in w.candidates
    ensures SameArtifacts(w, w') && SameProcesses(w, w')
  {
    var c := w.candidates[r];
    if r !in w.rows then w
    else if w.rows[r].key != c.key then (if out.committed then FlagRow(w, r) else w)
    else if c.key in w.artifacts || w.rows[r].state == COLLISION then (if out.committed then DropRow(w, r) else w)
    else if c.stage.Uncertain? then (if out.committed then FlagRow(w, r) else w)
    else if w.rows[r].cleanupRequired then w
    else if !c.stage.OwnsBytes() then (if out.committed then DropRow(w, r) else w)
    else DeleteFiles(w, r, c.key, out)
  }

  /** One iteration of `cleanup_expired_reservations` on a row that is still expired when locked. */
  ghost function CleanOne(w: World, r: ReservationId, out: CleanupOutcome): (w': World)
    requires r in w.rows
    ensures SameArtifacts(w, w') && SameProcesses(w, w')
  {
    var row := w.rows[r];
    if row.key in w.artifacts || row.state == COLLISION then (if out.committed then DropRow(w, r) else w)
    else if row.state == RESERVED then (if out.committed then FlagRow(w, r) else w)
    else DeleteFiles(w, r, row.key, out)
  }

  /** The keys named by the prepared items of an attempt. */
  ghost function PreparedKeys(w: World, a: AttemptId): set<Key>
    requires CommitReady(w, a)
  {
    set r | r in w.candidates && Owner(w, r, a) :: w.candidates[r].stage.receipt.key
  }

  ghost function PreparedReceipt(w: World, a: AttemptId, k: Key): Receipt
    requires CommitReady(w, a) && k in PreparedKeys(w, a)
  {
    var r :| Owner(w, r, a) && w.candidates[r].stage.receipt.key == k;
    w.candidates[r].stage.receipt
  }

  ghost function CommitRows(w: World, a: AttemptId, acknowledged: bool): World
    requires CommitReady(w, a)
  {
    w.(artifacts := w.artifacts + map k | k in PreparedKeys(w, a) :: PreparedReceipt(w, a, k),
       rows := w.rows - (set r | r in w.candidates && w.candidates[r].attempt == a),
       phases := w.phases[a := if acknowledged then Done else Compensating])
  }

  ghost function Next(w: World, l: Label): World
    requires Enabled(w, l)
  {
    match l
    case Begin(a) => w.(phases := w.phases[a := Running])
    case Reserve(a, r, k) =>
      AddRow(w, r, k).(candidates := w.candidates[r := Candidate(a, k, w.now + RESERVATION_LIFETIME, Stage.Reserved)])
    case ReserveLost(a, r, k) => AddRow(w, r, k).(phases := w.phases[a := Compensating])
    case OpenPending(r) => SetStage(w, r, Opened).(pending := w.pending[w.candidates[r].key := []])
    case OpenCollides(r) => SetStage(w, r, Collided)
    case StreamPart(r, bytes) => w.(pending := w.pending[w.candidates[r].key := bytes])
    case StreamDone(r) =>
      var k := w.candidates[r].key;
      SetStage(w, r, Streamed(Receipt(k, |w.pending[k]|, w.sha256(w.pending[k]))))
    case WriteFails(r, unlinked) =>
      if w.candidates[r].stage.Reserved? then SetStage(w, r, Failed)
      else DropPending(SetStage(w, r, if unlinked then Failed else Uncertain), w.candidates[r].key, unlinked)
    case LinkFinal(r) =>
      var k := w.candidates[r].key;
      SetStage(w, r, Linked(w.candidates[r].stage.receipt)).(
        final := w.final[k := w.pending[k]], linkedBy := w.linkedBy[k := r])
    case LinkCollides(r, unlinked) =>
      DropPending(SetStage(w, r, if unlinked then Collided else Uncertain), w.candidates[r].key, unlinked)
    case FinishWrite(r) =>
      DropPending(SetStage(w, r, Stored(w.candidates[r].stage.receipt)), w.candidates[r].key, true)
    case FinishFails(r, unlinked) =>
      DropPending(SetStage(w, r, WriteCommitted(w.candidates[r].stage.receipt)), w.candidates[r].key, unlinked)
    case MarkVerified(r, acknowledged) =>
      var rc := w.candidates[r].stage.receipt;
      var w1 := w.(rows := w.rows[r := w.rows[r].(state := OWNED, verified := Some(rc), cleanupRequired := false)]);
      if acknowledged && w.candidates[r].stage.Stored? then SetStage(w1, r, Verified(rc)) else w1
    case MarkCollision(r) => w.(rows := w.rows[r := w.rows[r].(state := COLLISION)])
    case MarkCleanupRequired(r) => FlagRow(w, r)
    case Fail(a) => w.(phases := w.phases[a := Compensating])
    case Commit(a, acknowledged) => CommitRows(w, a, acknowledged)
    case Compensate(r, out) => CompensateOne(w, r, out)
    case Clean(r, _, out) => CleanOne(w, r, out)
    case Tick(to) => w.(now := to)
  }

  /** A state in which no attempt has started and no row exists; the file tree may be dirty. */
  ghost predicate Init(w: World) {
    && w.rows == map[] && w.artifacts == map[] && w.phases == map[] && w.candidates == map[]
    && w.usedIds == {} && w.linkedBy == map[]
    && w.alienFinal == w.final.Keys && w.alienPending == w.pending.Keys
  }

  ghost predicate Step(w: World, l: Label, w': World) {
    Enabled(w, l) && w' == Next(w, l)
  }

  /** The state after a schedule of steps, taking each that is enabled. */
  ghost function Run(w: World, schedule: seq<Label>): World
    decreases |schedule|
  {
    if schedule == [] then w
    else Run(if Enabled(w, schedule[0]) then Next(w, schedule[0]) else w, schedule[1..])
  }
}
