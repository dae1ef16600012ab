/** The service code of services.py and the adapter code of storage.py, as methods that update the
    two stores in place.  Between any two atomic steps other processes may run: `Interfere`. */
module UploadService {
  import opened Wrappers
  import opened UploadProtocol
  import opened UploadSafety
  import opened UploadTheorems
  import opened UploadCleaner
  import opened UploadDrain
  import opened UploadSuccess

  /** A one-shot byte stream with what its sender claims about it (ArtifactPayload). */
  datatype Payload = Payload(chunks: seq<Bytes>, expectedSize: int, expectedSha256: Digest)

  function Concat(chunks: seq<Bytes>): Bytes {
    if chunks == [] then [] else Concat(chunks[..|chunks| - 1]) + chunks[|chunks| - 1]
  }

  lemma {:induction false} PrefixIsShorter(chunks: seq<Bytes>, n: nat)
    requires n <= |chunks|
    ensures |Concat(chunks[..n])| <= |Concat(chunks)|
    decreases |chunks|
  {
    if n < |chunks| {
      assert chunks[..|chunks| - 1][..n] == chunks[..n];
      PrefixIsShorter(chunks[..|chunks| - 1], n);
    } else {
      assert chunks[..n] == chunks;
    }
  }

  lemma OneMoreChunk(chunks: seq<Bytes>, n: nat)
    requires n < |chunks|
    ensures Concat(chunks[..n + 1]) == Concat(chunks[..n]) + chunks[n]
    ensures |Concat(chunks[..n])| + |chunks[n]| <= |Concat(chunks)|
  {
    assert chunks[..n + 1][..n] == chunks[..n];
    PrefixIsShorter(chunks, n + 1);
  }

  /** What `write` returned or raised. */
  datatype WriteResult =
    | WriteOk(receipt: Receipt)
    | CollisionError
    | CommittedError(receipt: Receipt)
    | CleanupError
    | OtherError

  datatype InsertResult = Inserted(id: ReservationId) | Duplicate | InsertFailed

  /** `_CleanupCandidate`, as the attempt keeps it in memory. */
  datatype CleanupItem = CleanupItem(id: ReservationId, key: Key, ownsBytes: bool, uncertain: bool)

  datatype OpenResult = Created | NameTaken | OpenError

  datatype LinkResult = LinkDone | LinkTaken(unlinked: bool) | LinkError(unlinked: bool)

  const KEY_ATTEMPTS: nat := 8

  class Deployment {
    // The two stores and the clock.
    const sha256: Bytes -> Digest
    var now: Time
    var final: map<Key, Bytes>
    var pending: map<Key, Bytes>
    var rows: map<ReservationId, Row>
    var artifacts: map<Key, Receipt>
    var usedIds: set<ReservationId>

    // The progress of every process, and the steps taken so far.
    ghost var phases: map<AttemptId, Phase>
    ghost var candidates: map<ReservationId, Candidate>
    ghost var linkedBy: map<Key, ReservationId>
    ghost const alienFinal: set<Key>
    ghost const alienPending: set<Key>
    ghost const start: World
    ghost var trace: seq<Label>

    /** The steps of the expiry cleaner that this process runs. */
    ghost var cleaned: seq<Label>
    /** The environment: no database transaction and no file-system call of this process fails, and no response
        to one is lost. */
    const working: bool

    ghost function W(): World
      reads this
    {
      World(sha256, now, final, pending, rows, artifacts, phases, candidates, usedIds, linkedBy, alienFinal, alienPending)
    }

    /** The state is what the protocol reaches from `start` by the recorded steps. */
    ghost predicate Valid()
      reads this
    {
      Init(start) && W() == Run(start, trace) && Bookkeeping(W())
    }

    constructor (sha256: Bytes -> Digest, final: map<Key, Bytes>, pending: map<Key, Bytes>, working: bool)
      ensures Valid() && trace == cleaned == [] && this.working == working
    {
      this.sha256, this.working := sha256, working;
      this.now, this.final, this.pending := 0, final, pending;
      this.rows, this.artifacts, this.usedIds := map[], map[], {};
      this.phases, this.candidates, this.linkedBy := map[], map[], map[];
      this.alienFinal, this.alienPending := final.Keys, pending.Keys;
      this.start := World(sha256, 0, final, pending, map[], map[], map[], map[], {}, map[], final.Keys, pending.Keys);
      this.trace, this.cleaned := [], [];
      new;
      InitInv(W());
    }

    static lemma StepExtendsRun(start: World, steps: seq<Label>, w: World, l: Label, w': World)
      requires Bookkeeping(w) && w == Run(start, steps) && Step(w, l, w')
      ensures Bookkeeping(w') && w' == Run(start, steps + [l])
    {
      StepKeepsBookkeeping(w, l);
      RunConcat(start, steps, [l]);
      assert Run(w, [l]) == w';
    }

    /** Records that the step `l` led from `w` to the present state. */
    ghost method Took(w: World, l: Label)
      requires Init(start) && Bookkeeping(w) && w == Run(start, trace) && Step(w, l, W())
      modifies this`trace
      ensures trace == old(trace) + [l] && Valid()
    {
      StepExtendsRun(start, trace, w, l, W());
      trace := trace + [l];
    }

    ghost method TookAs(w: World, l: Label, w': World)
      requires Init(start) && Bookkeeping(w) && w == Run(start, trace) && Step(w, l, w') && W() == w'
      modifies this`trace
      ensures trace == old(trace) + [l] && Valid()
    {
      Took(w, l);
    }

    /** What no other process does to attempt `a`: its memory is its own. */
    ghost predicate SameMemory(w: World, w': World, a: AttemptId) {
      && (a in w.phases <==> a in w'.phases)
      && (a in w.phases ==> w'.phases[a] == w.phases[a])
      && (forall r :: Owner(w, r, a) <==> Owner(w', r, a))
      && (forall r :: Owner(w, r, a) ==> w'.candidates[r] == w.candidates[r])
    }

    /** Any number of protocol steps of other attempts, of the cleaner and of the clock.  The body
        takes none; callers know only the contract. */
    method Interfere(ghost a: AttemptId)
      requires Valid()
      modifies this
      ensures Valid() && old(trace) <= trace
      ensures SameMemory(old(W()), W(), a) && OthersOnly(old(W()), trace[|old(trace)|..], a)
      ensures trace == old(trace) ==> W() == old(W())
    {
    }

    /** A step that only moves the stage of one candidate. */
    ghost method MoveStage(r: ReservationId, stage: Stage, l: Label)
      requires Valid() && r in candidates && Step(W(), l, SetStage(W(), r, stage))
      modifies this`candidates, this`trace
      ensures Valid() && trace == old(trace) + [l]
      ensures candidates == old(candidates)[r := old(candidates)[r].(stage := stage)]
    {
      var w := W();
      candidates := candidates[r := candidates[r].(stage := stage)];
      Took(w, l);
    }

    // storage.py

    /** `os.open(O_CREAT | O_EXCL)` on the pending name. */
    method OpenPendingFile(ghost r: ReservationId, key: Key) returns (result: OpenResult)
      requires Valid() && AtStage(W(), r) && candidates[r].key == key && candidates[r].stage.Reserved?
      modifies this
      ensures Valid() && phases == old(phases)
      ensures trace == old(trace) + [
                match result case Created => OpenPending(r) case NameTaken => OpenCollides(r) case OpenError => WriteFails(r, true)]
      ensures candidates == old(candidates)[r := old(candidates)[r].(stage :=
                match result case Created => Opened case NameTaken => Collided case OpenError => Failed)]
      ensures result.NameTaken? ==> key in old(pending)
      ensures result.Created? ==> key in pending && pending[key] == []
      ensures working ==> !result.OpenError?
    {
      var fault: bool := *;
      if fault && !working {
        result := OpenError;
        MoveStage(r, Failed, WriteFails(r, true));
      } else if key in pending {
        result := NameTaken;
        MoveStage(r, Collided, OpenCollides(r));
      } else {
        result := Created;
        ghost var w := W();
        pending := pending[key := []];
        candidates := candidates[r := candidates[r].(stage := Opened)];
        Took(w, OpenPending(r));
      }
    }

    /** `_unlink_pending_after_failure`, for a write that fails before its final name exists. */
    method UnlinkPendingAfterFailure(ghost r: ReservationId, key: Key) returns (unlinked: bool)
      requires Valid() && AtStage(W(), r) && candidates[r].key == key
      requires candidates[r].stage.Opened? || candidates[r].stage.Streamed?
      modifies this
      ensures Valid() && phases == old(phases) && trace == old(trace) + [WriteFails(r, unlinked)]
      ensures candidates == old(candidates)[r := old(candidates)[r].(stage := if unlinked then Failed else Uncertain)]
    {
      ghost var w := W();
      unlinked := *;
      if unlinked { pending := pending - {key}; }
      candidates := candidates[r := candidates[r].(stage := if unlinked then Failed else Uncertain)];
      Took(w, WriteFails(r, unlinked));
    }

    /** One `os.write`: some nonempty prefix of what remains reaches the pending file, or none. */
    method WriteSome(ghost r: ReservationId, key: Key, remaining: Bytes) returns (written: int)
      requires Valid() && AtStage(W(), r) && candidates[r].key == key && candidates[r].stage.Opened?
      requires remaining != []
      modifies this
      ensures Valid() && candidates == old(candidates) && phases == old(phases) && now == old(now) && old(trace) <= trace
      ensures 0 <= written <= |remaining| && (working && key in old(pending) ==> written > 0)
      ensures key in old(pending) ==> key in pending && pending[key] == old(pending)[key] + remaining[..written]
    {
      ghost var w := W();
      written := *;
      if working && !(0 < written <= |remaining|) { written := |remaining|; }
      if written <= 0 || |remaining| < written || key !in pending { written := 0; return; }
      pending := pending[key := pending[key] + remaining[..written]];
      Took(w, StreamPart(r, pending[key]));
    }

    static lemma Regroup(stored: Bytes, remaining: Bytes, written: nat)
      requires written <= |remaining|
      ensures (stored + remaining[..written]) + remaining[written..] == stored + remaining
    {
    }

    /** `_write_all`: false when a write makes no progress. */
    method WriteAll(ghost r: ReservationId, key: Key, chunk: Bytes) returns (ok: bool)
      requires Valid() && AtStage(W(), r) && candidates[r].key == key && candidates[r].stage.Opened?
      modifies this
      ensures Valid() && candidates == old(candidates) && phases == old(phases) && now == old(now) && old(trace) <= trace
      ensures key in old(pending) && ok ==> key in pending && pending[key] == old(pending)[key] + chunk
      ensures working && key in old(pending) ==> ok
    {
      var remaining := chunk;
      while remaining != []
        invariant Valid() && AtStage(W(), r) && candidates == old(candidates) && phases == old(phases) && now == old(now)
        invariant old(trace) <= trace
        invariant key in old(pending) ==> key in pending && pending[key] + remaining == old(pending)[key] + chunk
        decreases |remaining|
      {
        ghost var stored := if key in pending then pending[key] else [];
        var written := WriteSome(r, key, remaining);
        if written <= 0 { return false; }
        Regroup(stored, remaining, written);
        remaining := remaining[written..];
      }
      return true;
    }

    /** `_stream_and_verify`: on success the pending bytes have the size and digest of the stream,
        and both meet the sender's claims. */
    method StreamAndVerify(ghost r: ReservationId, key: Key, payload: Payload) returns (ok: bool, receipt: Receipt)
      requires Valid() && AtStage(W(), r) && candidates[r].key == key && candidates[r].stage.Opened?
      modifies this
      ensures Valid() && AtStage(W(), r) && now == old(now)
      ensures candidates == old(candidates)[r := old(candidates)[r].(stage := if ok then Streamed(receipt) else Opened)]
      ensures phases == old(phases)
      ensures ok ==> var data := Concat(payload.chunks);
                     && receipt == Receipt(key, |data|, sha256(data))
                     && |data| == payload.expectedSize && sha256(data) == payload.expectedSha256
      ensures old(trace) <= trace && (working && ClaimsTrue(payload) && EmptyFile(old(W()), key) ==> ok)
    {
      receipt := Receipt(key, 0, 0);
      var seen;
      ok, seen := StreamChunks(r, key, payload);
      if !ok { return; }
      var byteSize, calculated := |seen|, sha256(seen);
      if byteSize != payload.expectedSize || calculated != payload.expectedSha256 { return false, receipt; }
      // Read-back of the stored bytes.
      if key !in pending || |pending[key]| != byteSize || sha256(pending[key]) != calculated { return false, receipt; }
      receipt := Receipt(key, byteSize, calculated);
      MoveStage(r, Streamed(receipt), StreamDone(r));
    }

    /** The sender's claims about the size and digest of the stream are true. */
    ghost predicate ClaimsTrue(payload: Payload) {
      var data := Concat(payload.chunks);
      |data| == payload.expectedSize && sha256(data) == payload.expectedSha256
    }

    static predicate EmptyFile(w: World, key: Key) {
      key in w.pending && w.pending[key] == []
    }

    /** The loop over the chunks, which stops as soon as there are too many bytes. */
    method StreamChunks(ghost r: ReservationId, key: Key, payload: Payload) returns (ok: bool, seen: Bytes)
      requires Valid() && AtStage(W(), r) && candidates[r].key == key && candidates[r].stage.Opened?
      modifies this
      ensures Valid() && candidates == old(candidates) && phases == old(phases) && now == old(now) && old(trace) <= trace
      ensures ok ==> seen == Concat(payload.chunks)
      ensures EmptyFile(old(W()), key) && ok ==> key in pending && pending[key] == seen
      ensures working && EmptyFile(old(W()), key) && |Concat(payload.chunks)| <= payload.expectedSize ==> ok
    {
      seen := [];
      for i := 0 to |payload.chunks|
        invariant Valid() && candidates == old(candidates) && phases == old(phases) && now == old(now) && old(trace) <= trace
        invariant seen == Concat(payload.chunks[..i])
        invariant EmptyFile(old(W()), key) ==> key in pending && pending[key] == seen
      {
        var chunk := payload.chunks[i];
        OneMoreChunk(payload.chunks, i);
        if |seen| + |chunk| > payload.expectedSize { return false, seen; }
        seen := seen + chunk;
        ok := WriteAll(r, key, chunk);
        if !ok { return; }
      }
      assert payload.chunks[..|payload.chunks|] == payload.chunks;
      ok := true;
    }

    /** The link found the final name taken: the pending one is removed, or doubted. */
    method LinkNameTaken(ghost r: ReservationId, key: Key) returns (unlinked: bool)
      requires Valid() && AtStage(W(), r) && candidates[r].key == key && candidates[r].stage.Streamed? && key in final
      modifies this
      ensures Valid() && phases == old(phases) && trace == old(trace) + [LinkCollides(r, unlinked)]
      ensures candidates == old(candidates)[r := old(candidates)[r].(stage := if unlinked then Collided else Uncertain)]
    {
      ghost var w := W();
      unlinked := *;
      if unlinked { pending := pending - {key}; }
      candidates := candidates[r := candidates[r].(stage := if unlinked then Collided else Uncertain)];
      Took(w, LinkCollides(r, unlinked));
    }

    /** `os.link(pending, final)`. */
    method LinkFinalFile(ghost r: ReservationId, key: Key) returns (result: LinkResult)
      requires Valid() && AtStage(W(), r) && candidates[r].key == key && candidates[r].stage.Streamed?
      modifies this
      ensures Valid() && phases == old(phases)
      ensures candidates == old(candidates)[r := old(candidates)[r].(stage :=
                match result
                case LinkDone => Linked(old(candidates)[r].stage.receipt)
                case LinkTaken(unlinked) => if unlinked then Collided else Uncertain
                case LinkError(unlinked) => if unlinked then Failed else Uncertain)]
      ensures old(trace) <= trace && (working && key !in old(final) && key in old(pending) ==> result.LinkDone?)
    {
      var fault: bool := *;
      if (fault && !working) || (key !in final && key !in pending) {
        var unlinked := UnlinkPendingAfterFailure(r, key);
        return LinkError(unlinked);
      }
      if key in final {
        var unlinked := LinkNameTaken(r, key);
        return LinkTaken(unlinked);
      }
      InstallFinal(r, key);
      return LinkDone;
    }

    /** The link succeeds. */
    method InstallFinal(ghost r: ReservationId, key: Key)
      requires Valid() && AtStage(W(), r) && candidates[r].key == key && candidates[r].stage.Streamed?
      requires key !in final && key in pending
      modifies this
      ensures Valid() && phases == old(phases) && trace == old(trace) + [LinkFinal(r)]
      ensures candidates == old(candidates)[r := old(candidates)[r].(stage := Linked(old(candidates)[r].stage.receipt))]
    {
      ghost var w := W();
      final := final[key := pending[key]];
      linkedBy := linkedBy[key := r];
      candidates := candidates[r := candidates[r].(stage := Linked(candidates[r].stage.receipt))];
      Took(w, LinkFinal(r));
    }

    /** The unlink of the pending name and the directory barrier after a successful link. */
    method FinishInstall(ghost r: ReservationId, key: Key) returns (ok: bool)
      requires Valid() && AtStage(W(), r) && candidates[r].key == key && candidates[r].stage.Linked?
      modifies this
      ensures Valid() && phases == old(phases)
      ensures trace == old(trace) + [FinishWrite(r)] || exists gone :: trace == old(trace) + [FinishFails(r, gone)]
      ensures var rc := old(candidates)[r].stage.receipt;
              candidates == old(candidates)[r := old(candidates)[r].(stage := if ok then Stored(rc) else WriteCommitted(rc))]
      ensures working ==> ok
    {
      var unlinked: bool := *;
      var durable: bool := *;
      if working { unlinked, durable := true, true; }
      ok := unlinked && durable;
      EndInstall(r, key, unlinked, ok);
    }

    method EndInstall(ghost r: ReservationId, key: Key, unlinked: bool, ghost ok: bool)
      requires Valid() && AtStage(W(), r) && candidates[r].key == key && candidates[r].stage.Linked? && (ok ==> unlinked)
      modifies this
      ensures Valid() && phases == old(phases) && trace == old(trace) + [if ok then FinishWrite(r) else FinishFails(r, unlinked)]
      ensures var rc := old(candidates)[r].stage.receipt;
              candidates == old(candidates)[r := old(candidates)[r].(stage := if ok then Stored(rc) else WriteCommitted(rc))]
    {
      ghost var w := W();
      ghost var rc := candidates[r].stage.receipt;
      if unlinked { pending := pending - {key}; }
      candidates := candidates[r := candidates[r].(stage := if ok then Stored(rc) else WriteCommitted(rc))];
      InstallEnds(w, r, unlinked, ok);
      TookAs(w, if ok then FinishWrite(r) else FinishFails(r, unlinked), DropPending(SetStage(w, r, candidates[r].stage), key, unlinked));
    }

    static lemma InstallEnds(w: World, r: ReservationId, unlinked: bool, ok: bool)
      requires AtStage(w, r) && w.candidates[r].stage.Linked? && (ok ==> unlinked)
      ensures var rc := w.candidates[r].stage.receipt;
              Step(w, if ok then FinishWrite(r) else FinishFails(r, unlinked),
                   DropPending(SetStage(w, r, if ok then Stored(rc) else WriteCommitted(rc)), w.candidates[r].key, unlinked))
    {
    }

    /** What a write leaves in the memory of its attempt. */
    ghost predicate StagedAs(c: Candidate, c': Candidate, result: WriteResult) {
      && c' == c.(stage := c'.stage)
      && match result
         case WriteOk(receipt) => c'.stage == Stored(receipt)
         case CommittedError(receipt) => c'.stage == WriteCommitted(receipt)
         case CollisionError => c'.stage.Collided?
         case CleanupError => c'.stage.Uncertain?
         case OtherError => c'.stage.Failed?
    }

    /** A receipt for exactly the bytes of the stream, which met the sender's claims. */
    ghost predicate Describes(receipt: Receipt, key: Key, payload: Payload) {
      var data := Concat(payload.chunks);
      && receipt == Receipt(key, |data|, sha256(data))
      && |data| == payload.expectedSize && sha256(data) == payload.expectedSha256
    }

    /** Only the one candidate of the attempt moves. */
    ghost predicate OnlyMoved(w: World, w': World, a: AttemptId, r: ReservationId) {
      && a in w.phases && a in w'.phases && w'.phases[a] == w.phases[a]
      && (forall q :: Owner(w, q, a) <==> Owner(w', q, a))
      && (forall q :: q != r && Owner(w, q, a) ==> w'.candidates[q] == w.candidates[q])
    }

    /** The end of `write`: the final name exists. */
    method FinishLinked(ghost a: AttemptId, ghost r: ReservationId, key: Key, receipt: Receipt) returns (result: WriteResult)
      requires Valid() && IsRunning(W(), a) && Owner(W(), r, a)
      requires candidates[r].key == key && candidates[r].stage == Linked(receipt)
      modifies this
      ensures Valid() && OnlyMoved(old(W()), W(), a, r) && Owner(W(), r, a)
      ensures StagedAs(old(candidates[r]), candidates[r], result)
      ensures result == WriteOk(receipt) || result == CommittedError(receipt)
      ensures old(trace) <= trace && (working ==> result.WriteOk?)
    {
      Interfere(a);
      assert Owner(W(), r, a);
      var finished := FinishInstall(r, key);
      return if finished then WriteOk(receipt) else CommittedError(receipt);
    }

    /** The last part of `write`: link the verified bytes and remove the pending name. */
    method Install(ghost a: AttemptId, ghost r: ReservationId, key: Key, receipt: Receipt) returns (result: WriteResult)
      requires Valid() && IsRunning(W(), a) && Owner(W(), r, a)
      requires candidates[r].key == key && candidates[r].stage == Streamed(receipt)
      modifies this
      ensures Valid() && OnlyMoved(old(W()), W(), a, r) && Owner(W(), r, a)
      ensures StagedAs(old(candidates[r]), candidates[r], result)
      ensures result.WriteOk? || result.CommittedError? ==> result.receipt == receipt
      ensures old(trace) <= trace && (working && Intact(old(W()), r) ==> result.WriteOk?)
    {
      var linked := LinkFinalFile(r, key);
      match linked {
        case LinkTaken(unlinked) => return if unlinked then CollisionError else CleanupError;
        case LinkError(unlinked) => return if unlinked then OtherError else CleanupError;
        case LinkDone =>
          result := FinishLinked(a, r, key, receipt);
      }
    }

    /** The middle part of `write`: stream into the open pending file, then install it. */
    method StreamAndInstall(ghost a: AttemptId, ghost r: ReservationId, key: Key, payload: Payload) returns (result: WriteResult)
      requires Valid() && IsRunning(W(), a) && Owner(W(), r, a)
      requires candidates[r].key == key && candidates[r].stage.Opened?
      modifies this
      ensures Valid() && OnlyMoved(old(W()), W(), a, r) && Owner(W(), r, a)
      ensures StagedAs(old(candidates[r]), candidates[r], result)
      ensures result.WriteOk? || result.CommittedError? ==> Describes(result.receipt, key, payload)
      ensures old(trace) <= trace
      ensures working && ClaimsTrue(payload) && EmptyFile(old(W()), key) && !result.WriteOk? ==> LostOne(W(), a)
    {
      var ok, receipt := StreamAndVerify(r, key, payload);
      if !ok {
        var unlinked := UnlinkPendingAfterFailure(r, key);
        return if unlinked then OtherError else CleanupError;
      }
      result := InstallAmongOthers(a, r, key, receipt);
    }

    /** The link of a verified stream, with other processes running just before. */
    method InstallAmongOthers(ghost a: AttemptId, ghost r: ReservationId, key: Key, receipt: Receipt) returns (result: WriteResult)
      requires Valid() && IsRunning(W(), a) && Owner(W(), r, a)
      requires candidates[r].key == key && candidates[r].stage == Streamed(receipt)
      modifies this
      ensures Valid() && OnlyMoved(old(W()), W(), a, r) && Owner(W(), r, a)
      ensures StagedAs(old(candidates[r]), candidates[r], result)
      ensures result.WriteOk? || result.CommittedError? ==> result.receipt == receipt
      ensures old(trace) <= trace && (working && !result.WriteOk? ==> LostOne(W(), a))
    {
      Interfere(a);
      ghost var before := trace;
      result := Install(a, r, key, receipt);
      if working && !result.WriteOk? { BrokenIsLost(start, before, trace, a, r); }
    }

    /** `FilesystemArtifactStorage.write`. */
    method Write(ghost a: AttemptId, ghost r: ReservationId, key: Key, payload: Payload) returns (result: WriteResult)
      requires Valid() && IsRunning(W(), a) && Owner(W(), r, a)
      requires candidates[r].key == key && candidates[r].stage.Reserved?
      modifies this
      ensures Valid() && OnlyMoved(old(W()), W(), a, r) && Owner(W(), r, a)
      ensures StagedAs(old(candidates[r]), candidates[r], result)
      ensures result.WriteOk? || result.CommittedError? ==> Describes(result.receipt, key, payload)
      ensures old(trace) <= trace && (working && ClaimsTrue(payload) && !result.WriteOk? ==> LostOne(W(), a))
    {
      var opening := OpenPendingFile(r, key);
      match opening {
        case Created => result := WriteOpened(a, r, key, payload);
        case OpenError => result := OtherError;
        case NameTaken =>
          result := CollisionError;
          BrokenIsLost(start, old(trace), trace, a, r);
      }
    }

    /** The rest of `write` once the pending file is open. */
    method WriteOpened(ghost a: AttemptId, ghost r: ReservationId, key: Key, payload: Payload) returns (result: WriteResult)
      requires Valid() && IsRunning(W(), a) && Owner(W(), r, a)
      requires candidates[r].key == key && candidates[r].stage.Opened? && EmptyFile(W(), key)
      modifies this
      ensures Valid() && OnlyMoved(old(W()), W(), a, r) && Owner(W(), r, a)
      ensures StagedAs(old(candidates[r]), candidates[r], result)
      ensures result.WriteOk? || result.CommittedError? ==> Describes(result.receipt, key, payload)
      ensures old(trace) <= trace && (working && ClaimsTrue(payload) && !result.WriteOk? ==> LostOne(W(), a))
    {
      ghost var begun := trace;
      Interfere(a);
      StillEmpty(begun, a, r, key);
      ghost var before := trace;
      result := StreamAndInstall(a, r, key, payload);
      LostStays(start, before, trace, a);
    }

    /** The pending file that the write has just opened is still empty, unless an artifact has its key. */
    lemma StillEmpty(begun: seq<Label>, a: AttemptId, r: ReservationId, key: Key)
      requires Valid() && begun <= trace
      requires Streaming(Run(start, begun), a, r, key) && EmptyFile(Run(start, begun), key)
      requires OthersOnly(Run(start, begun), trace[|begun|..], a) && Owner(W(), r, a) && candidates[r].key == key
      ensures EmptyFile(W(), key) || LostOne(W(), a)
    {
      assert begun + trace[|begun|..] == trace;
      BytesStay(start, begun, trace[|begun|..], a, r, key);
      if key in artifacts { assert Owner(W(), r, a) && Lost(W(), r); }
    }

    /** A write with other processes running just before and just after it. */
    method WriteAmongOthers(ghost a: AttemptId, ghost r: ReservationId, key: Key, payload: Payload) returns (result: WriteResult)
      requires Valid() && IsRunning(W(), a) && Owner(W(), r, a)
      requires candidates[r].key == key && candidates[r].stage.Reserved?
      modifies this
      ensures Valid() && OnlyMoved(old(W()), W(), a, r) && Owner(W(), r, a)
      ensures StagedAs(old(candidates[r]), candidates[r], result)
      ensures result.WriteOk? || result.CommittedError? ==> Describes(result.receipt, key, payload)
      ensures old(trace) <= trace && (working && ClaimsTrue(payload) && !result.WriteOk? ==> LostOne(W(), a))
    {
      Interfere(a);
      result := Write(a, r, key, payload);
      ghost var written := trace;
      Interfere(a);
      LostStays(start, written, trace, a);
    }

    // services.py: the transactions of one attempt

    ghost predicate Idle(a: AttemptId)
      reads this
    {
      BetweenWrites(W(), a)
    }

    /** The insert of a reservation row: refused by the unique key, lost, rolled back, or acknowledged. */
    method InsertReservation(ghost a: AttemptId, key: Key) returns (result: InsertResult)
      requires Valid() && IsRunning(W(), a) && Idle(a)
      modifies this
      ensures Valid() && old(trace) <= trace
      ensures result.Duplicate? ==> KeyReserved(W(), key)
      ensures result.Inserted? ==>
                && !KeyReserved(old(W()), key) && trace == old(trace) + [Reserve(a, result.id, key)]
                && phases == old(phases) && result.id !in old(candidates)
                && candidates == old(candidates)[result.id := Candidate(a, key, old(now) + RESERVATION_LIFETIME, Stage.Reserved)]
      ensures !result.Inserted? ==> candidates == old(candidates)
      ensures result.Duplicate? ==> phases == old(phases)
      ensures result.InsertFailed? ==> !working && (phases == old(phases) || phases == old(phases)[a := Compensating])
    {
      ghost var w := W();
      if exists r | r in rows :: rows[r].key == key {
        assert KeyReserved(w, key);
        return Duplicate;
      }
      assert !KeyReserved(w, key);
      var committed: bool := *;
      var acknowledged: bool := *;
      if working { committed, acknowledged := true, true; }
      if !committed { return InsertFailed; }
      FreshIdExists(usedIds);
      var id: ReservationId :| id !in usedIds;
      FreshId(w, id);
      if acknowledged {
        InsertRow(a, id, key);
        return Inserted(id);
      }
      InsertRowUnheard(a, id, key);
      return InsertFailed;
    }

    /** The insert commits and its caller learns so. */
    method InsertRow(ghost a: AttemptId, id: ReservationId, key: Key)
      requires Valid() && Enabled(W(), Reserve(a, id, key))
      modifies this
      ensures Valid() && phases == old(phases) && trace == old(trace) + [Reserve(a, id, key)]
      ensures candidates == old(candidates)[id := Candidate(a, key, old(now) + RESERVATION_LIFETIME, Stage.Reserved)]
    {
      ghost var w := W();
      rows := rows[id := Row(key, now + RESERVATION_LIFETIME, RESERVED, None, false)];
      usedIds := usedIds + {id};
      candidates := candidates[id := Candidate(a, key, now + RESERVATION_LIFETIME, Stage.Reserved)];
      Took(w, Reserve(a, id, key));
    }

    /** The insert commits but its response is lost: the attempt fails without a candidate. */
    method InsertRowUnheard(ghost a: AttemptId, id: ReservationId, key: Key)
      requires Valid() && Enabled(W(), ReserveLost(a, id, key))
      modifies this
      ensures Valid() && trace == old(trace) + [ReserveLost(a, id, key)] && phases == old(phases)[a := Compensating] && candidates == old(candidates)
    {
      ghost var w := W();
      rows := rows[id := Row(key, now + RESERVATION_LIFETIME, RESERVED, None, false)];
      usedIds := usedIds + {id};
      phases := phases[a := Compensating];
      Took(w, ReserveLost(a, id, key));
    }

    /** `_mark_reservation_verified`: true when the transaction committed and was acknowledged. */
    method MarkReservationVerified(ghost a: AttemptId, id: ReservationId, receipt: Receipt) returns (acknowledged: bool)
      requires Valid() && IsRunning(W(), a) && Owner(W(), id, a)
      requires candidates[id].stage == Stored(receipt) || candidates[id].stage == WriteCommitted(receipt)
      modifies this
      ensures Valid() && phases == old(phases)
      ensures candidates == if acknowledged && old(candidates)[id].stage.Stored?
                            then old(candidates)[id := old(candidates)[id].(stage := Verified(receipt))] else old(candidates)
      ensures old(trace) <= trace && (working ==> (acknowledged <==> MayMarkVerified(old(W()), id, receipt)))
      ensures acknowledged ==> id in rows && rows[id].state == OWNED && rows[id].verified == Some(receipt)
    {
      ghost var w := W();
      var committed: bool := *;
      acknowledged := *;
      if working { committed, acknowledged := true, true; }
      if !committed || id !in rows || rows[id].key != receipt.key || rows[id].cleanupRequired ||
         !(rows[id].state == RESERVED || (rows[id].state == OWNED && rows[id].verified == Some(receipt)))
      {
        return false;
      }
      RecordReceipt(a, id, receipt, acknowledged);
    }

    /** The row becomes OWNED with its receipt. */
    method RecordReceipt(ghost a: AttemptId, id: ReservationId, receipt: Receipt, ghost acknowledged: bool)
      requires Valid() && id in rows && id in candidates
      requires Enabled(W(), MarkVerified(id, acknowledged)) && candidates[id].stage.receipt == receipt
      modifies this
      ensures Valid() && phases == old(phases) && trace == old(trace) + [MarkVerified(id, acknowledged)]
      ensures id in rows && rows[id].state == OWNED && rows[id].verified == Some(receipt)
      ensures candidates == if acknowledged && old(candidates)[id].stage.Stored?
                            then old(candidates)[id := old(candidates)[id].(stage := Verified(receipt))] else old(candidates)
    {
      ghost var w := W();
      rows := rows[id := rows[id].(state := OWNED, verified := Some(receipt), cleanupRequired := false)];
      if acknowledged && candidates[id].stage.Stored? {
        candidates := candidates[id := candidates[id].(stage := Verified(receipt))];
      }
      Took(w, MarkVerified(id, acknowledged));
    }

    /** `_mark_reservation_collision`; its exceptions are swallowed. */
    method MarkReservationCollision(ghost a: AttemptId, id: ReservationId)
      requires Valid() && IsRunning(W(), a) && Owner(W(), id, a) && candidates[id].stage.Collided?
      modifies this
      ensures Valid() && phases == old(phases) && candidates == old(candidates) && old(trace) <= trace
      ensures working && id in old(rows) && old(rows)[id].state != OWNED ==> id in rows && rows[id].state == COLLISION
    {
      ghost var w := W();
      var committed: bool := *;
      if (committed || working) && id in rows && rows[id].state != OWNED {
        rows := rows[id := rows[id].(state := COLLISION)];
        Took(w, MarkCollision(id));
      }
    }

    /** `_mark_reservation_cleanup_required`; its exceptions are swallowed. */
    method MarkReservationCleanupRequired(ghost a: AttemptId, id: ReservationId)
      requires Valid() && IsRunning(W(), a) && Owner(W(), id, a) && candidates[id].stage.Uncertain?
      modifies this
      ensures Valid() && phases == old(phases) && candidates == old(candidates) && old(trace) <= trace
      ensures working && id in old(rows) ==> id in rows && rows[id].cleanupRequired
    {
      ghost var w := W();
      var committed: bool := *;
      if (committed || working) && id in rows {
        rows := rows[id := rows[id].(cleanupRequired := true)];
        Took(w, MarkCleanupRequired(id));
      }
    }

    /** The exception that leads to `_cleanup_unowned`. */
    ghost method Raise(a: AttemptId)
      requires Valid() && Idle(a) && a in phases && phases[a] != Done
      modifies this`phases, this`trace
      ensures Valid() && phases == old(phases)[a := Compensating] && old(trace) <= trace
    {
      if phases[a] == Running {
        var w := W();
        phases := phases[a := Compensating];
        Took(w, Fail(a));
      }
    }

    /** The prepared items of the attempt: its reservations, in order, with their receipts. */
    ghost predicate Prepared(a: AttemptId, ids: seq<ReservationId>, receipts: seq<Receipt>)
      reads this
    {
      && |ids| == |receipts|
      && (forall r :: Owner(W(), r, a) ==> r in ids)
      && (forall j :: 0 <= j < |ids| ==> Owner(W(), ids[j], a) && candidates[ids[j]].stage == Verified(receipts[j]))
    }

    /** The checks of `_commit_revision_metadata` on its locked reservations. */
    method CheckPrepared(ghost a: AttemptId, ids: seq<ReservationId>, receipts: seq<Receipt>) returns (ok: bool)
      requires IsRunning(W(), a) && Prepared(a, ids, receipts)
      ensures ok <==> CommitReady(W(), a)
    {
      for j := 0 to |ids|
        invariant forall i :: 0 <= i < j ==> Committable(W(), ids[i])
      {
        var id, receipt := ids[j], receipts[j];
        if id !in rows || rows[id].key != receipt.key || rows[id].verified != Some(receipt)
           || rows[id].cleanupRequired || receipt.key in artifacts
        {
          assert Owner(W(), id, a) && !Committable(W(), id);
          return false;
        }
        assert Committable(W(), id);
      }
      return true;
    }

    /** The committed artifacts are the old ones and one per prepared item, each with its receipt. */
    lemma CommittedArtifacts(a: AttemptId, ids: seq<ReservationId>, receipts: seq<Receipt>)
      requires Valid() && Prepared(a, ids, receipts) && CommitReady(W(), a)
      ensures var target := CommitRows(W(), a, true).artifacts;
              && (forall k :: k in artifacts ==> k in target && target[k] == artifacts[k])
              && (forall j :: 0 <= j < |ids| ==> receipts[j].key in target && target[receipts[j].key] == receipts[j])
              && (forall k :: k in target ==> k in artifacts || exists j :: 0 <= j < |ids| && receipts[j].key == k)
    {
      var w, target := W(), CommitRows(W(), a, true).artifacts;
      forall j | 0 <= j < |ids| ensures receipts[j].key in target && target[receipts[j].key] == receipts[j] {
        CommitNames(w, a, ids[j]);
      }
      forall k | k in PreparedKeys(w, a) ensures k !in artifacts && exists j :: 0 <= j < |ids| && receipts[j].key == k {
        WitnessOf(w, a, k);
        var r :| Owner(w, r, a) && candidates[r].stage.Verified? && candidates[r].stage.receipt.key == k;
        assert r in ids && Committable(w, r);
      }
    }

    /** The artifact rows written by the commit: one per prepared item. */
    method BuildArtifacts(ghost a: AttemptId, ids: seq<ReservationId>, receipts: seq<Receipt>, ghost target: map<Key, Receipt>)
      returns (built: map<Key, Receipt>)
      requires |ids| == |receipts|
      requires forall k :: k in artifacts ==> k in target && target[k] == artifacts[k]
      requires forall j :: 0 <= j < |ids| ==> receipts[j].key in target && target[receipts[j].key] == receipts[j]
      requires forall k :: k in target ==> k in artifacts || exists j :: 0 <= j < |ids| && receipts[j].key == k
      ensures built == target
    {
      built := artifacts;
      for j := 0 to |ids|
        invariant forall k :: k in built ==> k in target && built[k] == target[k]
        invariant forall k :: k in artifacts ==> k in built
        invariant forall i :: 0 <= i < j ==> receipts[i].key in built
      {
        built := built[receipts[j].key := receipts[j]];
      }
    }

    /** The reservations left after the commit deletes its own. */
    method DeleteReservations(ghost a: AttemptId, ids: seq<ReservationId>, receipts: seq<Receipt>)
      returns (left: map<ReservationId, Row>)
      requires Prepared(a, ids, receipts) && CommitReady(W(), a)
      ensures left == CommitRows(W(), a, true).rows
    {
      left := rows;
      for j := 0 to |ids|
        invariant left == rows - (set i | 0 <= i < j :: ids[i])
      {
        left := left - {ids[j]};
      }
      assert (set i | 0 <= i < |ids| :: ids[i]) == (set r | r in candidates && candidates[r].attempt == a) by {
        assert forall r :: r in candidates && candidates[r].attempt == a ==> Owner(W(), r, a);
      }
    }

    /** `_commit_revision_metadata`.  `accepted` is whether the dashboard accepts the revision; a rollback and a
        lost response are chosen freely unless the environment is working. */
    method CommitRevisionMetadata(ghost a: AttemptId, ids: seq<ReservationId>, receipts: seq<Receipt>, accepted: bool)
      returns (acknowledged: bool)
      requires Valid() && IsRunning(W(), a) && Prepared(a, ids, receipts)
      modifies this
      ensures Valid() && candidates == old(candidates) && old(trace) <= trace
      ensures acknowledged ==> accepted && CommitReady(old(W()), a)
      ensures working && accepted && CommitReady(old(W()), a) ==> acknowledged
      ensures acknowledged ==>
                && trace == old(trace) + [Commit(a, true)] && phases == old(phases)[a := Done]
                && (forall j :: 0 <= j < |ids| ==> receipts[j].key in artifacts && artifacts[receipts[j].key] == receipts[j])
                && (forall i, j :: 0 <= i < j < |ids| && ids[i] != ids[j] ==> receipts[i].key != receipts[j].key)
      ensures !acknowledged ==> phases == old(phases) || phases == old(phases)[a := Compensating]
    {
      ghost var w := W();
      var committed: bool := *;
      if working { committed := true; }
      var checked := CheckPrepared(a, ids, receipts);
      if !accepted || !checked || !committed { return false; }
      CommittedArtifacts(a, ids, receipts);
      var newArtifacts := BuildArtifacts(a, ids, receipts, CommitRows(w, a, true).artifacts);
      var newRows := DeleteReservations(a, ids, receipts);
      acknowledged := *;
      if working { acknowledged := true; }
      CommitShape(w, a, acknowledged, newArtifacts, newRows);
      FinishCommit(a, newArtifacts, newRows, acknowledged);
      KeysDiffer(w, a, ids, receipts);
    }

    static lemma KeysDiffer(w: World, a: AttemptId, ids: seq<ReservationId>, receipts: seq<Receipt>)
      requires Bookkeeping(w) && CommitReady(w, a) && |ids| == |receipts|
      requires forall j :: 0 <= j < |ids| ==> Owner(w, ids[j], a) && w.candidates[ids[j]].stage == Verified(receipts[j])
      ensures forall i, j :: 0 <= i < j < |ids| && ids[i] != ids[j] ==> receipts[i].key != receipts[j].key
    {
      forall i, j | 0 <= i < j < |ids| && ids[i] != ids[j] ensures receipts[i].key != receipts[j].key {
        CommitNames(w, a, ids[i]);
        CommitNames(w, a, ids[j]);
      }
    }

    /** The transaction commits; its response may be lost. */
    method FinishCommit(ghost a: AttemptId, newArtifacts: map<Key, Receipt>, newRows: map<ReservationId, Row>, ghost acknowledged: bool)
      requires Valid() && Step(W(), Commit(a, acknowledged), Committed(W(), a, acknowledged, newArtifacts, newRows))
      modifies this
      ensures Valid() && candidates == old(candidates) && artifacts == newArtifacts
      ensures trace == old(trace) + [Commit(a, acknowledged)]
      ensures phases == old(phases)[a := if acknowledged then Done else Compensating]
    {
      ghost var w := W();
      artifacts, rows := newArtifacts, newRows;
      phases := phases[a := if acknowledged then Done else Compensating];
      TookAs(w, Commit(a, acknowledged), Committed(w, a, acknowledged, newArtifacts, newRows));
    }

    static ghost function Committed(w: World, a: AttemptId, acknowledged: bool,
                                    newArtifacts: map<Key, Receipt>, newRows: map<ReservationId, Row>): World
    {
      w.(artifacts := newArtifacts, rows := newRows, phases := w.phases[a := if acknowledged then Done else Compensating])
    }

    static lemma CommitShape(w: World, a: AttemptId, acknowledged: bool,
                             newArtifacts: map<Key, Receipt>, newRows: map<ReservationId, Row>)
      requires CommitReady(w, a)
      requires newArtifacts == CommitRows(w, a, true).artifacts && newRows == CommitRows(w, a, true).rows
      ensures Step(w, Commit(a, acknowledged), Committed(w, a, acknowledged, newArtifacts, newRows))
    {
    }

    // Cleanup

    /** `storage.delete` inside a transaction: final first, then pending, then the directory barrier. */
    method StorageDelete(key: Key) returns (outcome: CleanupOutcome)
      modifies this`final, this`pending
      ensures outcome.Possible() && outcome.committed && (working ==> outcome.deleted)
      ensures final == if outcome.finalGone then old(final) - {key} else old(final)
      ensures pending == if outcome.pendingGone then old(pending) - {key} else old(pending)
    {
      var fault: bool := *;
      if fault && !working { return CleanupOutcome(false, false, false, true); }
      final := final - {key};
      fault := *;
      if fault && !working { return CleanupOutcome(true, false, false, true); }
      pending := pending - {key};
      fault := *;
      return CleanupOutcome(true, true, !fault || working, true);
    }

    /** The end of a cleanup transaction around a delete: the row goes, is flagged, or (the
        transaction rolls back) stays as it was. */
    method SettleRow(id: ReservationId, outcome: CleanupOutcome) returns (settled: CleanupOutcome)
      requires id in rows && outcome.committed
      modifies this`rows
      ensures settled == outcome.(committed := settled.committed) && (working ==> settled.committed)
      ensures rows == if !settled.committed then old(rows) else if outcome.deleted then old(rows) - {id}
                      else old(rows)[id := old(rows)[id].(cleanupRequired := true)]
    {
      var committed: bool := *;
      settled := outcome.(committed := committed || working);
      if settled.committed {
        rows := if outcome.deleted then rows - {id} else rows[id := rows[id].(cleanupRequired := true)];
      }
    }

    /** A transaction that only drops or flags the row. */
    method SettleWithoutFiles(id: ReservationId, drop: bool) returns (settled: CleanupOutcome)
      requires id in rows
      modifies this`rows
      ensures settled == CleanupOutcome(false, false, false, settled.committed) && (working ==> settled.committed)
      ensures rows == if !settled.committed then old(rows) else if drop then old(rows) - {id}
                      else old(rows)[id := old(rows)[id].(cleanupRequired := true)]
    {
      var committed: bool := *;
      settled := CleanupOutcome(false, false, false, committed || working);
      if settled.committed {
        rows := if drop then rows - {id} else rows[id := rows[id].(cleanupRequired := true)];
      }
    }

    /** The body of one transaction of `_cleanup_unowned`. */
    method CleanupTransaction(ghost a: AttemptId, id: ReservationId, key: Key, ownsBytes: bool, uncertain: bool)
      returns (outcome: CleanupOutcome)
      requires id in candidates && candidates[id].key == key
      requires ownsBytes == candidates[id].stage.OwnsBytes() && uncertain == candidates[id].stage.Uncertain?
      modifies this`final, this`pending, this`rows
      ensures outcome.Possible() && W() == CompensateOne(old(W()), id, outcome)
      ensures working ==> CleanedUp(old(W()), W(), id)
      ensures id !in old(rows) ==> id !in rows
    {
      outcome := CleanupOutcome(false, false, false, false);
      if id !in rows {
      } else if rows[id].key != key {
        outcome := SettleWithoutFiles(id, false);
      } else if key in artifacts || rows[id].state == COLLISION {
        outcome := SettleWithoutFiles(id, true);
      } else if uncertain {
        outcome := SettleWithoutFiles(id, false);
      } else if rows[id].cleanupRequired {
      } else if !ownsBytes {
        outcome := SettleWithoutFiles(id, true);
      } else {
        outcome := StorageDelete(key);
        outcome := SettleRow(id, outcome);
      }
    }

    /** One iteration of `_cleanup_unowned`. */
    method CleanupCandidate(ghost a: AttemptId, id: ReservationId, key: Key, ownsBytes: bool, uncertain: bool)
      requires Valid() && a in phases && phases[a] == Compensating && Owner(W(), id, a)
      requires candidates[id].key == key && ownsBytes == candidates[id].stage.OwnsBytes()
      requires uncertain == candidates[id].stage.Uncertain?
      modifies this`final, this`pending, this`rows, this`trace
      ensures Valid() && old(trace) <= trace && Compensated(trace, id) && (working ==> GoneOrFlagged(W(), id))
    {
      ghost var w, before := W(), trace;
      var outcome := CleanupTransaction(a, id, key, ownsBytes, uncertain);
      Took(w, Compensate(id, outcome));
      assert trace[..|before|] == before && trace[..|before| + 1] == trace && trace[|before|] == Compensate(id, outcome);
      if working { CleanedUpIsGone(w, W(), id); }
    }

    /** The reservation has had its cleanup transaction, and it did its work if the environment did. */
    ghost predicate Compensated(steps: seq<Label>, id: ReservationId) {
      exists n, outcome :: 0 <= n < |steps| && steps[n] == Compensate(id, outcome) && CompensatedAt(steps, n, id)
    }

    ghost predicate CompensatedAt(steps: seq<Label>, n: nat, id: ReservationId)
      requires n < |steps|
    {
      working ==>
        id in Run(start, steps[..n]).candidates && CleanedUp(Run(start, steps[..n]), Run(start, steps[..n + 1]), id)
    }

    lemma StaysCompensated(steps: seq<Label>, later: seq<Label>, id: ReservationId)
      requires steps <= later && Compensated(steps, id)
      ensures Compensated(later, id)
    {
      var n, outcome :| 0 <= n < |steps| && steps[n] == Compensate(id, outcome) && CompensatedAt(steps, n, id);
      assert later[..n] == steps[..n] && later[..n + 1] == steps[..n + 1] && later[n] == steps[n];
      assert CompensatedAt(later, n, id);
    }

    // The cleaner

    /** One iteration of `cleanup_expired_reservations`: nothing if the row is gone or no longer expired,
        otherwise the cleaner's step with `outcome`, which also gives the result. */
    method CleanReservation(id: ReservationId, cutoff: Time) returns (result: CleanResult, ghost outcome: Option<CleanupOutcome>)
      requires Valid() && cutoff <= now
      modifies this`final, this`pending, this`rows, this`trace, this`cleaned
      ensures Valid()
      ensures outcome.Some? <==> id in old(rows) && old(rows)[id].expiresAt <= cutoff
      ensures outcome.None? ==> result == Skipped && W() == old(W()) && trace == old(trace) && cleaned == old(cleaned)
      ensures outcome.Some? ==>
                && outcome.value.Possible() && W() == CleanOne(old(W()), id, outcome.value)
                && result == ResultOf(old(W()), id, outcome.value)
                && trace == old(trace) + [Clean(id, cutoff, outcome.value)]
                && cleaned == old(cleaned) + [Clean(id, cutoff, outcome.value)]
                && (working ==> outcome.value.committed && (OwnsFile(old(W()), id) ==> outcome.value.deleted))
    {
      if id !in rows || rows[id].expiresAt > cutoff { return Skipped, None; }
      ghost var w := W();
      var made;
      result, made := CleanRow(id);
      outcome := Some(made);
      Took(w, Clean(id, cutoff, made));
      cleaned := cleaned + [Clean(id, cutoff, made)];
    }

    /** The body of one transaction of `cleanup_expired_reservations`. */
    method CleanRow(id: ReservationId) returns (result: CleanResult, outcome: CleanupOutcome)
      requires id in rows
      modifies this`final, this`pending, this`rows
      ensures outcome.Possible() && W() == CleanOne(old(W()), id, outcome) && result == ResultOf(old(W()), id, outcome)
      ensures working ==> outcome.committed && (OwnsFile(old(W()), id) ==> outcome.deleted)
    {
      var row := rows[id];
      if row.key in artifacts || row.state == COLLISION {
        outcome := SettleWithoutFiles(id, true);
        result := if outcome.committed then Removed else RolledBack;
      } else if row.state == RESERVED {
        outcome := SettleWithoutFiles(id, false);
        result := if outcome.committed then Retained else RolledBack;
      } else {
        outcome := StorageDelete(row.key);
        outcome := SettleRow(id, outcome);
        result := if !outcome.committed then RolledBack else if outcome.deleted then Removed else Retained;
      }
    }

    // create_complete_revision

    /** Attempt `a` gained the candidate `r` and nothing else of its memory changed. */
    ghost predicate OnlyAdded(w: World, w': World, a: AttemptId, r: ReservationId) {
      && !Owner(w, r, a) && Owner(w', r, a)
      && (forall q :: Owner(w', q, a) ==> Owner(w, q, a) || q == r)
      && (forall q :: Owner(w, q, a) ==> Owner(w', q, a) && w'.candidates[q] == w.candidates[q])
    }

    /** The reservation was the last step; its row was free then, and its key named no artifact when that was
        asked after the steps `seen`. */
    ghost predicate ReservedAsFree(before: seq<Label>, seen: seq<Label>, id: ReservationId, a: AttemptId, key: Key)
      reads this
    {
      && trace != [] && trace[|trace| - 1] == Reserve(a, id, key) && before <= seen <= trace[..|trace| - 1]
      && key !in Run(start, seen).artifacts && !KeyReserved(Run(start, trace[..|trace| - 1]), key)
    }

    /** One try of `_reserve_storage_key` with a generated key; one that already names an artifact is skipped.
        After the steps `seen` the key was refused or found free of artifacts. */
    method TryReserve(ghost a: AttemptId, key: Key) returns (inserted: InsertResult, ghost seen: seq<Label>)
      requires Valid() && IsRunning(W(), a) && Idle(a)
      modifies this
      ensures Valid() && Idle(a) && old(trace) <= seen <= trace
      ensures inserted.Inserted? ==>
                && IsRunning(W(), a) && OnlyAdded(old(W()), W(), a, inserted.id)
                && candidates[inserted.id].stage.Reserved? && candidates[inserted.id].key == key
                && ReservedAsFree(old(trace), seen, inserted.id, a, key)
      ensures !inserted.Inserted? ==> SameOwned(old(W()), W(), a) && a in phases && phases[a] != Done
      ensures inserted.Duplicate? ==> IsRunning(W(), a) && Taken(Run(start, seen), key)
      ensures working ==> !inserted.InsertFailed?
    {
      seen := trace;
      if key in artifacts { return Duplicate, seen; }
      ghost var w := W();
      Interfere(a);
      ghost var steps, middle := trace, W();
      inserted := InsertReservation(a, key);
      if inserted.Duplicate? { seen := trace; }
      if inserted.Inserted? {
        assert trace[..|trace| - 1] == steps;
        AddsOnly(w, middle, W(), a, inserted.id);
      }
    }

    /** Since `v`, the attempt has gained the item as a reservation that was free when inserted. */
    ghost predicate NewlyReserved(v: World, first: seq<Label>, seen: seq<Label>, item: CleanupItem, a: AttemptId)
      reads this
    {
      && IsRunning(W(), a) && OnlyAdded(v, W(), a, item.id)
      && candidates[item.id].stage.Reserved? && candidates[item.id].key == item.key
      && ReservedAsFree(first, seen, item.id, a, item.key)
    }

    /** One more try, and what it adds to the refusals. */
    method TryNext(ghost a: AttemptId, ghost supply: nat -> Key, key: Key, ghost first: seq<Label>, ghost from: nat,
                   ghost refused: seq<seq<Label>>, ghost v: World)
      returns (inserted: InsertResult, ghost refused': seq<seq<Label>>, ghost seen: seq<Label>)
      requires Searching(v, first, a, supply, from, refused) && key == KeyAt(supply, from + |refused|)
      modifies this
      ensures Valid() && Idle(a) && first <= trace && RefusedInRow(start, first, trace, supply, from, refused')
      ensures inserted.Inserted? ==>
                NewlyReserved(v, first, seen, CleanupItem(inserted.id, key, false, false), a)
      ensures !inserted.Inserted? ==> SameOwned(v, W(), a) && a in phases && phases[a] != Done
      ensures inserted.Duplicate? ==> Searching(v, first, a, supply, from, refused') && |refused'| == |refused| + 1
      ensures !inserted.Duplicate? ==> refused' == refused && key == KeyAt(supply, from + |refused'|)
      ensures working ==> !inserted.InsertFailed?
    {
      ghost var before := trace;
      inserted, seen := TryReserve(a, key);
      RefusedGrows(start, first, before, trace, supply, from, refused, seen);
      refused' := if inserted.Duplicate? then refused + [seen] else refused;
    }

    /** Since `v` the attempt has only been refused keys. */
    ghost predicate Searching(v: World, first: seq<Label>, a: AttemptId, supply: nat -> Key, from: nat, refused: seq<seq<Label>>)
      reads this
    {
      && Valid() && IsRunning(W(), a) && Idle(a) && SameOwned(v, W(), a)
      && first <= trace && RefusedInRow(start, first, trace, supply, from, refused)
    }

    lemma AddsOnly(w: World, middle: World, w': World, a: AttemptId, id: ReservationId)
      requires SameOwned(w, middle, a)
      requires id !in middle.candidates && id in w'.candidates && w'.candidates == middle.candidates[id := w'.candidates[id]]
      requires w'.candidates[id].attempt == a
      ensures OnlyAdded(w, w', a, id)
    {
    }

    /** `_reserve_storage_key`: at most eight keys of the generator's supply, from the one numbered `from` on;
        `None` when it raised.  `refused` says after which steps each of the first keys was refused, and `seen`
        when the reserved key was found free of artifacts.  In a working environment it raises only after eight
        refused keys. */
    method ReserveStorageKey(ghost a: AttemptId, supply: nat -> Key, from: nat)
      returns (reserved: Option<CleanupItem>, drawn: nat, ghost refused: seq<seq<Label>>, ghost seen: seq<Label>)
      requires Valid() && IsRunning(W(), a) && Idle(a)
      modifies this
      ensures Valid() && Idle(a) && old(trace) <= trace
      ensures |refused| <= KEY_ATTEMPTS && (reserved.Some? ==> |refused| < KEY_ATTEMPTS)
      ensures RefusedInRow(start, old(trace), trace, supply, from, refused)
      ensures reserved.Some? ==> reserved.value.key == KeyAt(supply, from + |refused|) && drawn == from + |refused| + 1
      ensures working && reserved.None? ==> |refused| == KEY_ATTEMPTS
      ensures reserved.None? ==> SameOwned(old(W()), W(), a) && a in phases && phases[a] != Done
      ensures reserved.Some? ==> NewlyReserved(old(W()), old(trace), seen, reserved.value, a)
    {
      refused, seen, drawn := [], trace, from;
      for i := 0 to KEY_ATTEMPTS
        invariant |refused| == i && Searching(old(W()), old(trace), a, supply, from, refused)
      {
        var key, inserted := KeyAt(supply, from + i), InsertFailed;
        drawn := from + i + 1;
        inserted, refused, seen := TryNext(a, supply, key, old(trace), from, refused, old(W()));
        if !inserted.Duplicate? {
          reserved := if inserted.Inserted? then Some(CleanupItem(inserted.id, key, false, false)) else None;
          return;
        }
      }
      reserved := None;
    }

    ghost predicate SameOwned(w: World, w': World, a: AttemptId) {
      && (forall r :: Owner(w, r, a) <==> Owner(w', r, a))
      && (forall r :: Owner(w, r, a) ==> w'.candidates[r] == w.candidates[r])
    }

    /** The handlers around `write`: record what is known, then return or raise. */
    method RecordOutcome(ghost a: AttemptId, id: ReservationId, result: WriteResult) returns (stored: bool)
      requires Valid() && IsRunning(W(), a) && Owner(W(), id, a)
      requires StagedAs(candidates[id], candidates[id], result)
      modifies this
      ensures Valid() && phases == old(phases) && OnlyMoved(old(W()), W(), a, id)
      ensures stored ==> result.WriteOk? && candidates == old(candidates)[id := old(candidates)[id].(stage := Verified(result.receipt))]
      ensures !stored ==> candidates == old(candidates)
      ensures old(trace) <= trace && (working && result.WriteOk? && Intact(old(W()), id) ==> stored)
    {
      stored := false;
      match result {
        case WriteOk(receipt) => stored := MarkReservationVerified(a, id, receipt);
        case CommittedError(receipt) =>
          var ignored := MarkReservationVerified(a, id, receipt);
        case CollisionError => MarkReservationCollision(a, id);
        case CleanupError => MarkReservationCleanupRequired(a, id);
        case OtherError =>
      }
    }

    /** Write the bytes of one payload under its reserved key and record the outcome. */
    method WriteReserved(ghost a: AttemptId, item: CleanupItem, payload: Payload)
      returns (stored: bool, written: CleanupItem, receipt: Receipt)
      requires Valid() && IsRunning(W(), a) && Owner(W(), item.id, a)
      requires candidates[item.id].key == item.key && candidates[item.id].stage.Reserved?
      modifies this
      ensures Valid() && IsRunning(W(), a) && OnlyMoved(old(W()), W(), a, item.id)
      ensures written.id == item.id && written.key == item.key && Recalled(a, written)
      ensures !candidates[item.id].stage.MidWrite()
      ensures stored ==> candidates[item.id].stage == Verified(receipt) && Describes(receipt, item.key, payload)
      ensures old(trace) <= trace && (working && ClaimsTrue(payload) && !stored ==> LostOne(W(), a))
    {
      var result := WriteAmongOthers(a, item.id, item.key, payload);
      assert StagedAs(candidates[item.id], candidates[item.id], result);
      ghost var before := trace;
      stored, written, receipt := RecordWritten(a, item, result);
      LostStays(start, before, trace, a);
    }

    /** What the attempt remembers of a finished write. */
    method RecordWritten(ghost a: AttemptId, item: CleanupItem, result: WriteResult)
      returns (stored: bool, written: CleanupItem, receipt: Receipt)
      requires Valid() && IsRunning(W(), a) && Owner(W(), item.id, a) && candidates[item.id].key == item.key
      requires StagedAs(candidates[item.id], candidates[item.id], result)
      modifies this
      ensures Valid() && phases == old(phases) && OnlyMoved(old(W()), W(), a, item.id)
      ensures written.id == item.id && written.key == item.key && Recalled(a, written)
      ensures !candidates[item.id].stage.MidWrite()
      ensures stored ==> result == WriteOk(receipt) && candidates[item.id].stage == Verified(receipt)
      ensures old(trace) <= trace && (working && result.WriteOk? && !stored ==> LostOne(W(), a))
    {
      stored := RecordOutcome(a, item.id, result);
      if working && result.WriteOk? && !stored { BrokenIsLost(start, old(trace), trace, a, item.id); }
      written := CleanupItem(item.id, item.key, result.WriteOk? || result.CommittedError?, result.CleanupError?);
      receipt := if stored then result.receipt else Receipt(0, 0, 0);
    }

    /** One payload: reserve a key, write the bytes, record the receipt. */
    method StorePayload(ghost a: AttemptId, payload: Payload, supply: nat -> Key, from: nat)
      returns (stored: bool, added: Option<CleanupItem>, receipt: Receipt, drawn: nat)
      requires Valid() && IsRunning(W(), a) && Idle(a)
      modifies this
      ensures Valid() && Idle(a) && a in phases && phases[a] != Done
      ensures added.None? ==> !stored && SameOwned(old(W()), W(), a)
      ensures added.Some? ==> IsRunning(W(), a) && OnlyAdded(old(W()), W(), a, added.value.id) && Recalled(a, added.value)
      ensures stored ==> added.Some? && candidates[added.value.id].stage == Verified(receipt)
                         && Describes(receipt, added.value.key, payload)
      ensures old(trace) <= trace && (working && ClaimsTrue(payload) && !stored ==> Reasoned(old(trace), trace, a, supply))
    {
      receipt, stored := Receipt(0, 0, 0), false;
      ghost var refused, seen;
      added, drawn, refused, seen := ReserveStorageKey(a, supply, from);
      if added.Some? {
        ghost var w := W();
        var written;
        stored, written, receipt := WriteReserved(a, added.value, payload);
        added := Some(written);
        LostIsReason(start, old(trace), trace, a, supply, KEY_ATTEMPTS);
      }
    }

    /** Why an attempt failed in a working environment. */
    ghost predicate Reasoned(first: seq<Label>, last: seq<Label>, a: AttemptId, supply: nat -> Key) {
      Reason(start, first, last, a, supply, KEY_ATTEMPTS)
    }

    /** The list kept for compensation agrees with what the write did. */
    ghost predicate Recalled(a: AttemptId, item: CleanupItem)
      reads this
    {
      && Owner(W(), item.id, a) && candidates[item.id].key == item.key
      && item.ownsBytes == candidates[item.id].stage.OwnsBytes()
      && item.uncertain == candidates[item.id].stage.Uncertain?
    }

    /** The attempt's list names all of its reservations, each as its write left it. */
    ghost predicate Remembers(a: AttemptId, items: seq<CleanupItem>)
      reads this
    {
      && (forall j :: 0 <= j < |items| ==> Recalled(a, items[j]))
      && (forall r :: Owner(W(), r, a) ==> exists j :: 0 <= j < |items| && items[j].id == r)
    }

    static predicate DistinctItems(items: seq<CleanupItem>) {
      forall i, j :: 0 <= i < j < |items| ==> items[i].id != items[j].id
    }

    /** Every payload so far is stored and recorded. */
    ghost predicate StoredAll(a: AttemptId, items: seq<CleanupItem>, receipts: seq<Receipt>, payloads: seq<Payload>)
      reads this
    {
      StoredAllIn(W(), a, items, receipts, payloads)
    }

    ghost predicate StoredAllIn(w: World, a: AttemptId, items: seq<CleanupItem>, receipts: seq<Receipt>, payloads: seq<Payload>) {
      && |items| == |receipts| <= |payloads| && DistinctItems(items)
      && forall j :: 0 <= j < |items| ==>
           && Owner(w, items[j].id, a) && w.candidates[items[j].id].stage == Verified(receipts[j])
           && Describes(receipts[j], items[j].key, payloads[j])
    }

    lemma StoredMore(w: World, w': World, a: AttemptId, items: seq<CleanupItem>, receipts: seq<Receipt>, payloads: seq<Payload>,
                     item: CleanupItem, receipt: Receipt)
      requires StoredAllIn(w, a, items, receipts, payloads) && |items| < |payloads| && DistinctItems(items + [item])
      requires OnlyAdded(w, w', a, item.id) && w'.candidates[item.id].stage == Verified(receipt)
      requires Describes(receipt, item.key, payloads[|items|])
      ensures StoredAllIn(w', a, items + [item], receipts + [receipt], payloads)
    {
    }

    lemma ExtendMemory(w: World, a: AttemptId, items: seq<CleanupItem>, item: CleanupItem)
      requires forall j :: 0 <= j < |items| ==> RecalledIn(w, a, items[j])
      requires forall r :: Owner(w, r, a) ==> exists j :: 0 <= j < |items| && items[j].id == r
      requires OnlyAdded(w, W(), a, item.id) && Recalled(a, item)
      ensures Remembers(a, items + [item])
      ensures DistinctItems(items) ==> DistinctItems(items + [item])
    {
      var more := items + [item];
      forall r | Owner(W(), r, a) ensures exists j :: 0 <= j < |more| && more[j].id == r {
        if r == item.id {
          assert more[|items|].id == r;
        } else {
          var j :| 0 <= j < |items| && items[j].id == r;
          assert more[j].id == r;
        }
      }
      forall j | 0 <= j < |more| ensures Recalled(a, more[j]) {
        if j < |items| { assert RecalledIn(w, a, items[j]); }
      }
    }

    ghost predicate RecalledIn(w: World, a: AttemptId, item: CleanupItem) {
      && Owner(w, item.id, a) && w.candidates[item.id].key == item.key
      && item.ownsBytes == w.candidates[item.id].stage.OwnsBytes()
      && item.uncertain == w.candidates[item.id].stage.Uncertain?
    }

    /** One turn of the loop over the payloads. */
    method StoreNext(ghost a: AttemptId, payloads: seq<Payload>, items: seq<CleanupItem>, receipts: seq<Receipt>,
                     supply: nat -> Key, from: nat)
      returns (stored: bool, more: seq<CleanupItem>, receipt: Receipt, drawn: nat)
      requires Valid() && IsRunning(W(), a) && Idle(a) && Remembers(a, items)
      requires |items| < |payloads| && StoredAll(a, items, receipts, payloads)
      modifies this
      ensures Valid() && Idle(a) && a in phases && phases[a] != Done && Remembers(a, more)
      ensures stored ==> IsRunning(W(), a) && |more| == |items| + 1 && StoredAll(a, more, receipts + [receipt], payloads)
      ensures old(trace) <= trace
      ensures working && ClaimsTrue(payloads[|items|]) && !stored ==> Reasoned(old(trace), trace, a, supply)
    {
      ghost var w := W();
      assert forall j :: 0 <= j < |items| ==> RecalledIn(w, a, items[j]);
      var added;
      stored, added, receipt, drawn := StorePayload(a, payloads[|items|], supply, from);
      more := items;
      if added.Some? {
        ExtendMemory(w, a, items, added.value);
        if stored { StoredMore(w, W(), a, items, receipts, payloads, added.value, receipt); }
        more := items + [added.value];
      }
    }

    ghost predicate AllTrue(payloads: seq<Payload>) {
      forall j :: 0 <= j < |payloads| ==> ClaimsTrue(payloads[j])
    }

    /** The loop over the payloads; `ok` is false after the first exception.  In a working environment, with true
        claims, there is a reason for it. */
    method StorePayloads(ghost a: AttemptId, payloads: seq<Payload>, supply: nat -> Key)
      returns (ok: bool, items: seq<CleanupItem>, receipts: seq<Receipt>)
      requires Valid() && IsRunning(W(), a) && forall r :: !Owner(W(), r, a)
      modifies this
      ensures Valid() && Idle(a) && a in phases && phases[a] != Done && Remembers(a, items)
      ensures ok ==> IsRunning(W(), a) && |items| == |payloads| && StoredAll(a, items, receipts, payloads)
      ensures old(trace) <= trace && (working && AllTrue(payloads) && !ok ==> Reasoned(old(trace), trace, a, supply))
    {
      items, receipts, ok := [], [], true;
      var drawn := 0;
      for i := 0 to |payloads|
        invariant Valid() && Idle(a) && IsRunning(W(), a) && Remembers(a, items) && old(trace) <= trace
        invariant |items| == i && StoredAll(a, items, receipts, payloads)
      {
        var receipt;
        ghost var before := trace;
        ok, items, receipt, drawn := StoreNext(a, payloads, items, receipts, supply, drawn);
        if !ok {
          ReasonStays(start, old(trace), before, trace, trace, a, supply, KEY_ATTEMPTS);
          return;
        }
        receipts := receipts + [receipt];
      }
    }

    /** `_cleanup_unowned`: every reservation of the attempt gets one cleanup transaction. */
    method CleanupUnowned(ghost a: AttemptId, items: seq<CleanupItem>)
      requires Valid() && a in phases && phases[a] == Compensating && Remembers(a, items)
      modifies this
      ensures Valid() && a in phases && phases[a] == Compensating && Remembers(a, items) && old(trace) <= trace
      ensures forall j :: 0 <= j < |items| ==> Compensated(trace, items[j].id)
      ensures working ==> forall j :: 0 <= j < |items| ==> GoneOrFlagged(W(), items[j].id)
    {
      for i := 0 to |items|
        invariant Valid() && a in phases && phases[a] == Compensating && Remembers(a, items) && old(trace) <= trace
        invariant forall j :: 0 <= j < i ==> Finished(trace, items[j].id)
      {
        CleanupNext(a, items, i);
      }
    }

    /** One turn of `_cleanup_unowned`, after whatever other processes did meanwhile. */
    method CleanupNext(ghost a: AttemptId, items: seq<CleanupItem>, i: nat)
      requires Valid() && a in phases && phases[a] == Compensating && Remembers(a, items) && i < |items|
      requires forall j :: 0 <= j < i ==> Finished(trace, items[j].id)
      modifies this
      ensures Valid() && a in phases && phases[a] == Compensating && Remembers(a, items) && old(trace) <= trace
      ensures forall j :: 0 <= j <= i ==> Finished(trace, items[j].id)
    {
      ghost var w, steps := W(), trace;
      CleanupAmongOthers(a, items[i]);
      KeepMemory(w, a, items);
      StayFinished(steps, trace, items, i);
    }

    method CleanupAmongOthers(ghost a: AttemptId, item: CleanupItem)
      requires Valid() && a in phases && phases[a] == Compensating && Recalled(a, item)
      modifies this
      ensures Valid() && a in phases && phases[a] == Compensating && SameOwned(old(W()), W(), a)
      ensures old(trace) <= trace && Finished(trace, item.id)
    {
      Interfere(a);
      CleanupCandidate(a, item.id, item.key, item.ownsBytes, item.uncertain);
    }

    ghost predicate Finished(steps: seq<Label>, id: ReservationId) {
      Compensated(steps, id) && (working ==> GoneOrFlagged(Run(start, steps), id))
    }

    lemma StayFinished(steps: seq<Label>, later: seq<Label>, items: seq<CleanupItem>, i: nat)
      requires steps <= later && i <= |items| && forall j :: 0 <= j < i ==> Finished(steps, items[j].id)
      ensures forall j :: 0 <= j < i ==> Finished(later, items[j].id)
    {
      forall j | 0 <= j < i ensures Finished(later, items[j].id) {
        StaysCompensated(steps, later, items[j].id);
        GoneStays(start, steps, later, items[j].id);
      }
    }

    ghost predicate RemembersIn(w: World, a: AttemptId, items: seq<CleanupItem>) {
      && (forall j :: 0 <= j < |items| ==> RecalledIn(w, a, items[j]))
      && (forall r :: Owner(w, r, a) ==> exists j :: 0 <= j < |items| && items[j].id == r)
    }

    lemma KeepMemory(w: World, a: AttemptId, items: seq<CleanupItem>)
      requires RemembersIn(w, a, items) && SameOwned(w, W(), a)
      ensures Remembers(a, items)
    {
      forall j | 0 <= j < |items| ensures Recalled(a, items[j]) {
        assert RecalledIn(w, a, items[j]);
      }
    }

    /** `create_complete_revision`.  When it returns, each payload has an artifact of its own key,
        with the size and digest of the whole stream; and if every commit so far was timely, the file holds such
        bytes.  When it raises, every reservation it made has had its cleanup transaction.  In a working
        environment it raises only if a claim was false, the dashboard refused, one of its reservations had
        expired before it committed or had a name that was not free, or eight keys in a row were taken. */
    method CreateCompleteRevision(ghost a: AttemptId, payloads: seq<Payload>, supply: nat -> Key, accepted: bool)
      returns (created: bool, keys: seq<Key>, ghost items: seq<CleanupItem>)
      requires Valid() && a !in phases
      modifies this
      ensures Valid() && a in phases && Remembers(a, items) && old(trace) <= trace
      ensures created ==> accepted && Delivered(keys, payloads)
      ensures !created ==>
                && phases[a] == Compensating
                && forall j :: 0 <= j < |items| ==> Compensated(trace, items[j].id)
      ensures working && !created ==> NothingLeft(W(), a)
      ensures working && accepted && AllTrue(payloads) && !created ==> Reasoned(old(trace), trace, a, supply)
    {
      Start(a);
      ghost var begun := trace;
      var list;
      created, keys, list := StoreAndCommit(a, payloads, supply, accepted);
      items := list;
      ghost var stopped := trace;
      if !created { Abandon(a, list); }
      ReasonStays(start, old(trace), begun, stopped, trace, a, supply, KEY_ATTEMPTS);
    }

    /** The guarded part of `create_complete_revision`. */
    method StoreAndCommit(ghost a: AttemptId, payloads: seq<Payload>, supply: nat -> Key, accepted: bool)
      returns (created: bool, keys: seq<Key>, items: seq<CleanupItem>)
      requires Valid() && IsRunning(W(), a) && forall r :: !Owner(W(), r, a)
      modifies this
      ensures Valid() && Idle(a) && a in phases && Remembers(a, items) && old(trace) <= trace
      ensures created ==> accepted && Delivered(keys, payloads)
      ensures !created ==> phases[a] != Done
      ensures working && accepted && AllTrue(payloads) && !created ==> Reasoned(old(trace), trace, a, supply)
    {
      created, keys := false, [];
      var ok, list, receipts := StorePayloads(a, payloads, supply);
      items := list;
      ghost var before := trace;
      if ok {
        created, keys := CommitStored(a, payloads, list, receipts, supply, accepted);
        ReasonStays(start, old(trace), before, trace, trace, a, supply, KEY_ATTEMPTS);
      }
    }

    /** Its exception handler. */
    method Abandon(ghost a: AttemptId, items: seq<CleanupItem>)
      requires Valid() && Idle(a) && a in phases && phases[a] != Done && Remembers(a, items)
      modifies this
      ensures Valid() && a in phases && phases[a] == Compensating && Remembers(a, items) && old(trace) <= trace
      ensures forall j :: 0 <= j < |items| ==> Compensated(trace, items[j].id)
      ensures working ==> NothingLeft(W(), a)
    {
      ghost var w := W();
      Raise(a);
      KeepMemory(w, a, items);
      CleanupUnowned(a, items);
      if working { AllGone(start, trace, a); }
    }

    /** Each payload has an artifact of its own key that describes its whole stream, and bytes to match. */
    ghost predicate Delivered(keys: seq<Key>, payloads: seq<Payload>)
      reads this
    {
      && |keys| == |payloads|
      && (forall i, j :: 0 <= i < j < |keys| ==> keys[i] != keys[j])
      && (forall j :: 0 <= j < |keys| ==>
            && keys[j] in artifacts && Describes(artifacts[keys[j]], keys[j], payloads[j])
            && (AllTimely(start, trace) ==> keys[j] in final && Matches(W(), final[keys[j]], artifacts[keys[j]])))
    }

    lemma Deliver(payloads: seq<Payload>, items: seq<CleanupItem>, receipts: seq<Receipt>, keys: seq<Key>)
      requires Valid() && |items| == |receipts| == |payloads| == |keys| && DistinctItems(items)
      requires forall j :: 0 <= j < |items| ==> keys[j] == items[j].key && Describes(receipts[j], keys[j], payloads[j])
      requires forall j :: 0 <= j < |items| ==> receipts[j].key in artifacts && artifacts[receipts[j].key] == receipts[j]
      requires forall i, j :: 0 <= i < j < |items| && items[i].id != items[j].id ==> receipts[i].key != receipts[j].key
      ensures Delivered(keys, payloads)
    {
      TimelyFiles();
    }

    ghost method Start(a: AttemptId)
      requires Valid() && a !in phases
      modifies this`phases, this`trace
      ensures Valid() && IsRunning(W(), a) && old(trace) <= trace && forall r :: !Owner(W(), r, a)
    {
      var w := W();
      forall r ensures !Owner(w, r, a) {
        assert r in w.candidates ==> CandidateOk(w, r);
      }
      phases := phases[a := Running];
      Took(w, Begin(a));
    }

    /** The commit at the end of `create_complete_revision`. */
    method CommitStored(ghost a: AttemptId, payloads: seq<Payload>, items: seq<CleanupItem>, receipts: seq<Receipt>,
                        ghost supply: nat -> Key, accepted: bool)
      returns (created: bool, keys: seq<Key>)
      requires Valid() && IsRunning(W(), a) && Idle(a) && Remembers(a, items)
      requires |items| == |payloads| && StoredAll(a, items, receipts, payloads)
      modifies this
      ensures Valid() && Idle(a) && a in phases && Remembers(a, items) && old(trace) <= trace
      ensures !created ==> phases[a] != Done
      ensures created ==> accepted && Delivered(keys, payloads)
      ensures working && accepted && !created ==> Reasoned(old(trace), trace, a, supply)
    {
      ghost var w := W();
      var ids := seq(|items|, j requires 0 <= j < |items| => items[j].id);
      keys := seq(|items|, j requires 0 <= j < |items| => items[j].key);
      Interfere(a);
      StillPrepared(w, a, items, receipts, ids);
      KeepMemory(w, a, items);
      assert forall r :: Owner(W(), r, a) ==> Owner(w, r, a);
      ghost var before := trace;
      created := CommitRemembered(a, ids, receipts, items, supply, accepted);
      ReasonStays(start, old(trace), before, trace, trace, a, supply, KEY_ATTEMPTS);
      if created { Deliver(payloads, items, receipts, keys); }
    }

    method CommitRemembered(ghost a: AttemptId, ids: seq<ReservationId>, receipts: seq<Receipt>, ghost items: seq<CleanupItem>,
                            ghost supply: nat -> Key, accepted: bool)
      returns (created: bool)
      requires Valid() && IsRunning(W(), a) && Idle(a) && Remembers(a, items) && Prepared(a, ids, receipts)
      modifies this
      ensures Valid() && Idle(a) && a in phases && Remembers(a, items) && old(trace) <= trace
      ensures !created ==> phases[a] != Done
      ensures created ==> accepted
      ensures working && accepted && !created ==> Reasoned(old(trace), trace, a, supply)
      ensures created ==>
                && (forall j :: 0 <= j < |ids| ==> receipts[j].key in artifacts && artifacts[receipts[j].key] == receipts[j])
                && (forall i, j :: 0 <= i < j < |ids| && ids[i] != ids[j] ==> receipts[i].key != receipts[j].key)
    {
      ghost var w, before := W(), trace;
      created := CommitRevisionMetadata(a, ids, receipts, accepted);
      KeepMemory(w, a, items);
      if working && accepted && !created { NotReady(before, a, supply); }
    }

    /** An attempt with all its payloads verified that is not ready to commit has lost a reservation. */
    lemma NotReady(before: seq<Label>, a: AttemptId, supply: nat -> Key)
      requires Init(start) && before <= trace && IsRunning(Run(start, before), a) && !CommitReady(Run(start, before), a)
      requires forall r :: Owner(Run(start, before), r, a) ==> Run(start, before).candidates[r].stage.Verified?
      ensures Reasoned(before, trace, a, supply)
    {
      var w := Run(start, before);
      var r :| Owner(w, r, a) && !Committable(w, r);
      BrokenIsLost(start, before, before, a, r);
      LostIsReason(start, before, before, a, supply, KEY_ATTEMPTS);
      ReasonStays(start, before, before, before, trace, a, supply, KEY_ATTEMPTS);
    }

    lemma StillPrepared(w: World, a: AttemptId, items: seq<CleanupItem>, receipts: seq<Receipt>, ids: seq<ReservationId>)
      requires RemembersIn(w, a, items) && SameOwned(w, W(), a) && |ids| == |items| == |receipts|
      requires forall j :: 0 <= j < |items| ==>
                 ids[j] == items[j].id && Owner(w, ids[j], a) && w.candidates[ids[j]].stage == Verified(receipts[j])
      ensures Prepared(a, ids, receipts)
    {
      forall r | Owner(W(), r, a) ensures r in ids {
        assert Owner(w, r, a);
        var j :| 0 <= j < |items| && items[j].id == r;
        assert ids[j] == r;
      }
    }

    lemma TimelyFiles()
      requires Valid()
      ensures AllTimely(start, trace) ==> ArtifactsIntact(W())
    {
      if AllTimely(start, trace) {
        InitInv(start);
        RunKeepsInv(start, trace);
      }
    }

    // cleanup_expired_reservations

    method Earliest(todo: set<ReservationId>) returns (first: ReservationId)
      requires todo != {} && forall r :: r in todo ==> r in rows
      ensures first in todo && forall r :: r in todo ==> Earlier(rows, first, r)
    {
      first :| first in todo;
      var rest := todo - {first};
      while rest != {}
        invariant first in todo && rest <= todo
        invariant forall r :: r in todo && r !in rest ==> Earlier(rows, first, r)
        decreases rest
      {
        var r :| r in rest;
        if Earlier(rows, r, first) { first := r; }
        rest := rest - {r};
      }
    }

    /** The bounded candidate query: the expired rows that are not both RESERVED and flagged, in order of expiry
        and id; one that is left out comes after `limit` others. */
    method SelectExpired(cutoff: Time, limit: nat) returns (ids: seq<ReservationId>)
      ensures IsSelection(rows, cutoff, limit, ids)
      ensures forall i :: 0 <= i < |ids| ==>
                ids[i] in rows && rows[ids[i]].expiresAt <= cutoff && !(rows[ids[i]].state == RESERVED && rows[ids[i]].cleanupRequired)
      ensures forall r :: r in rows && rows[r].expiresAt <= cutoff && r !in ids ==>
                || (rows[r].state == RESERVED && rows[r].cleanupRequired)
                || (|ids| == limit && forall i :: 0 <= i < |ids| ==> rows[ids[i]].expiresAt <= rows[r].expiresAt)
    {
      ids := [];
      var todo := Actionable(rows, cutoff);
      while |ids| < limit && todo != {}
        invariant |ids| <= limit && |ids| + |todo| == |Actionable(rows, cutoff)|
        invariant forall i :: 0 <= i < |ids| ==> ids[i] in Actionable(rows, cutoff) && ids[i] !in todo
        invariant todo <= Actionable(rows, cutoff)
        invariant forall r :: r in Actionable(rows, cutoff) ==> r in todo || r in ids
        invariant forall i, j :: 0 <= i < j < |ids| ==> ids[i] != ids[j] && Earlier(rows, ids[i], ids[j])
        invariant forall i, r :: 0 <= i < |ids| && r in todo ==> Earlier(rows, ids[i], r)
        decreases todo
      {
        var r := Earliest(todo);
        ids := ids + [r];
        todo := todo - {r};
      }
      SelectionMeans(rows, cutoff, limit, ids);
    }

    /** `cleanup_expired_reservations`; `raised` when the limit is not positive or a transaction failed.  Each
        turn is one step of this cleaner if its row was there when locked, and none otherwise; the counts are
        the turns that removed and that retained their rows.  If the deletes worked and nothing became
        actionable meanwhile, none of the selected rows is actionable any more, nor is any row that was not
        before; if nobody else touched an actionable row, every other row that was actionable still is. */
    method CleanupExpiredReservations(cutoff: Time, limit: int)
      returns (removed: nat, retained: nat, raised: bool, ghost ids: seq<ReservationId>, ghost turns: seq<Turn>)
      requires Valid() && cutoff <= now
      modifies this
      ensures Valid() && cutoff <= now
      ensures limit < 1 ==> raised && W() == old(W())
      ensures IsSelection(old(rows), cutoff, if limit < 1 then 0 else limit, ids)
      ensures Consecutive(start, old(trace), turns, ids, cutoff, trace) && cleaned == old(cleaned) + OwnSteps(turns, ids, cutoff)
      ensures limit >= 1 ==> (raised <==> Raises(start, turns, ids))
      ensures !raised ==> |turns| == |ids|
      ensures removed == Count(start, turns, ids, Removed) && retained == Count(start, turns, ids, Retained)
      ensures !raised ==> removed + retained + |Missing(start, turns, ids, cutoff)| == |ids|
      ensures !raised && WentWell(start, turns, ids, cutoff) ==>
                && Actionable(rows, cutoff) <= Actionable(old(rows), cutoff) - IdSet(ids)
                && |Actionable(rows, cutoff)| <= Minus(|Actionable(old(rows), cutoff)|, limit)
      ensures !raised && WentUntouched(start, turns, ids, cutoff) ==>
                && Actionable(rows, cutoff) == Actionable(old(rows), cutoff) - IdSet(ids)
                && Missing(start, turns, ids, cutoff) == {}
      ensures working ==> DeletesWorked(start, turns, ids) && (limit >= 1 ==> !raised)
      ensures working && |Expired(old(rows), cutoff)| <= limit && limit >= 1 && CalmBetween(start, old(trace), trace, cutoff) ==>
                OnlyQuarantined(rows, cutoff) && NoOrphans(old(rows), W(), cutoff)
    {
      ids, turns := [], [];
      if limit < 1 { return 0, 0, true, [], []; }
      ghost var table := rows;
      var selected := SelectExpired(cutoff, limit);
      ids := selected;
      ghost var own;
      removed, retained, raised, turns, own := TakeTurns(cutoff, selected);
      if !raised { ProgressEnds(start, table, limit, turns, ids, cutoff, Actionable(rows, cutoff), removed + retained); }
      if working && |Expired(table, cutoff)| <= limit && CalmBetween(start, old(trace), trace, cutoff) {
        AllSelected(start, old(trace), turns, ids, cutoff, trace, limit);
      }
    }

    /** The cleaner's loop over the rows it selected. */
    method TakeTurns(cutoff: Time, selected: seq<ReservationId>)
      returns (removed: nat, retained: nat, raised: bool, ghost turns: seq<Turn>, ghost own: seq<Label>)
      requires Valid() && cutoff <= now && forall i, j :: 0 <= i < j < |selected| ==> selected[i] != selected[j]
      requires forall i :: 0 <= i < |selected| ==> selected[i] in Actionable(rows, cutoff)
      modifies this
      ensures Valid() && cutoff <= now && cleaned == old(cleaned) + own
      ensures Consecutive(start, old(trace), turns, selected, cutoff, trace)
      ensures Tallied(start, turns, selected, cutoff, own, removed, retained)
      ensures raised <==> Raises(start, turns, selected)
      ensures !raised ==>
                && |turns| == |selected|
                && SoFar(start, old(trace), Actionable(old(rows), cutoff), turns, selected, cutoff, trace, own, removed, retained)
      ensures working ==> DeletesWorked(start, turns, selected) && !raised
    {
      removed, retained, raised, turns, own := 0, 0, false, [], [];
      ghost var all := Actionable(rows, cutoff);
      SoFarBegins(start, trace, selected, cutoff);
      for i := 0 to |selected|
        invariant Valid() && cutoff <= now && !raised && |turns| == i && !Raises(start, turns, selected)
        invariant cleaned == old(cleaned) + own
        invariant SoFar(start, old(trace), all, turns, selected, cutoff, trace, own, removed, retained)
        invariant working ==> DeletesWorked(start, turns, selected)
      {
        removed, retained, raised, turns, own := NextTurn(cutoff, selected, i, old(trace), all, turns, old(cleaned), own, removed, retained);
        if raised { return; }
      }
    }

    /** One turn, and what it adds to the counts. */
    method NextTurn(cutoff: Time, selected: seq<ReservationId>, i: nat, ghost first: seq<Label>, ghost all: set<ReservationId>,
                    ghost turns: seq<Turn>, ghost before: seq<Label>, ghost own: seq<Label>, removed: nat, retained: nat)
      returns (removed': nat, retained': nat, raised: bool, ghost turns': seq<Turn>, ghost own': seq<Label>)
      requires Valid() && cutoff <= now && i == |turns| < |selected|
      requires SoFar(start, first, all, turns, selected, cutoff, trace, own, removed, retained)
      requires cleaned == before + own && selected[i] in all && forall i, j :: 0 <= i < j < |selected| ==> selected[i] != selected[j]
      requires working ==> DeletesWorked(start, turns, selected)
      modifies this
      ensures Valid() && cutoff <= now && |turns'| == i + 1 && cleaned == before + own'
      ensures Consecutive(start, first, turns', selected, cutoff, trace)
      ensures Tallied(start, turns', selected, cutoff, own', removed', retained')
      ensures raised <==> Raises(start, turns', selected)
      ensures !raised ==> SoFar(start, first, all, turns', selected, cutoff, trace, own', removed', retained')
      ensures working ==> DeletesWorked(start, turns', selected) && !raised
    {
      ghost var turn;
      var result;
      result, turn := CleanNext(selected[i], cutoff);
      TurnTaken(start, first, all, turns, selected, cutoff, own, removed, retained, turn);
      if working { DeletesWorkedGrows(start, turns, selected, turn); }
      turns', own' := turns + [turn], own + StepOf(turn, selected[i], cutoff);
      removed' := if result == Removed then removed + 1 else removed;
      retained' := if result == Retained then retained + 1 else retained;
      raised := result == RolledBack;
    }

    /** One turn of the cleaner's loop, after whatever other processes did meanwhile. */
    method CleanNext(id: ReservationId, cutoff: Time) returns (result: CleanResult, ghost turn: Turn)
      requires Valid() && cutoff <= now
      modifies this
      ensures Valid() && cutoff <= now
      ensures turn.before == old(trace) && turn.after == trace && IsTurn(start, turn, id, cutoff)
      ensures cutoff <= Run(start, turn.locked).now
      ensures cleaned == old(cleaned) + StepOf(turn, id, cutoff)
      ensures result == ResultAt(start, turn, id)
      ensures working ==> DeleteWorked(start, turn, id) && result != RolledBack
    {
      ghost var before := trace;
      InterfereWithCleaner();
      ghost var locked := trace;
      ghost var outcome;
      result, outcome := CleanReservation(id, cutoff);
      turn := Turn(before, locked, outcome, trace);
    }

    /** Runs of the cleaner one after the other, with any positive limits and whatever happens in between and
        meanwhile.  If nothing becomes actionable and the deletes work, the actionable rows shrink by the sum
        of the limits, so as many runs as there are rows are enough to leave none. */
    method RepeatCleanup(cutoff: Time, limits: seq<nat>)
      returns (removed: nat, retained: nat, raised: bool, ghost passes: seq<Pass>)
      requires Valid() && cutoff <= now && forall i :: 0 <= i < |limits| ==> limits[i] >= 1
      modifies this
      ensures Valid()
      ensures !raised ==>
                && ArePasses(start, old(trace), passes, cutoff, limits) && trace == EndOf(old(trace), passes) && |passes| == |limits|
                && cleaned == old(cleaned) + AllOwnSteps(passes, cutoff)
                && removed == CountAll(start, passes, Removed) && retained == CountAll(start, passes, Retained)
      ensures !raised && AllPassedWell(start, passes, cutoff) ==>
                && Actionable(rows, cutoff) <= Actionable(old(rows), cutoff)
                && |Actionable(rows, cutoff)| <= Minus(|Actionable(old(rows), cutoff)|, Total(limits))
                && (|Actionable(old(rows), cutoff)| <= |limits| ==> Actionable(rows, cutoff) == {})
      ensures working ==> !raised && QuietSuffices(start, passes, cutoff)
      ensures working && |Expired(old(rows), cutoff)| <= |limits| && CalmBetween(start, old(trace), trace, cutoff) ==>
                OnlyQuarantined(rows, cutoff) && NoOrphans(old(rows), W(), cutoff)
    {
      removed, retained, raised := 0, 0, false;
      ghost var all, series := Actionable(rows, cutoff), Series([], [], 0, 0);
      for i := 0 to |limits|
        invariant Valid() && cutoff <= now && !raised && |series.passes| == i && cleaned == old(cleaned) + series.own
        invariant SeriesSoFar(start, old(trace), series, cutoff, limits, trace, all, working)
        invariant removed == series.removed && retained == series.retained
      {
        removed, retained, raised, series := NextPass(cutoff, limits, i, old(trace), all, old(cleaned), series, removed, retained);
        if raised { return removed, retained, raised, series.passes; }
      }
      SeriesEnds(start, old(trace), series, cutoff, limits, trace, all, working);
      passes := series.passes;
      if working && |Expired(old(rows), cutoff)| <= |limits| && CalmBetween(start, old(trace), trace, cutoff) {
        AllDrained(start, old(trace), passes, cutoff, limits, trace);
      }
    }

    /** One run of a series, and what it adds to the counts. */
    method NextPass(cutoff: Time, limits: seq<nat>, i: nat, ghost first: seq<Label>, ghost all: set<ReservationId>,
                    ghost before: seq<Label>, ghost series: Series, removed: nat, retained: nat)
      returns (removed': nat, retained': nat, raised: bool, ghost series': Series)
      requires Valid() && cutoff <= now && i == |series.passes| < |limits| && limits[i] >= 1 && cleaned == before + series.own
      requires SeriesSoFar(start, first, series, cutoff, limits, trace, all, working)
      requires removed == series.removed && retained == series.retained
      modifies this
      ensures Valid() && cutoff <= now && (working ==> !raised)
      ensures !raised ==>
                && |series'.passes| == i + 1 && cleaned == before + series'.own
                && SeriesSoFar(start, first, series', cutoff, limits, trace, all, working)
                && removed' == series'.removed && retained' == series'.retained
    {
      ghost var pass;
      ghost var steps := trace;
      var gone, kept;
      gone, kept, raised, pass := CleanAfterGap(cutoff, limits[i]);
      removed', retained', series' := removed + gone, retained + kept, series;
      if raised { return; }
      SeriesGrows(start, first, series, cutoff, limits, steps, all, working, pass, gone, kept);
      series' := Extended(series, cutoff, pass, gone, kept);
      OwnExtended(before, series, cutoff, pass, gone, kept);
    }

    /** The next run of a series. */
    method CleanAfterGap(cutoff: Time, limit: nat) returns (removed: nat, retained: nat, raised: bool, ghost pass: Pass)
      requires Valid() && cutoff <= now && limit >= 1
      modifies this
      ensures Valid() && cutoff <= now
      ensures !raised ==> PassDone(start, old(trace), pass, cutoff, limit, removed, retained) && pass.end == trace
      ensures !raised ==> cleaned == old(cleaned) + OwnSteps(pass.turns, pass.ids, cutoff)
      ensures working ==> !raised && DeletesWorked(start, pass.turns, pass.ids)
    {
      ghost var before := trace;
      InterfereWithCleaner();
      ghost var gap := Turn(before, trace, None, trace);
      ghost var ids, turns;
      removed, retained, raised, ids, turns := CleanupExpiredReservations(cutoff, limit);
      pass := Pass(gap, ids, turns, trace);
      if !raised { PassShrinks(start, pass, cutoff, limit); }
    }

    /** Interference seen by the cleaner, which keeps nothing in memory but its list of ids. */
    method InterfereWithCleaner()
      requires Valid()
      modifies this
      ensures Valid() && old(trace) <= trace && old(now) <= now && cleaned == old(cleaned)
      ensures trace == old(trace) ==> W() == old(W())
    {
    }
  }

  lemma FreshIdExists(s: set<nat>)
    ensures exists n: nat :: n !in s
  {
    var n := FreshAbove(s);
    assert n !in s;
  }

  ghost function FreshAbove(s: set<nat>): (n: nat)
    ensures forall m :: m in s ==> m < n
  {
    if s == {} then 0
    else
      var m :| m in s;
      var rest := FreshAbove(s - {m});
      assert forall q :: q in s ==> q == m || q in s - {m};
      if m < rest then rest else m + 1
  }
}
