/** `stage_upload`: an upload is read once into temporary files, within limits on names, files, chunks
    and bytes, and every file opened for an upload that fails is closed again. */
module Staging {
  import opened Wrappers

  datatype IssueCode =
    | MALFORMED_MULTIPART | TOO_MANY_FILES | MISSING_HTML | MULTIPLE_HTML | INVALID_FILENAME | DUPLICATE_FILENAME
    | EXTENSION_MISMATCH | MEDIA_TYPE_MISMATCH | EMPTY_FILE | FILE_TOO_LARGE | TOTAL_TOO_LARGE | TOO_MANY_CHUNKS
    | NON_BYTES_CHUNK | CONTENT_REJECTED | MISSING_ASSET_REFERENCE | INVALID_ASSET_REFERENCE | STREAM_ERROR | STAGING_ERROR

  datatype Kind = HTML | CSV | CSS | IMAGE | FONT

  type Byte = bv8
  type Bytes = seq<Byte>

  /** A reference in the content: the key it names and the kinds it may name. */
  datatype Reference = Reference(key: string, allowed: set<Kind>)

  /** What the content checks say about a chunk, or about the end of the file. */
  datatype Inspection = Clean(references: seq<Reference>) | Unacceptable

  datatype Chunk = Data(data: Bytes, inspection: Inspection) | NotBytes | SourceFails

  /** A part, with the outcome of the name, extension and media type checks. */
  datatype Part = Part(
    key: Option<string>, kind: Option<Kind>, mediaTypeOk: bool, sourceOpens: bool, chunks: seq<Chunk>, ending: Inspection)

  datatype RawPart = Given(part: Part) | NotAPart | IteratorFails

  datatype Entry = Entry(key: string, kind: Kind, part: Part)

  datatype Limits = Limits(maxFileBytes: nat, maxTotalBytes: nat, maxFiles: nat, maxChunksPerFile: nat)

  // The manifest

  predicate PartOk(raw: RawPart) {
    raw.Given? && raw.part.key.Some? && raw.part.kind.Some? && raw.part.mediaTypeOk
  }

  function EntryOf(raw: RawPart): Entry
    requires PartOk(raw)
  {
    Entry(raw.part.key.value, raw.part.kind.value, raw.part)
  }

  predicate DistinctKeys(manifest: seq<Entry>) {
    forall i, j :: 0 <= i < j < |manifest| ==> manifest[i].key != manifest[j].key
  }

  function HtmlCount(manifest: seq<Entry>): nat {
    if manifest == [] then 0
    else HtmlCount(manifest[..|manifest| - 1]) + if manifest[|manifest| - 1].kind == HTML then 1 else 0
  }

  /** At most `maxFiles` well-formed parts with different names, exactly one of them HTML. */
  ghost predicate ManifestOf(parts: seq<RawPart>, limits: Limits, manifest: seq<Entry>) {
    && |parts| <= limits.maxFiles && |manifest| == |parts|
    && (forall i :: 0 <= i < |parts| ==> PartOk(parts[i]) && manifest[i] == EntryOf(parts[i]))
    && DistinctKeys(manifest) && HtmlCount(manifest) == 1
  }

  lemma SameManifest(parts: seq<RawPart>, limits: Limits, a: seq<Entry>, b: seq<Entry>)
    requires ManifestOf(parts, limits, a) && |b| == |parts| && forall i :: 0 <= i < |parts| ==> PartOk(parts[i]) && b[i] == EntryOf(parts[i])
    ensures a == b
  {
  }

  /** `_build_manifest`: succeeds exactly on such parts. */
  method BuildManifest(parts: seq<RawPart>, limits: Limits) returns (r: Result<seq<Entry>, IssueCode>)
    ensures r.Ok? ==> ManifestOf(parts, limits, r.value)
    ensures r.Err? ==> r.error != STAGING_ERROR && forall manifest: seq<Entry> :: !ManifestOf(parts, limits, manifest)
  {
    var manifest: seq<Entry> := [];
    var seen: set<string> := {};
    var htmlCount := 0;
    var index := 0;
    while index < |parts|
      invariant 0 <= index <= |parts| && index <= limits.maxFiles && |manifest| == index
      invariant forall i :: 0 <= i < index ==> PartOk(parts[i]) && manifest[i] == EntryOf(parts[i])
      invariant DistinctKeys(manifest) && seen == set i | 0 <= i < |manifest| :: manifest[i].key
      invariant htmlCount == HtmlCount(manifest)
    {
      if parts[index].IteratorFails? { return Err(MALFORMED_MULTIPART); }
      if index >= limits.maxFiles { return Err(TOO_MANY_FILES); }
      if parts[index].NotAPart? { return Err(MALFORMED_MULTIPART); }
      var part := parts[index].part;
      if part.key.None? { return Err(INVALID_FILENAME); }
      if part.kind.None? { return Err(EXTENSION_MISMATCH); }
      if !part.mediaTypeOk { return Err(MEDIA_TYPE_MISMATCH); }
      if part.key.value in seen {
        var i :| 0 <= i < |manifest| && manifest[i].key == part.key.value;
        forall other: seq<Entry> ensures !ManifestOf(parts, limits, other) {
          assert |other| == |parts| && other[i] == EntryOf(parts[i]) && other[index] == EntryOf(parts[index]) ==> other[i].key == other[index].key;
        }
        return Err(DUPLICATE_FILENAME);
      }
      seen := seen + {part.key.value};
      if part.kind.value == HTML { htmlCount := htmlCount + 1; }
      ghost var before := manifest;
      manifest := manifest + [Entry(part.key.value, part.kind.value, part)];
      assert manifest[..|manifest| - 1] == before;
      index := index + 1;
    }
    forall other: seq<Entry> | ManifestOf(parts, limits, other) ensures htmlCount == 1 {
      SameManifest(parts, limits, other, manifest);
    }
    if htmlCount == 0 { return Err(MISSING_HTML); }
    if htmlCount > 1 { return Err(MULTIPLE_HTML); }
    return Ok(manifest);
  }

  // The content of a part

  function Content(chunks: seq<Chunk>): Bytes {
    if chunks == [] then []
    else
      var last := chunks[|chunks| - 1];
      Content(chunks[..|chunks| - 1]) + if last.Data? then last.data else []
  }

  lemma {:induction false} ContentGrows(chunks: seq<Chunk>, n: nat)
    requires n <= |chunks|
    ensures |Content(chunks[..n])| <= |Content(chunks)|
    decreases |chunks| - n
  {
    if n < |chunks| {
      assert chunks[..n + 1][..n] == chunks[..n];
      ContentGrows(chunks, n + 1);
    } else {
      assert chunks[..n] == chunks;
    }
  }

  predicate Resolves(reference: Reference, kinds: map<string, Kind>) {
    reference.key in kinds && kinds[reference.key] in reference.allowed
  }

  predicate InspectionOk(inspection: Inspection, kinds: map<string, Kind>) {
    inspection.Clean? && forall i :: 0 <= i < |inspection.references| ==> Resolves(inspection.references[i], kinds)
  }

  function KeysOf(inspection: Inspection): set<string> {
    if inspection.Clean? then set i | 0 <= i < |inspection.references| :: inspection.references[i].key else {}
  }

  function ChunkReferences(chunks: seq<Chunk>): set<string> {
    if chunks == [] then {}
    else
      var last := chunks[|chunks| - 1];
      ChunkReferences(chunks[..|chunks| - 1]) + if last.Data? then KeysOf(last.inspection) else {}
  }

  /** The names a part refers to, in its chunks or found at its end. */
  function PartReferences(part: Part): set<string> {
    ChunkReferences(part.chunks) + KeysOf(part.ending)
  }

  function References(manifest: seq<Entry>): set<string> {
    if manifest == [] then {} else References(manifest[..|manifest| - 1]) + PartReferences(manifest[|manifest| - 1].part)
  }

  /** What a part has to be for its staging to succeed, the storage working. */
  predicate Stageable(part: Part, kinds: map<string, Kind>, total: nat, limits: Limits) {
    && part.sourceOpens && |part.chunks| <= limits.maxChunksPerFile
    && (forall i :: 0 <= i < |part.chunks| ==> part.chunks[i].Data? && InspectionOk(part.chunks[i].inspection, kinds))
    && 0 < |Content(part.chunks)| <= limits.maxFileBytes && total + |Content(part.chunks)| <= limits.maxTotalBytes
    && InspectionOk(part.ending, kinds)
  }

  type FileId = nat

  datatype StagedFile = StagedFile(key: string, kind: Kind, size: nat, stream: FileId)

  datatype StagedUpload = StagedUpload(files: seq<StagedFile>, total: nat, references: set<string>)

  function TotalSize(files: seq<StagedFile>): nat {
    if files == [] then 0 else TotalSize(files[..|files| - 1]) + files[|files| - 1].size
  }

  function KindsOf(manifest: seq<Entry>): map<string, Kind>
    requires DistinctKeys(manifest)
  {
    map i | 0 <= i < |manifest| :: manifest[i].key := manifest[i].kind
  }

  /** The temporary files of the process. */
  class Stager {
    var contents: map<FileId, Bytes>
    var openFiles: set<FileId>
    var nextFile: FileId
    /** The environment: every temporary file opens and every write makes progress. */
    const working: bool

    ghost predicate Valid()
      reads this
    {
      (forall f :: f in contents ==> f < nextFile) && openFiles <= contents.Keys
    }

    constructor (working: bool)
      ensures Valid() && openFiles == {} && this.working == working
    {
      contents, openFiles, nextFile, this.working := map[], {}, 0, working;
    }

    /** `tempfile.TemporaryFile`, which may fail. */
    method TemporaryFile() returns (file: Option<FileId>)
      requires Valid()
      modifies this
      ensures Valid()
      ensures working ==> file.Some?
      ensures file.None? ==> contents == old(contents) && openFiles == old(openFiles)
      ensures file.Some? ==> file.value !in old(contents) && contents == old(contents)[file.value := []]
                             && openFiles == old(openFiles) + {file.value}
    {
      var fails: bool := *;
      if fails && !working { return None; }
      file := Some(nextFile);
      contents, openFiles, nextFile := contents[nextFile := []], openFiles + {nextFile}, nextFile + 1;
    }

    /** `file.write`: takes some of the data, or makes no progress. */
    method Write(file: FileId, data: Bytes) returns (written: int)
      requires Valid() && file in contents
      modifies this`contents
      ensures Valid() && written <= |data| && (working && data != [] ==> written > 0)
      ensures contents == old(contents)[file := old(contents)[file] + if written > 0 then data[..written] else []]
    {
      written := *;
      if written > |data| || (working && written <= 0) { written := |data|; }
      if written > 0 { contents := contents[file := contents[file] + data[..written]]; }
      assert contents[file] == old(contents)[file] + if written > 0 then data[..written] else [];
    }

    /** `_write_all`: the whole chunk is stored, however little each write takes. */
    method WriteAll(file: FileId, chunk: Bytes) returns (ok: bool)
      requires Valid() && file in contents
      modifies this`contents
      ensures Valid() && contents.Keys == old(contents).Keys
      ensures forall f :: f in contents && f != file ==> contents[f] == old(contents)[f]
      ensures ok ==> contents[file] == old(contents)[file] + chunk
      ensures working ==> ok
    {
      var remaining := chunk;
      while remaining != []
        invariant Valid() && contents.Keys == old(contents).Keys
        invariant forall f :: f in contents && f != file ==> contents[f] == old(contents)[f]
        invariant contents[file] + remaining == old(contents)[file] + chunk
        decreases |remaining|
      {
        var written := Write(file, remaining);
        if written <= 0 { return false; }
        assert remaining == remaining[..written] + remaining[written..];
        remaining := remaining[written..];
      }
      return true;
    }

    /** The references of an inspection, each of which must name an entry of an allowed kind. */
    static method Resolve(inspection: Inspection, kinds: map<string, Kind>) returns (r: Result<set<string>, IssueCode>)
      ensures r.Ok? <==> InspectionOk(inspection, kinds)
      ensures r != Err(STAGING_ERROR)
      ensures r.Ok? ==> r.value <= kinds.Keys && r.value == KeysOf(inspection)
    {
      if inspection.Unacceptable? { return Err(CONTENT_REJECTED); }
      var found := {};
      for i := 0 to |inspection.references|
        invariant found <= kinds.Keys && found == set j | 0 <= j < i :: inspection.references[j].key
        invariant forall j :: 0 <= j < i ==> Resolves(inspection.references[j], kinds)
      {
        var reference := inspection.references[i];
        if reference.key !in kinds { return Err(MISSING_ASSET_REFERENCE); }
        if kinds[reference.key] !in reference.allowed { return Err(INVALID_ASSET_REFERENCE); }
        found := found + {reference.key};
      }
      return Ok(found);
    }

    /** Inspects a chunk and stores it. */
    method StoreChunk(file: FileId, chunk: Chunk, kinds: map<string, Kind>) returns (r: Result<set<string>, IssueCode>)
      requires Valid() && file in contents && chunk.Data?
      modifies this`contents
      ensures Valid() && contents.Keys == old(contents).Keys
      ensures forall f :: f in contents && f != file ==> contents[f] == old(contents)[f]
      ensures r.Ok? ==> contents[file] == old(contents)[file] + chunk.data && r.value <= kinds.Keys && r.value == KeysOf(chunk.inspection)
      ensures r.Ok? ==> InspectionOk(chunk.inspection, kinds)
      ensures r.Err? ==> if r.error == STAGING_ERROR then !working else !InspectionOk(chunk.inspection, kinds)
    {
      r := Resolve(chunk.inspection, kinds);
      if r.Err? { return; }
      var ok := WriteAll(file, chunk.data);
      if !ok { return Err(STAGING_ERROR); }
    }

    /** One turn of the loop over the chunks: the checks in their order, then the inspection and the write. */
    method ReceiveChunk(file: FileId, chunk: Chunk, number: nat, byteSize: nat, kinds: map<string, Kind>, total: nat, limits: Limits)
      returns (r: Result<set<string>, IssueCode>)
      requires Valid() && file in contents
      modifies this`contents
      ensures Valid() && contents.Keys == old(contents).Keys
      ensures forall f :: f in contents && f != file ==> contents[f] == old(contents)[f]
      ensures r.Ok? ==>
                && Receivable(chunk, number, byteSize, kinds, total, limits)
                && contents[file] == old(contents)[file] + chunk.data && r.value == KeysOf(chunk.inspection) <= kinds.Keys
      ensures r.Err? ==> if r.error == STAGING_ERROR then !working else !Receivable(chunk, number, byteSize, kinds, total, limits)
    {
      if chunk.SourceFails? { return Err(STREAM_ERROR); }
      if number > limits.maxChunksPerFile { return Err(TOO_MANY_CHUNKS); }
      if chunk.NotBytes? { return Err(NON_BYTES_CHUNK); }
      var nextSize := byteSize + |chunk.data|;
      if nextSize > limits.maxFileBytes { return Err(FILE_TOO_LARGE); }
      if total + nextSize > limits.maxTotalBytes { return Err(TOTAL_TOO_LARGE); }
      r := StoreChunk(file, chunk, kinds);
    }

    static predicate Receivable(chunk: Chunk, number: nat, byteSize: nat, kinds: map<string, Kind>, total: nat, limits: Limits) {
      && chunk.Data? && InspectionOk(chunk.inspection, kinds) && number <= limits.maxChunksPerFile
      && byteSize + |chunk.data| <= limits.maxFileBytes && total + byteSize + |chunk.data| <= limits.maxTotalBytes
    }

    static lemma ContentStep(chunks: seq<Chunk>, i: nat)
      requires i < |chunks|
      ensures Content(chunks[..i + 1]) == Content(chunks[..i]) + if chunks[i].Data? then chunks[i].data else []
      ensures |Content(chunks[..i + 1])| <= |Content(chunks)|
      ensures ChunkReferences(chunks[..i + 1]) == ChunkReferences(chunks[..i]) + if chunks[i].Data? then KeysOf(chunks[i].inspection) else {}
    {
      assert chunks[..i + 1][..i] == chunks[..i];
      ContentGrows(chunks, i + 1);
    }

    /** A chunk that cannot be received spoils its part. */
    static lemma SpoiltByChunk(part: Part, i: nat, kinds: map<string, Kind>, total: nat, limits: Limits)
      requires i < |part.chunks|
      ensures !Receivable(part.chunks[i], i + 1, |Content(part.chunks[..i])|, kinds, total, limits) ==> !Stageable(part, kinds, total, limits)
    {
      ContentStep(part.chunks, i);
    }

    /** The loop over the chunks of one part. */
    method ReceiveChunks(file: FileId, part: Part, kinds: map<string, Kind>, total: nat, limits: Limits)
      returns (r: Result<nat, IssueCode>, references: set<string>)
      requires Valid() && file in openFiles && contents[file] == []
      modifies this`contents
      ensures Valid() && contents.Keys == old(contents).Keys
      ensures forall f :: f in contents && f != file ==> contents[f] == old(contents)[f]
      ensures references <= kinds.Keys && (r.Ok? ==> references == ChunkReferences(part.chunks))
      ensures r.Ok? ==>
                && part.sourceOpens && |part.chunks| <= limits.maxChunksPerFile
                && (forall i :: 0 <= i < |part.chunks| ==> part.chunks[i].Data? && InspectionOk(part.chunks[i].inspection, kinds))
                && contents[file] == Content(part.chunks) && r.value == |Content(part.chunks)|
                && (part.chunks != [] ==> r.value <= limits.maxFileBytes && total + r.value <= limits.maxTotalBytes)
      ensures r.Err? ==> if r.error == STAGING_ERROR then !working else !Stageable(part, kinds, total, limits)
    {
      references := {};
      if !part.sourceOpens { return Err(STREAM_ERROR), references; }
      var byteSize := 0;
      var i := 0;
      while i < |part.chunks|
        invariant Valid() && contents.Keys == old(contents).Keys && references <= kinds.Keys
        invariant forall f :: f in contents && f != file ==> contents[f] == old(contents)[f]
        invariant 0 <= i <= |part.chunks| && i <= limits.maxChunksPerFile
        invariant forall j :: 0 <= j < i ==> part.chunks[j].Data? && InspectionOk(part.chunks[j].inspection, kinds)
        invariant contents[file] == Content(part.chunks[..i]) && byteSize == |contents[file]|
        invariant references == ChunkReferences(part.chunks[..i])
        invariant i > 0 ==> byteSize <= limits.maxFileBytes && total + byteSize <= limits.maxTotalBytes
      {
        ContentStep(part.chunks, i);
        SpoiltByChunk(part, i, kinds, total, limits);
        var found := ReceiveChunk(file, part.chunks[i], i + 1, byteSize, kinds, total, limits);
        if found.Err? { return Err(found.error), references; }
        references := references + found.value;
        byteSize := byteSize + |part.chunks[i].data|;
        i := i + 1;
      }
      assert part.chunks[..i] == part.chunks;
      return Ok(byteSize), references;
    }

    method Close(file: FileId)
      modifies this`openFiles
      ensures openFiles == old(openFiles) - {file}
    {
      openFiles := openFiles - {file};
    }

    /** `_stage_entry`: on success one more open file holds the chunks one after the other; on failure
        no file is left open.  The storage working, it succeeds exactly on a stageable part. */
    method StageEntry(entry: Entry, kinds: map<string, Kind>, total: nat, limits: Limits)
      returns (r: Result<StagedFile, IssueCode>, newTotal: nat, references: set<string>)
      requires Valid()
      modifies this
      ensures Valid() && old(contents).Keys <= contents.Keys
      ensures forall f :: f in old(contents) ==> contents[f] == old(contents)[f]
      ensures r.Err? ==> if r.error == STAGING_ERROR then !working else !Stageable(entry.part, kinds, total, limits)
      ensures working ==> (r.Ok? <==> Stageable(entry.part, kinds, total, limits))
      ensures r.Ok? ==>
                && Stageable(entry.part, kinds, total, limits)
                && r.value.key == entry.key && r.value.kind == entry.kind
                && r.value.stream !in old(contents) && openFiles == old(openFiles) + {r.value.stream}
                && contents[r.value.stream] == Content(entry.part.chunks)
                && r.value.size == |Content(entry.part.chunks)| && newTotal == total + r.value.size
                && references <= kinds.Keys && references == PartReferences(entry.part)
      ensures r.Err? ==> openFiles == old(openFiles)
    {
      newTotal, references := total, {};
      var temporary := TemporaryFile();
      if temporary.None? { return Err(STAGING_ERROR), newTotal, references; }
      var file := temporary.value;
      var size;
      size, references := ReceiveChunks(file, entry.part, kinds, total, limits);
      if size.Err? { Close(file); return Err(size.error), newTotal, references; }
      if size.value == 0 { Close(file); return Err(EMPTY_FILE), newTotal, references; }
      var ending := Resolve(entry.part.ending, kinds);
      if ending.Err? { Close(file); return Err(ending.error), newTotal, references; }
      return Ok(StagedFile(entry.key, entry.kind, size.value, file)), total + size.value, references + ending.value;
    }

    /** `_close_staged_safely`. */
    method CloseStaged(staged: seq<StagedFile>)
      modifies this`openFiles
      ensures openFiles == old(openFiles) - Streams(staged)
    {
      for i := 0 to |staged|
        invariant openFiles == old(openFiles) - Streams(staged[..i])
      {
        Close(staged[i].stream);
        StreamsStep(staged, i);
      }
      assert staged[..|staged|] == staged;
    }

    /** The staged files hold the content of the entries, one by one. */
    ghost predicate Holds(staged: seq<StagedFile>, manifest: seq<Entry>, before: set<FileId>)
      reads this`contents
    {
      && |staged| <= |manifest|
      && (forall i :: 0 <= i < |staged| ==> HoldsEntry(contents, staged[i], manifest[i]) && staged[i].stream !in before)
      && (forall i, j :: 0 <= i < j < |staged| ==> staged[i].stream != staged[j].stream)
    }

    lemma HoldsMore(staged: seq<StagedFile>, file: StagedFile, manifest: seq<Entry>, before: set<FileId>, held: map<FileId, Bytes>)
      requires |staged| < |manifest|
      requires forall i :: 0 <= i < |staged| ==> HoldsEntry(held, staged[i], manifest[i]) && staged[i].stream !in before
      requires forall i, j :: 0 <= i < j < |staged| ==> staged[i].stream != staged[j].stream
      requires forall f :: f in held ==> f in contents && contents[f] == held[f]
      requires file.stream !in held && file.stream !in before && HoldsEntry(contents, file, manifest[|staged|])
      ensures Holds(staged + [file], manifest, before)
    {
      var more := staged + [file];
      forall i | 0 <= i < |more| ensures HoldsEntry(contents, more[i], manifest[i]) && more[i].stream !in before {
        assert i < |staged| ==> more[i] == staged[i];
      }
      forall i, j | 0 <= i < j < |more| ensures more[i].stream != more[j].stream {
        assert more[i] == staged[i] && HoldsEntry(held, staged[i], manifest[i]);
      }
    }

    /** Stages the entry after those already staged, or closes what has been opened since `base`. */
    method StageNext(staged: seq<StagedFile>, manifest: seq<Entry>, kinds: map<string, Kind>, total: nat, limits: Limits,
                     ghost before: set<FileId>, ghost base: set<FileId>)
      returns (r: Result<seq<StagedFile>, IssueCode>, newTotal: nat, references: set<string>)
      requires Valid() && |staged| < |manifest| && Holds(staged, manifest, before)
      requires base <= before <= contents.Keys && openFiles == base + Streams(staged)
      modifies this
      ensures Valid() && (forall f :: f in old(contents) ==> f in contents && contents[f] == old(contents)[f])
      ensures r.Err? ==> if r.error == STAGING_ERROR then !working else !Stageable(manifest[|staged|].part, kinds, total, limits)
      ensures r.Err? ==> openFiles == base
      ensures r.Ok? ==>
                && Stageable(manifest[|staged|].part, kinds, total, limits)
                && |r.value| == |staged| + 1 && Holds(r.value, manifest, before) && openFiles == base + Streams(r.value)
                && newTotal == total + |Content(manifest[|staged|].part.chunks)|
                && references <= kinds.Keys && references == PartReferences(manifest[|staged|].part)
    {
      StreamsNew(staged, manifest, before);
      ghost var held := contents;
      var file;
      file, newTotal, references := StageEntry(manifest[|staged|], kinds, total, limits);
      if file.Err? {
        CloseStaged(staged);
        return Err(file.error), newTotal, references;
      }
      HoldsMore(staged, file.value, manifest, before, held);
      StreamsAdd(staged, file.value);
      return Ok(staged + [file.value]), newTotal, references;
    }

    /** The loop of `stage_upload`. */
    method StageEntries(manifest: seq<Entry>, limits: Limits)
      returns (r: Result<seq<StagedFile>, IssueCode>, total: nat, references: set<string>)
      requires Valid() && DistinctKeys(manifest)
      modifies this
      ensures Valid() && (forall f :: f in old(contents) ==> f in contents && contents[f] == old(contents)[f])
      ensures r.Err? ==> openFiles == old(openFiles)
      ensures r.Err? ==> if r.error == STAGING_ERROR then !working else !AllStageable(manifest, |manifest|, limits)
      ensures r.Ok? ==>
                && AllStageable(manifest, |manifest|, limits)
                && |r.value| == |manifest| && Holds(r.value, manifest, old(contents).Keys)
                && openFiles == old(openFiles) + Streams(r.value)
                && total == ContentTotal(manifest) && references <= KindsOf(manifest).Keys && references == References(manifest)
    {
      var kinds := KindsOf(manifest);
      var staged: seq<StagedFile> := [];
      total, references := 0, {};
      for n := 0 to |manifest|
        invariant Valid() && (forall f :: f in old(contents) ==> f in contents && contents[f] == old(contents)[f])
        invariant |staged| == n && Holds(staged, manifest, old(contents).Keys)
        invariant AllStageable(manifest, n, limits)
        invariant openFiles == old(openFiles) + Streams(staged)
        invariant total == ContentTotal(manifest[..n]) && references <= kinds.Keys && references == References(manifest[..n])
      {
        var more, newTotal, found;
        more, newTotal, found := StageNext(staged, manifest, kinds, total, limits, old(contents).Keys, old(openFiles));
        OneMoreStageable(manifest, n, limits);
        if more.Err? { return Err(more.error), total, references; }
        staged, total, references := more.value, newTotal, references + found;
      }
      assert manifest[..|manifest|] == manifest;
      return Ok(staged), total, references;
    }

    static lemma OneMoreStageable(manifest: seq<Entry>, n: nat, limits: Limits)
      requires DistinctKeys(manifest) && n < |manifest| && AllStageable(manifest, n, limits)
      ensures var fits := Stageable(manifest[n].part, KindsOf(manifest), ContentTotal(manifest[..n]), limits);
              (fits ==> AllStageable(manifest, n + 1, limits)) && (!fits ==> !AllStageable(manifest, |manifest|, limits))
      ensures ContentTotal(manifest[..n + 1]) == ContentTotal(manifest[..n]) + |Content(manifest[n].part.chunks)|
      ensures References(manifest[..n + 1]) == References(manifest[..n]) + PartReferences(manifest[n].part)
    {
      assert manifest[..n + 1][..n] == manifest[..n];
    }

    lemma StreamsNew(staged: seq<StagedFile>, manifest: seq<Entry>, before: set<FileId>)
      requires Holds(staged, manifest, before)
      ensures Streams(staged) !! before
    {
    }

    /** `stage_upload`.  A successful staging holds exactly one HTML part, different names, at most
        `maxFiles` parts, sizes and total as received and within their limits, and the received bytes;
        a failed one leaves no file open.  Only a storage that does not work gives STAGING_ERROR; any other
        failure means that the parts form no manifest or are not all stageable, which always fails. */
    method StageUpload(parts: seq<RawPart>, limits: Limits)
      returns (r: Result<StagedUpload, IssueCode>, ghost manifest: seq<Entry>)
      requires Valid()
      modifies this
      ensures Valid() && (forall f :: f in old(contents) ==> f in contents && contents[f] == old(contents)[f])
      ensures r.Err? ==> openFiles == old(openFiles)
      ensures r.Err? ==>
                if r.error == STAGING_ERROR then !working
                else !exists m: seq<Entry> :: ManifestOf(parts, limits, m) && AllStageable(m, |m|, limits)
      ensures working ==>
                (r.Ok? <==> exists m: seq<Entry> :: ManifestOf(parts, limits, m) && AllStageable(m, |m|, limits))
      ensures r.Ok? ==>
                && ManifestOf(parts, limits, manifest)
                && |r.value.files| == |manifest| && Holds(r.value.files, manifest, old(contents).Keys)
                && openFiles == old(openFiles) + Streams(r.value.files)
                && (forall i :: 0 <= i < |manifest| ==> 0 < r.value.files[i].size <= limits.maxFileBytes)
                && r.value.total == TotalSize(r.value.files) <= limits.maxTotalBytes
                && r.value.references == References(manifest) <= KindsOf(manifest).Keys
    {
      manifest := [];
      var built := BuildManifest(parts, limits);
      if built.Err? { return Err(built.error), manifest; }
      manifest := built.value;
      var files, total, references;
      files, total, references := StageEntries(built.value, limits);
      forall m: seq<Entry> | ManifestOf(parts, limits, m) ensures m == manifest {
        SameManifest(parts, limits, m, manifest);
      }
      if files.Err? { return Err(files.error), manifest; }
      TotalsMatch(files.value, manifest, contents);
      TotalWithin(manifest, limits);
      assert forall i :: 0 <= i < |manifest| ==> HoldsEntry(contents, files.value[i], manifest[i]);
      return Ok(StagedUpload(files.value, total, references)), manifest;
    }
  }

  function Streams(staged: seq<StagedFile>): set<FileId> {
    set i | 0 <= i < |staged| :: staged[i].stream
  }

  lemma StreamsStep(staged: seq<StagedFile>, i: nat)
    requires i < |staged|
    ensures Streams(staged[..i + 1]) == Streams(staged[..i]) + {staged[i].stream}
  {
    assert staged[..i + 1] == staged[..i] + [staged[i]];
    StreamsAdd(staged[..i], staged[i]);
  }

  lemma StreamsAdd(staged: seq<StagedFile>, file: StagedFile)
    ensures Streams(staged + [file]) == Streams(staged) + {file.stream}
  {
    var more := staged + [file];
    assert more[|staged|] == file;
    assert forall i :: 0 <= i < |staged| ==> more[i] == staged[i];
    assert forall f :: f in Streams(staged) ==> f in Streams(more);
  }

  ghost predicate HoldsEntry(contents: map<FileId, Bytes>, file: StagedFile, entry: Entry) {
    && file.key == entry.key && file.kind == entry.kind
    && file.stream in contents && contents[file.stream] == Content(entry.part.chunks)
    && file.size == |Content(entry.part.chunks)|
  }

  function ContentTotal(manifest: seq<Entry>): nat {
    if manifest == [] then 0
    else ContentTotal(manifest[..|manifest| - 1]) + |Content(manifest[|manifest| - 1].part.chunks)|
  }

  /** The first `n` entries can be staged one after the other. */
  ghost predicate AllStageable(manifest: seq<Entry>, n: nat, limits: Limits)
    requires DistinctKeys(manifest)
  {
    n <= |manifest| && forall i :: 0 <= i < n ==> Stageable(manifest[i].part, KindsOf(manifest), ContentTotal(manifest[..i]), limits)
  }

  lemma {:induction false} TotalsMatch(files: seq<StagedFile>, manifest: seq<Entry>, contents: map<FileId, Bytes>)
    requires |files| == |manifest| && forall i :: 0 <= i < |files| ==> HoldsEntry(contents, files[i], manifest[i])
    ensures TotalSize(files) == ContentTotal(manifest)
    decreases |files|
  {
    if files != [] {
      TotalsMatch(files[..|files| - 1], manifest[..|manifest| - 1], contents);
    }
  }

  lemma TotalWithin(manifest: seq<Entry>, limits: Limits)
    requires DistinctKeys(manifest) && AllStageable(manifest, |manifest|, limits)
    ensures ContentTotal(manifest) <= limits.maxTotalBytes
    ensures forall i :: 0 <= i < |manifest| ==> 0 < |Content(manifest[i].part.chunks)| <= limits.maxFileBytes
  {
    if manifest != [] {
      assert Stageable(manifest[|manifest| - 1].part, KindsOf(manifest), ContentTotal(manifest[..|manifest| - 1]), limits);
    }
  }
}
