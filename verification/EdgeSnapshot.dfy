/**
  Capture and guarded restore of the edge SQLite database, on a file system where
  every call may fail and every written file may come out different from what was
  sent. `trace` records each state the directory goes through, so a statement about
  the trace is a statement about every point at which the host may crash.
 */
module EdgeSnapshot {
  import opened Wrappers
  import opened EdgeQueue

  type Byte = b: nat | b < 256
  type Bytes = seq<Byte>
  type Path = string

  /** What `_read_runtime_metadata` reads. */
  datatype Runtime = Runtime(revision: int, count: nat, highWater: nat, streams: map<string, int>)

  datatype Document = Document(
    schema: int, kind: string, sourceCheck: string, snapshotCheck: string,
    snapshotName: string, sha: string, bytes: nat, runtime: Runtime,
    deployedSource: string, targetSource: string, evidenceId: string, imageId: string)

  datatype Content = Raw(bytes: Bytes) | Json(document: Document)

  type Files = map<Path, Content>

  /** SQLite, SHA-256, the identity patterns and file names, as far as they matter. */
  datatype Host = Host(
    quickCheck: Bytes -> bool,
    runtime: Bytes -> Option<Runtime>,
    sha256: Bytes -> string,
    isCommit: string -> bool,
    isImage: string -> bool,
    isEvidence: string -> bool,
    name: Path -> string,
    backup: Bytes -> Bytes)

  const SCHEMA_VERSION := 1
  const KIND := "nexolab-edge-sqlite-pre-cutover"

  datatype Request = Request(deployedSource: string, targetSource: string, evidenceId: string, imageId: string)

  datatype Failure =
    | Refused        // a check before the first change
    | CallFailed     // the operating system or SQLite raised
    | Corrupted      // a check on what was written
    | CleanupFailed  // removing the unfinished files raised

  class Disk {
    const reliable: bool         // no call fails, and what is written is what was sent
    var files: Files
    ghost var trace: seq<Files>

    constructor (files: Files, reliable: bool)
      ensures this.files == files && this.reliable == reliable && trace == [files]
    {
      this.files, this.reliable := files, reliable;
      trace := [files];
    }

    method Fails() returns (fails: bool)
      ensures reliable ==> !fails
    {
      fails := *;
      fails := fails && !reliable;
    }

    ghost predicate Recorded()
      reads this
    {
      |trace| > 0 && trace[|trace| - 1] == files
    }

    /** A write by SQLite or a copy loop: unless the disk is reliable anything may end up in
        the file, whether or not the call reports an error. */
    method Write(path: Path, sent: Bytes) returns (ok: bool)
      requires Recorded()
      modifies this
      ensures Recorded() && trace == old(trace) + [files]
      ensures reliable ==> ok && files == old(files)[path := Raw(sent)]
      ensures files == old(files) || (path in files && files == old(files)[path := files[path]])
      ensures ok ==> path in files && files[path].Raw?
    {
      var fails := Fails();
      ok := !fails;
      var torn: bool := *;
      if ok || torn {
        var bytes: Bytes := *;
        if reliable { bytes := sent; }
        files := files[path := Raw(bytes)];
      }
      trace := trace + [files];
    }

    /** Writes a small document; a failing call may leave a torn file. */
    method Put(path: Path, document: Document) returns (ok: bool)
      requires Recorded()
      modifies this
      ensures Recorded() && trace == old(trace) + [files]
      ensures files == old(files) || (path in files && files == old(files)[path := files[path]])
      ensures ok ==> files == old(files)[path := Json(document)]
      ensures reliable ==> ok
    {
      var fails := Fails();
      ok := !fails;
      var torn: Content := *;
      files := files[path := if ok then Json(document) else torn];
      trace := trace + [files];
    }

    /** Removing what is not there succeeds too. */
    method Unlink(path: Path) returns (ok: bool)
      requires Recorded()
      modifies this
      ensures Recorded() && trace == old(trace) + [files]
      ensures files == if ok then old(files) - {path} else old(files)
      ensures reliable ==> ok
    {
      var fails := Fails();
      ok := !fails;
      if ok { files := files - {path}; }
      trace := trace + [files];
    }

    /** Whoever uses these files may change or remove them, and nothing else. */
    method Operate(own: set<Path>)
      requires Recorded()
      modifies this
      ensures Recorded() && trace == old(trace) + [files] && SameElsewhere(old(files), files, own)
    {
      var other: Files := *;
      files := map p | p in files.Keys + other.Keys && (if p in own then p in other else p in files)
                     :: if p in own then other[p] else files[p];
      trace := trace + [files];
    }

    /** The rename is atomic. */
    method Replace(from: Path, to: Path) returns (ok: bool)
      requires Recorded() && from in files && from != to
      modifies this
      ensures Recorded() && trace == old(trace) + [files]
      ensures files == if ok then (old(files) - {from})[to := old(files)[from]] else old(files)
      ensures reliable ==> ok
    {
      var fails := Fails();
      ok := !fails;
      if ok { files := (files - {from})[to := files[from]]; }
      trace := trace + [files];
    }
  }

  predicate IsRaw(files: Files, path: Path) { path in files && files[path].Raw? }

  // ---- capture ----

  /** The document says the truth about the image. */
  predicate Describes(h: Host, d: Document, image: Bytes) {
    && d.schema == SCHEMA_VERSION && d.kind == KIND && d.sourceCheck == "ok" && d.snapshotCheck == "ok"
    && d.sha == h.sha256(image) && d.bytes == |image|
    && h.quickCheck(image) && h.runtime(image) == Some(d.runtime)
  }

  predicate Asked(d: Document, request: Request) {
    && d.deployedSource == request.deployedSource && d.targetSource == request.targetSource
    && d.evidenceId == request.evidenceId && d.imageId == request.imageId
  }

  /** At every instant a metadata file is complete, and a snapshot beside it is the
      image that it describes. */
  ghost predicate NeverMisleads(h: Host, trace: seq<Files>, from: nat, snapshot: Path, metadata: Path) {
    forall i :: from <= i < |trace| && metadata in trace[i] ==>
      && trace[i][metadata].Json?
      && (snapshot in trace[i] ==>
            trace[i][snapshot].Raw? && Describes(h, trace[i][metadata].document, trace[i][snapshot].bytes))
  }

  ghost predicate SameElsewhere(a: Files, b: Files, own: set<Path>) {
    forall p :: p !in own ==> (p in a <==> p in b) && (p in a ==> a[p] == b[p])
  }

  /** Every file but these is as it was, at every instant. */
  ghost predicate Untouched(files: Files, trace: seq<Files>, from: nat, own: set<Path>) {
    forall i :: from <= i < |trace| ==> SameElsewhere(files, trace[i], own)
  }

  /** `_atomic_json` onto a path that does not exist yet. */
  method AtomicJson(disk: Disk, path: Path, temporary: Path, document: Document) returns (r: Result<(), Failure>)
    requires disk.Recorded() && path !in disk.files && path != temporary
    modifies disk
    ensures disk.Recorded() && |disk.trace| >= |old(disk.trace)| && disk.trace[..|old(disk.trace)|] == old(disk.trace)
    ensures Untouched(old(disk.files), disk.trace, |old(disk.trace)|, {path, temporary})
    ensures forall i :: |old(disk.trace)| <= i < |disk.trace| && path in disk.trace[i] ==>
        disk.trace[i][path] == Json(document)
    ensures SameElsewhere(old(disk.files), disk.files, {path, temporary})
    ensures path in disk.files ==> disk.files[path] == Json(document)
    ensures r.Ok? ==> path in disk.files && temporary !in disk.files
    ensures r.Err? ==> r.error == CallFailed
    ensures disk.reliable && temporary !in old(disk.files) ==> r.Ok?
  {
    var written := WriteAndReplace(disk, path, temporary, document);
    var gone := disk.Unlink(temporary);
    if !gone { return Err(CallFailed); }
    return written;
  }

  method WriteAndReplace(disk: Disk, path: Path, temporary: Path, document: Document) returns (r: Result<(), Failure>)
    requires disk.Recorded() && path !in disk.files && path != temporary
    modifies disk
    ensures disk.Recorded() && |disk.trace| >= |old(disk.trace)| && disk.trace[..|old(disk.trace)|] == old(disk.trace)
    ensures Untouched(old(disk.files), disk.trace, |old(disk.trace)|, {path, temporary})
    ensures forall i :: |old(disk.trace)| <= i < |disk.trace| && path in disk.trace[i] ==>
        disk.trace[i][path] == Json(document)
    ensures SameElsewhere(old(disk.files), disk.files, {path, temporary})
    ensures path in disk.files ==> disk.files[path] == Json(document)
    ensures r.Ok? ==> path in disk.files
    ensures r.Err? ==> r.error == CallFailed
    ensures disk.reliable && temporary !in old(disk.files) ==> r.Ok?
  {
    var fails := disk.Fails();  // creating the directory
    if fails { return Err(CallFailed); }
    if temporary in disk.files { return Err(CallFailed); }
    var put := disk.Put(temporary, document);
    if !put { return Err(CallFailed); }
    fails := disk.Fails();  // fsync or chmod
    if fails { return Err(CallFailed); }
    var replaced := disk.Replace(temporary, path);
    if !replaced { return Err(CallFailed); }
    fails := disk.Fails();  // fsync of the directory
    if fails { return Err(CallFailed); }
    return Ok(());
  }

  /** `capture`: afterwards both files are there and belong together, or neither is,
      unless removing them failed; and at no instant does a metadata file mislead. */
  method Capture(h: Host, disk: Disk, source: Path, snapshot: Path, metadata: Path, temporary: Path, request: Request)
    returns (r: Result<Document, Failure>)
    requires disk.Recorded() && temporary !in {source, snapshot, metadata}
    modifies disk
    ensures disk.Recorded() && |disk.trace| >= |old(disk.trace)|
    ensures Untouched(old(disk.files), disk.trace, |old(disk.trace)|, {snapshot, metadata, temporary})
    ensures r == Err(Refused) <==>
              || !IsRaw(old(disk.files), source)
              || snapshot == source || metadata == source || metadata == snapshot
              || snapshot in old(disk.files) || metadata in old(disk.files)
              || !h.isCommit(request.deployedSource) || !h.isCommit(request.targetSource)
              || !h.isEvidence(request.evidenceId) || !h.isImage(request.imageId)
    ensures r == Err(Refused) ==> disk.files == old(disk.files) && disk.trace == old(disk.trace)
    ensures r != Err(Refused) ==> NeverMisleads(h, disk.trace, |old(disk.trace)|, snapshot, metadata)
    ensures r.Err? && r.error != CleanupFailed && r.error != Refused ==>
        snapshot !in disk.files && metadata !in disk.files
    ensures r.Ok? ==>
        Published(h, disk.files, snapshot, metadata, r.value) && Asked(r.value, request) && h.isImage(r.value.imageId)
    ensures r != Err(Refused) && disk.reliable && temporary !in old(disk.files) ==>
        Taken(h, old(disk.files[source]), disk.files, snapshot, r)
  {
    if !IsRaw(disk.files, source) { return Err(Refused); }
    if snapshot == source || metadata == source || metadata == snapshot { return Err(Refused); }
    if snapshot in disk.files || metadata in disk.files { return Err(Refused); }
    if !h.isCommit(request.deployedSource) || !h.isCommit(request.targetSource)
      || !h.isEvidence(request.evidenceId) || !h.isImage(request.imageId) {
      return Err(Refused);
    }
    var fails := disk.Fails();  // creating the directory
    if fails { return Err(CallFailed); }
    r := CaptureUnguarded(h, disk, source, snapshot, metadata, temporary, request);
    if r.Err? {
      var first := disk.Unlink(snapshot);
      if !first { return Err(CleanupFailed); }
      var second := disk.Unlink(metadata);
      if !second { return Err(CleanupFailed); }
    }
  }

  /** On a reliable disk the outcome is up to the database: a sound one, whose backup is sound
      and readable, is captured, and the snapshot is its backup. */
  predicate Taken(h: Host, source: Content, files: Files, snapshot: Path, r: Result<Document, Failure>) {
    && source.Raw?
    && var image := h.backup(source.bytes);
    && (r.Ok? <==> h.quickCheck(source.bytes) && h.quickCheck(image) && h.runtime(image).Some?)
    && (r.Ok? ==> snapshot in files && files[snapshot] == Raw(image))
  }

  predicate Published(h: Host, files: Files, snapshot: Path, metadata: Path, d: Document) {
    && IsRaw(files, snapshot) && Describes(h, d, files[snapshot].bytes) && d.snapshotName == h.name(snapshot)
    && metadata in files && files[metadata] == Json(d)
  }

  method CaptureUnguarded(h: Host, disk: Disk, source: Path, snapshot: Path, metadata: Path, temporary: Path,
      request: Request)
    returns (r: Result<Document, Failure>)
    requires disk.Recorded() && IsRaw(disk.files, source) && temporary !in {source, snapshot, metadata}
    requires snapshot != source && metadata != source && metadata != snapshot && metadata !in disk.files
    modifies disk
    ensures disk.Recorded() && |disk.trace| >= |old(disk.trace)|
    ensures Untouched(old(disk.files), disk.trace, |old(disk.trace)|, {snapshot, metadata, temporary})
    ensures NeverMisleads(h, disk.trace, |old(disk.trace)|, snapshot, metadata)
    ensures metadata in disk.files ==>
              disk.files[metadata].Json? && IsRaw(disk.files, snapshot)
                && Describes(h, disk.files[metadata].document, disk.files[snapshot].bytes)
    ensures SameElsewhere(old(disk.files), disk.files, {snapshot, metadata, temporary})
    ensures r.Ok? ==> Published(h, disk.files, snapshot, metadata, r.value) && Asked(r.value, request)
    ensures r.Err? ==> r.error == CallFailed || r.error == Corrupted
    ensures disk.reliable && temporary !in old(disk.files) ==>
        Taken(h, old(disk.files[source]), disk.files, snapshot, r)
  {
    hide Describes, Asked, NeverMisleads, Untouched;
    ghost var start, began := disk.files, |disk.trace|;
    var taken := TakeImage(h, disk, source, snapshot, request);
    ghost var before, from := disk.files, |disk.trace|;
    NoMetadataYet(h, start, disk.trace, began, snapshot, metadata, temporary);
    if taken.Err? { return taken; }
    var published := AtomicJson(disk, metadata, temporary, taken.value);
    ImageStays(h, before, disk.trace, from, snapshot, metadata, temporary, taken.value);
    TraceGoesOn(h, start, before, disk.trace, began, from, snapshot, metadata, temporary);
    if published.Err? { return Err(published.error); }
    return taken;
  }

  /** As long as only the snapshot is written nothing misleads. */
  lemma NoMetadataYet(h: Host, start: Files, trace: seq<Files>, began: nat, snapshot: Path, metadata: Path,
      temporary: Path)
    requires Untouched(start, trace, began, {snapshot}) && metadata !in start && metadata != snapshot
    ensures NeverMisleads(h, trace, began, snapshot, metadata)
    ensures Untouched(start, trace, began, {snapshot, metadata, temporary})
  {
    forall i | began <= i < |trace|
      ensures metadata !in trace[i] && SameElsewhere(start, trace[i], {snapshot, metadata, temporary})
    {
      assert SameElsewhere(start, trace[i], {snapshot});
    }
  }

  lemma TraceGoesOn(h: Host, start: Files, before: Files, trace: seq<Files>, began: nat, from: nat, snapshot: Path,
      metadata: Path, temporary: Path)
    requires began <= from <= |trace| && SameElsewhere(start, before, {snapshot})
    requires Untouched(start, trace[..from], began, {snapshot, metadata, temporary})
    requires Untouched(before, trace, from, {metadata, temporary})
    requires NeverMisleads(h, trace[..from], began, snapshot, metadata)
        && NeverMisleads(h, trace, from, snapshot, metadata)
    ensures Untouched(start, trace, began, {snapshot, metadata, temporary})
        && NeverMisleads(h, trace, began, snapshot, metadata)
  {
    forall i | began <= i < |trace| ensures SameElsewhere(start, trace[i], {snapshot, metadata, temporary}) {
      if i < from {
        assert trace[i] == trace[..from][i];
      } else {
        assert SameElsewhere(before, trace[i], {metadata, temporary});
      }
    }
    forall i | began <= i < from ensures trace[i] == trace[..from][i] {}
    hide Describes, SameElsewhere;
  }

  lemma ImageStays(h: Host, before: Files, trace: seq<Files>, from: nat, snapshot: Path, metadata: Path,
      temporary: Path, d: Document)
    requires snapshot != metadata && snapshot != temporary && IsRaw(before, snapshot)
        && Describes(h, d, before[snapshot].bytes)
    requires from <= |trace| && Untouched(before, trace, from, {metadata, temporary})
    requires forall i :: from <= i < |trace| && metadata in trace[i] ==> trace[i][metadata] == Json(d)
    ensures NeverMisleads(h, trace, from, snapshot, metadata)
  {
    forall i | from <= i < |trace| ensures snapshot in trace[i] && trace[i][snapshot] == before[snapshot] {
      assert SameElsewhere(before, trace[i], {metadata, temporary});
    }
  }

  /** Copies the database through SQLite's backup and describes the copy. */
  method TakeImage(h: Host, disk: Disk, source: Path, snapshot: Path, request: Request)
    returns (r: Result<Document, Failure>)
    requires disk.Recorded() && IsRaw(disk.files, source) && snapshot != source
    modifies disk
    ensures disk.Recorded() && |disk.trace| >= |old(disk.trace)| && disk.trace[..|old(disk.trace)|] == old(disk.trace)
    ensures Untouched(old(disk.files), disk.trace, |old(disk.trace)|, {snapshot})
    ensures SameElsewhere(old(disk.files), disk.files, {snapshot})
    ensures r.Ok? ==>
              && IsRaw(disk.files, snapshot) && Describes(h, r.value, disk.files[snapshot].bytes)
              && r.value.snapshotName == h.name(snapshot) && Asked(r.value, request)
    ensures r.Err? ==> r.error == CallFailed || r.error == Corrupted
    ensures disk.reliable ==> Taken(h, old(disk.files[source]), disk.files, snapshot, r)
  {
    var connected := disk.Write(snapshot, []);
    if !connected { return Err(CallFailed); }
    if !h.quickCheck(disk.files[source].bytes) { return Err(Corrupted); }
    var copied := disk.Write(snapshot, h.backup(disk.files[source].bytes));
    if !copied { return Err(CallFailed); }
    var fails := disk.Fails();  // chmod
    if fails { return Err(CallFailed); }
    var image := disk.files[snapshot].bytes;
    if !h.quickCheck(image) { return Err(Corrupted); }
    fails := disk.Fails();  // fsync
    if fails { return Err(CallFailed); }
    var runtime := h.runtime(image);
    if runtime.None? { return Err(Corrupted); }
    return Ok(Document(SCHEMA_VERSION, KIND, "ok", "ok", h.name(snapshot), h.sha256(image), |image|, runtime.value,
                       request.deployedSource, request.targetSource, request.evidenceId, request.imageId));
  }

  // ---- restore ----

  /** `_load_metadata` accepts the file. */
  predicate Loadable(h: Host, files: Files, metadata: Path) {
    metadata in files && files[metadata].Json? &&
    var d := files[metadata].document;
    d.schema == SCHEMA_VERSION && d.kind == KIND && d.sourceCheck == "ok" && d.snapshotCheck == "ok"
      && h.isImage(d.imageId)
  }

  /** The queue and the stream sequences have not moved; the revision may have. */
  predicate SameProgress(a: Runtime, b: Runtime) {
    a.count == b.count && a.highWater == b.highWater && a.streams == b.streams
  }

  /** Everything that `restore` insists on before it writes. */
  predicate Restorable(h: Host, files: Files, snapshot: Path, metadata: Path, destination: Path, sidecars: set<Path>,
      expected: Request) {
    && IsRaw(files, snapshot) && Loadable(h, files, metadata)
    && var d, image := files[metadata].document, files[snapshot].bytes;
    && d.deployedSource == expected.deployedSource && d.targetSource == expected.targetSource
      && d.evidenceId == expected.evidenceId
    && d.snapshotName == h.name(snapshot) && Describes(h, d, image)
    && IsRaw(files, destination) && (forall p :: p in sidecars ==> p !in files)
    && h.runtime(files[destination].bytes).Some? && SameProgress(h.runtime(files[destination].bytes).value, d.runtime)
  }

  /** Content that passed every check against the document. */
  predicate Accepted(h: Host, d: Document, c: Content) {
    c.Raw? && h.quickCheck(c.bytes) && h.runtime(c.bytes) == Some(d.runtime) && h.sha256(c.bytes) == d.sha
  }

  /** At every instant the destination is its old self or fully accepted content. */
  ghost predicate AlwaysWhole(h: Host, d: Document, was: Content, trace: seq<Files>, from: nat, destination: Path) {
    forall i :: from <= i < |trace| ==>
      destination in trace[i] && (trace[i][destination] == was || Accepted(h, d, trace[i][destination]))
  }

  /** `restore` refuses exactly when the state is not restorable, and then changes
      nothing; otherwise the destination is whole at every instant. */
  method Restore(h: Host, disk: Disk, snapshot: Path, metadata: Path, destination: Path, sidecars: set<Path>,
      temporary: Path, expected: Request)
    returns (r: Result<Document, Failure>)
    requires disk.Recorded() && temporary !in {snapshot, metadata, destination}
    modifies disk
    ensures disk.Recorded() && |disk.trace| >= |old(disk.trace)|
    ensures r == Err(Refused) <==> !Restorable(h, old(disk.files), snapshot, metadata, destination, sidecars, expected)
    ensures r == Err(Refused) ==> disk.files == old(disk.files) && disk.trace == old(disk.trace)
    ensures r != Err(Refused) ==>
              && Untouched(old(disk.files), disk.trace, |old(disk.trace)|, {destination, temporary})
              && AlwaysWhole(h, old(disk.files[metadata]).document, old(disk.files[destination]), disk.trace,
                |old(disk.trace)|, destination)
    ensures r.Ok? ==>
              && r.value == old(disk.files[metadata]).document
              && destination in disk.files && Accepted(h, r.value, disk.files[destination])
              && temporary !in disk.files
    ensures r != Err(Refused) && disk.reliable && temporary !in old(disk.files) ==>
        r.Ok? && disk.files[destination] == old(disk.files[snapshot])
  {
    if !IsRaw(disk.files, snapshot) || !Loadable(h, disk.files, metadata) { return Err(Refused); }
    var document := disk.files[metadata].document;
    if document.deployedSource != expected.deployedSource || document.targetSource != expected.targetSource
       || document.evidenceId != expected.evidenceId || h.name(snapshot) != document.snapshotName {
      return Err(Refused);
    }
    var image := disk.files[snapshot].bytes;
    if |image| != document.bytes || h.sha256(image) != document.sha || !h.quickCheck(image) { return Err(Refused); }
    var runtime := h.runtime(image);
    if runtime != Some(document.runtime) { return Err(Refused); }
    if !IsRaw(disk.files, destination) { return Err(Refused); }
    if exists p :: p in sidecars && p in disk.files { return Err(Refused); }
    var current := h.runtime(disk.files[destination].bytes);
    if current == None || !SameProgress(current.value, document.runtime) { return Err(Refused); }
    r := ReplaceDatabase(h, disk, document, image, destination, temporary);
    var gone := disk.Unlink(temporary);
    if !gone { return Err(CallFailed); }
  }

  method ReplaceDatabase(h: Host, disk: Disk, document: Document, image: Bytes, destination: Path, temporary: Path)
    returns (r: Result<Document, Failure>)
    requires disk.Recorded() && temporary != destination && destination in disk.files
    modifies disk
    ensures disk.Recorded() && |disk.trace| >= |old(disk.trace)|
    ensures Untouched(old(disk.files), disk.trace, |old(disk.trace)|, {destination, temporary})
    ensures SameElsewhere(old(disk.files), disk.files, {destination, temporary})
    ensures AlwaysWhole(h, document, old(disk.files[destination]), disk.trace, |old(disk.trace)|, destination)
    ensures destination in disk.files
    ensures disk.files[destination] == old(disk.files[destination]) || Accepted(h, document, disk.files[destination])
    ensures r.Ok? ==> r.value == document && Accepted(h, document, disk.files[destination])
    ensures r.Err? ==> r.error == CallFailed || r.error == Corrupted
    ensures disk.reliable && temporary !in old(disk.files) && Accepted(h, document, Raw(image)) ==>
        r.Ok? && disk.files[destination] == Raw(image)
  {
    if temporary in disk.files { return Err(CallFailed); }
    var copied := disk.Write(temporary, image);
    if !copied { return Err(CallFailed); }
    var fails := disk.Fails();  // fsync, chown or chmod
    if fails { return Err(CallFailed); }
    var written := disk.files[temporary].bytes;
    if !h.quickCheck(written) || h.runtime(written) != Some(document.runtime) || h.sha256(written) != document.sha {
      return Err(Corrupted);
    }
    var replaced := disk.Replace(temporary, destination);
    if !replaced { return Err(CallFailed); }
    fails := disk.Fails();  // fsync of the directory
    if fails { return Err(CallFailed); }
    var final := disk.files[destination].bytes;
    if !h.quickCheck(final) || h.runtime(final) != Some(document.runtime) || h.sha256(final) != document.sha {
      return Err(Corrupted);
    }
    return Ok(document);
  }

  // ---- the two together ----

  /** The stopped database is there, without sidecars, and its queue and streams are where
      they were. */
  predicate StoodStill(h: Host, files: Files, destination: Path, sidecars: set<Path>, was: Runtime) {
    && IsRaw(files, destination) && (forall p :: p in sidecars ==> p !in files)
    && h.runtime(files[destination].bytes).Some?
    && var now := h.runtime(files[destination].bytes).value;
    && now.count == was.count && now.highWater == was.highWater && now.streams == was.streams
  }

  /** What can be restored: one document only goes with an image and a request, but for the
      image id of the container, and the stopped database must have stood still. */
  lemma RestorableExactly(h: Host, files: Files, snapshot: Path, metadata: Path, destination: Path,
      sidecars: set<Path>, expected: Request)
    ensures Restorable(h, files, snapshot, metadata, destination, sidecars, expected) <==>
              && IsRaw(files, snapshot) && metadata in files && files[metadata].Json?
              && var (image, d) := (files[snapshot].bytes, files[metadata].document);
              && h.quickCheck(image) && h.runtime(image).Some? && h.isImage(d.imageId)
              && d == Document(1, "nexolab-edge-sqlite-pre-cutover", "ok", "ok", h.name(snapshot), h.sha256(image),
                |image|, h.runtime(image).value, expected.deployedSource, expected.targetSource, expected.evidenceId,
                d.imageId)
              && StoodStill(h, files, destination, sidecars, h.runtime(image).value)
  {
  }

  /** What a capture published can be restored exactly as long as queue and streams stand
      still. */
  lemma CapturedIsRestorable(h: Host, files: Files, snapshot: Path, metadata: Path, destination: Path,
      sidecars: set<Path>, d: Document, request: Request)
    requires Published(h, files, snapshot, metadata, d) && Asked(d, request) && h.isImage(d.imageId)
    ensures Restorable(h, files, snapshot, metadata, destination, sidecars, request)
            <==> StoodStill(h, files, destination, sidecars, d.runtime)
  {
  }

  /** Accepted content is the snapshot, byte for byte, unless the digest collides. */
  lemma AcceptedIsSnapshot(h: Host, files: Files, snapshot: Path, metadata: Path, destination: Path,
      sidecars: set<Path>, expected: Request, c: Content)
    requires Restorable(h, files, snapshot, metadata, destination, sidecars, expected)
    requires Accepted(h, files[metadata].document, c)
    requires NoCollision(h, c.bytes, files[snapshot].bytes)
    ensures c == files[snapshot]
  {
  }

  /** The database image has this outbound queue. */
  predicate Queued<T>(h: Host, image: Bytes, q: Queue<T>) {
    h.runtime(image).Some? && h.runtime(image).value.count == |q.rows| && h.runtime(image).value.highWater == q.high
  }

  /** After any history of the queue since the snapshot, a restore that is not refused
      finds exactly the snapshot's rows waiting, so none is lost and none comes back. */
  lemma RestoreLosesNoRow<T>(h: Host, files: Files, snapshot: Path, metadata: Path, destination: Path,
      sidecars: set<Path>, expected: Request, q: Queue<T>, steps: seq<QueueStep<T>>)
    requires Restorable(h, files, snapshot, metadata, destination, sidecars, expected)
    requires WellFormed(q) && Queued(h, files[snapshot].bytes, q)
        && Queued(h, files[destination].bytes, ApplyAll(q, steps))
    ensures ApplyAll(q, steps).rows.Keys == q.rows.Keys
  {
    GuardIsExact(q, steps);
  }

  /** If the image has this queue and the stopped database the queue after this history,
      then they hold the same rows. */
  predicate KeepsRows<T>(h: Host, image: Bytes, stopped: Bytes, q: Queue<T>, steps: seq<QueueStep<T>>) {
    WellFormed(q) && Queued(h, image, q) && Queued(h, stopped, ApplyAll(q, steps)) ==>
      ApplyAll(q, steps).rows.Keys == q.rows.Keys
  }

  predicate NoCollision(h: Host, a: Bytes, b: Bytes) { h.sha256(a) == h.sha256(b) ==> a == b }

  /** The whole way of a rollback on one disk: a capture, any use of the live database, and
      a restore. The restore is refused exactly when the database did not stand still.
      When it succeeds the database is the snapshot again, with the four values that the
      capture recorded, and no queued row was lost or came back. */
  method CaptureUseRestore<T>(h: Host, disk: Disk, database: Path, snapshot: Path, metadata: Path,
      temporaries: (Path, Path), sidecars: set<Path>, request: Request,
      ghost q: Queue<T>, ghost steps: seq<QueueStep<T>>)
    returns (captured: Result<Document, Failure>, restored: Result<Document, Failure>, ghost image: Content,
      ghost stopped: Files)
    requires disk.Recorded() && snapshot !in sidecars && metadata !in sidecars
    requires temporaries.0 !in {database, snapshot, metadata} && temporaries.1 !in {database, snapshot, metadata}
    modifies disk
    ensures captured.Err? ==> restored == Err(Refused)
    ensures captured.Ok? ==>
              && image.Raw? && Describes(h, captured.value, image.bytes)
              && (restored == Err(Refused) <==> !StoodStill(h, stopped, database, sidecars, captured.value.runtime))
    ensures captured.Ok? && disk.reliable && temporaries.0 !in old(disk.files) ==>
        database in old(disk.files) && old(disk.files[database]).Raw?
          && image == Raw(h.backup(old(disk.files[database]).bytes))
    ensures captured.Ok? && disk.reliable && temporaries.1 !in stopped && restored != Err(Refused) ==> restored.Ok?
    ensures captured.Ok? && restored.Ok? ==>
              && restored == captured && IsRaw(disk.files, database) && IsRaw(stopped, database)
              && h.runtime(disk.files[database].bytes) == Some(captured.value.runtime)
              && h.sha256(disk.files[database].bytes) == h.sha256(image.bytes)
              && (NoCollision(h, disk.files[database].bytes, image.bytes) ==> disk.files[database] == image)
    ensures captured.Ok? && restored.Ok? ==> KeepsRows(h, image.bytes, stopped[database].bytes, q, steps)
  {
    hide AlwaysWhole, NeverMisleads, Untouched, SameElsewhere, KeepsRows, Asked, Restorable, SameProgress;
    image, stopped := Raw([]), disk.files;
    captured := Capture(h, disk, database, snapshot, metadata, temporaries.0, request);
    restored := Err(Refused);
    if captured.Err? { return; }
    image := disk.files[snapshot];
    ghost var published := disk.files;
    disk.Operate({database} + sidecars);
    stopped := disk.files;
    PublishedStays(h, published, stopped, snapshot, metadata, {database} + sidecars, captured.value);
    CapturedIsRestorable(h, stopped, snapshot, metadata, database, sidecars, captured.value, request);
    restored := Restore(h, disk, snapshot, metadata, database, sidecars, temporaries.1, request);
    if restored.Ok? { StillRows(h, image.bytes, stopped, database, sidecars, captured.value, q, steps); }
  }

  lemma StillRows<T>(h: Host, image: Bytes, stopped: Files, database: Path, sidecars: set<Path>, d: Document,
      q: Queue<T>, steps: seq<QueueStep<T>>)
    requires Describes(h, d, image) && StoodStill(h, stopped, database, sidecars, d.runtime)
    ensures KeepsRows(h, image, stopped[database].bytes, q, steps)
  {
    if WellFormed(q) { GuardIsExact(q, steps); }
  }

  lemma PublishedStays(h: Host, before: Files, after: Files, snapshot: Path, metadata: Path, used: set<Path>,
      d: Document)
    requires Published(h, before, snapshot, metadata, d) && SameElsewhere(before, after, used)
    requires snapshot !in used && metadata !in used
    ensures Published(h, after, snapshot, metadata, d) && after[snapshot] == before[snapshot]
  {
  }
}
