/** What every reachable state of the commit protocol satisfies, entity by
    entity, and why a step taken for one upload cannot disturb another. */
module CommitInvariant {
  import opened Types
  import opened CommitModel

  // ----- the invariant, one entity at a time -----------------------------------

  ghost predicate RequestOk(request: Request) {
    request.parts != []
    && (forall i :: 0 <= i < |request.parts| ==> request.parts[i].index == i)
    && request.size == PartsSize(request.parts) && request.size <= I64_MAX
    && IsBlake3(request.blake3)
  }

  ghost predicate AccountsOk(db: Db) {
    forall a, b :: a in db.accounts && b in db.accounts && db.accounts[a].path == db.accounts[b].path
      ==> a == b
  }

  ghost predicate Live(commit: Commit) {
    commit == Started || commit == Finalizing || commit == Committed
  }

  ghost function ObjectKey(db: Db, row: Upload): Key
    requires row.account in db.accounts
  {
    ObjectFor(db.accounts[row.account].path, row.request.blake3)
  }

  ghost predicate ObjectGood(cfg: Config, files: Files, key: Key, request: Request) {
    InspectFile(cfg, files, key, request.size, request.blake3) == Matches
  }

  ghost predicate StageGood(cfg: Config, files: Files, staged: Option<Key>, request: Request) {
    staged.Some? && InspectFile(cfg, files, staged.value, request.size, request.blake3) == Matches
  }

  /** The upload still proposes a blob id of its own. */
  ghost predicate Owns(row: Upload) {
    (row.commit == Started || row.commit == Finalizing) && row.staged.Some?
  }

  /** The upload inserted the blob row it names. */
  ghost predicate Created(row: Upload) {
    row.commit == Committed && !row.deduplicated
  }

  ghost predicate ManifestRows(row: Upload) {
    |row.parts| == |row.request.parts|
    && forall i :: 0 <= i < |row.parts| ==> row.parts[i].spec == row.request.parts[i]
  }

  /** A received part is on disk exactly as its manifest entry says. */
  ghost predicate PartsOnDisk(cfg: Config, files: Files, u: Id, row: Upload) {
    forall i :: 0 <= i < |row.parts| && row.parts[i].received ==>
      PartStored(cfg, files, u, row.parts[i].spec)
  }

  /** The part of the row invariant that speaks of rows only. */
  ghost predicate RowDbOk(db: Db, u: Id, row: Upload) {
    && row.account in db.accounts
    && row.asset in db.assets && db.assets[row.asset].account == row.account
    && RequestOk(row.request) && ManifestRows(row)
    && (row.commit != Receiving ==> AllReceived(row))
    && (row.done ==> row.commit == Committed || row.commit == Unknown)
    && (Live(row.commit) ==>
          ReadyCommit(row, db.accounts[row.account].path).Some?
          && row.final.value == ObjectKey(db, row)
          && (row.staged.Some? ==> IsStageOf(db.accounts[row.account].path, u, row.staged.value)))
    && (row.commit == Started ==> row.staged.Some?)
    && (Owns(row) ==> row.blob.value !in db.blobs)
    && (row.commit == Finalizing && row.staged.None? ==>
          IsContent(db, row.blob.value, row.account, row.request.blake3))
    && (row.commit == Committed ==>
          row.done && row.resource.Some?
          && IsSlot(db, row.resource.value, row.asset, row.request.sourceResource)
          && (row.staged.None? ==> row.deduplicated)
          && IsContent(db, row.blob.value, row.account, row.request.blake3)
          && db.blobs[row.blob.value].size == row.request.size)
  }

  /** The part of the row invariant that speaks of files. */
  ghost predicate RowFilesOk(cfg: Config, db: Db, files: Files, u: Id, row: Upload)
    requires row.account in db.accounts
  {
    && PartsOnDisk(cfg, files, u, row)
    && (row.commit == Finalizing && row.staged.Some? ==>
          StageGood(cfg, files, row.staged, row.request)
          || ObjectGood(cfg, files, ObjectKey(db, row), row.request))
    && (row.commit == Committed ==> ObjectGood(cfg, files, ObjectKey(db, row), row.request))
  }

  ghost predicate RowOk(cfg: Config, db: Db, files: Files, u: Id) {
    u in db.uploads ==>
      RowDbOk(db, u, db.uploads[u]) && RowFilesOk(cfg, db, files, u, db.uploads[u])
  }

  ghost predicate BlobOk(cfg: Config, db: Db, b: Id) {
    b in db.blobs ==>
      var blob := db.blobs[b];
      blob.account in db.accounts && Lower(blob.blake3) == blob.blake3
      && blob.key == ObjectFor(db.accounts[blob.account].path, blob.blake3)
      && Real(cfg, blob.size, blob.blake3)
  }

  /** Some content has this size and digest. */
  ghost predicate Real(cfg: Config, size: nat, blake3: string) {
    exists content :: ContentIs(cfg, content, size, blake3)
  }

  ghost predicate ResourceOk(cfg: Config, db: Db, files: Files, r: Id) {
    r in db.resources ==>
      var resource := db.resources[r];
      resource.asset in db.assets && resource.blob in db.blobs
      && db.assets[resource.asset].account == db.blobs[resource.blob].account
      && var blob := db.blobs[resource.blob];
         InspectFile(cfg, files, blob.key, blob.size, blob.blake3) == Matches
  }

  /** An object never holds anything but content of the digest in its key. */
  ghost predicate ObjectOk(cfg: Config, files: Files, key: Key) {
    key.ObjectFile? && key in files ==> cfg.hash(files[key]) == key.digest
  }

  ghost predicate UniqueBlobs(db: Db) {
    forall a, b :: a in db.blobs && b in db.blobs
      && db.blobs[a].account == db.blobs[b].account && db.blobs[a].blake3 == db.blobs[b].blake3
      ==> a == b
  }

  ghost predicate UniqueSlots(db: Db) {
    forall a, b :: a in db.resources && b in db.resources
      && db.resources[a].asset == db.resources[b].asset
      && db.resources[a].source == db.resources[b].source
      ==> a == b
  }

  ghost predicate Owners(db: Db) {
    forall u, v ::
      (u in db.uploads && v in db.uploads && u != v && Owns(db.uploads[u]) && Owns(db.uploads[v]))
      ==> db.uploads[u].blob != db.uploads[v].blob
  }

  ghost predicate Creators(db: Db) {
    forall u, v ::
      (u in db.uploads && v in db.uploads && u != v && Created(db.uploads[u]) && Created(db.uploads[v]))
      ==> db.uploads[u].blob != db.uploads[v].blob
  }

  ghost predicate Issued(s: Sys) {
    && s.db.uploads.Keys <= s.issued && s.db.blobs.Keys <= s.issued
    && s.db.assets.Keys <= s.issued && s.db.resources.Keys <= s.issued
    && s.calls.Keys <= s.issued
    && (forall u :: u in s.db.uploads && s.db.uploads[u].blob.Some? ==> s.db.uploads[u].blob.value in s.issued)
    && (forall c :: c in s.puts ==> s.puts[c].upload in s.issued)
  }

  // ----- what a program counter knows -------------------------------------------

  ghost predicate ReadyOk(db: Db, u: Id, ready: Ready) {
    && ready.account in db.accounts && ready.path == db.accounts[ready.account].path
    && ready.final == ObjectFor(ready.path, ready.request.blake3)
    && RequestOk(ready.request)
    && (ready.staged.Some? ==> IsStageOf(ready.path, u, ready.staged.value))
  }

  /** While the call runs, its snapshot is the row: only this call writes it. */
  ghost predicate SnapshotOf(db: Db, u: Id, ready: Ready, commit: Commit) {
    u in db.uploads ==>
      db.uploads[u].commit == commit && ReadyCommit(db.uploads[u], ready.path) == Some(ready)
  }

  ghost predicate CandidateRow(db: Db, ready: Ready, c: Candidate) {
    IsContent(db, c.id, ready.account, ready.request.blake3) && CandidateOf(c.id, db.blobs[c.id]) == c
  }

  ghost predicate ApprovedOk(db: Db, ready: Ready, attempt: nat, approved: Option<Candidate>) {
    (approved.Some? ==> CandidateRow(db, ready, approved.value) && approved.value.size == ready.request.size)
    && attempt <= 1 && (attempt == 1 ==> approved.Some?)
  }

  ghost predicate PcOk(cfg: Config, db: Db, files: Files, u: Id, pc: Pc) {
    match pc
    case Load(_) => true
    case Reload(account) => u in db.uploads ==> db.uploads[u].commit in {Started, Finalizing}
    case BeginCheck(account, request) =>
      RequestOk(request)
      && (u in db.uploads ==> var row := db.uploads[u];
           row.commit == Receiving && row.account == account && row.request == request)
    case BeginTx(account, request) =>
      RequestOk(request)
      && (u in db.uploads ==> var row := db.uploads[u];
           row.commit == Receiving && row.account == account && row.request == request && AllReceived(row))
    case InspectStarted(ready) => ReadyOk(db, u, ready) && SnapshotOf(db, u, ready, Started)
    case Assemble(ready) =>
      ReadyOk(db, u, ready) && SnapshotOf(db, u, ready, Started) && ready.staged.Some?
    case ToFinalizing(ready) =>
      ReadyOk(db, u, ready) && SnapshotOf(db, u, ready, Started)
      && (u in db.uploads ==>
           StageGood(cfg, files, ready.staged, ready.request) || ObjectGood(cfg, files, ready.final, ready.request))
    case InspectFinal(ready) => ReadyOk(db, u, ready) && SnapshotOf(db, u, ready, Finalizing)
    case InspectStage(ready) =>
      ReadyOk(db, u, ready) && SnapshotOf(db, u, ready, Finalizing) && ready.staged.Some?
      && (u in db.uploads ==> StageGood(cfg, files, ready.staged, ready.request))
    case Publish(ready) =>
      ReadyOk(db, u, ready) && SnapshotOf(db, u, ready, Finalizing) && ready.staged.Some?
      && (u in db.uploads ==> StageGood(cfg, files, ready.staged, ready.request))
    case LoadCandidate(ready, attempt, approved) =>
      ReadyOk(db, u, ready) && SnapshotOf(db, u, ready, Finalizing)
      && (u in db.uploads ==>
           ObjectGood(cfg, files, ready.final, ready.request) && ApprovedOk(db, ready, attempt, approved))
    case CheckCandidate(ready, attempt, c) =>
      ReadyOk(db, u, ready) && SnapshotOf(db, u, ready, Finalizing)
      && (u in db.uploads ==>
           ObjectGood(cfg, files, ready.final, ready.request) && CandidateRow(db, ready, c) && attempt <= 1)
    case MetadataTx(ready, attempt, approved) =>
      ReadyOk(db, u, ready) && SnapshotOf(db, u, ready, Finalizing)
      && (u in db.uploads ==>
           ObjectGood(cfg, files, ready.final, ready.request) && ApprovedOk(db, ready, attempt, approved)
           && (ready.staged.None? ==> approved.Some?))
    case CheckActual(ready, attempt, c) =>
      ReadyOk(db, u, ready) && SnapshotOf(db, u, ready, Finalizing)
      && (u in db.uploads ==>
           ObjectGood(cfg, files, ready.final, ready.request) && CandidateRow(db, ready, c) && attempt == 0)
    case CheckMetadata(ready, _, _) => ReadyOk(db, u, ready) && SnapshotOf(db, u, ready, Committed)
    case CheckObject(ready, _) => ReadyOk(db, u, ready) && SnapshotOf(db, u, ready, Committed)
    case DropStage(ready, _, _) =>
      ReadyOk(db, u, ready) && (u in db.uploads ==> db.uploads[u].commit == Committed)
    case Mark(target) =>
      (target == Unknown || target == Failed)
      && (u in db.uploads ==> Live(db.uploads[u].commit) && (target == Failed ==> db.uploads[u].commit == Started))
    case Returned(_) => true
  }

  /** A running `put_part` works from the manifest and has linked what it says. */
  ghost predicate PutOk(cfg: Config, db: Db, files: Files, put: Put) {
    match put
    case PutChecked(u, spec) =>
      u in db.uploads ==>
        var parts := db.uploads[u].request.parts;
        spec.index < |parts| && parts[spec.index] == spec
    case PutLinked(u, index) =>
      u in db.uploads ==>
        var parts := db.uploads[u].request.parts;
        index < |parts| && PartStored(cfg, files, u, parts[index])
  }

  /** Everything but the objects no row names. */
  ghost predicate Core(cfg: Config, s: Sys) {
    && HashOk(cfg) && AccountsOk(s.db) && Issued(s)
    && UniqueBlobs(s.db) && UniqueSlots(s.db) && Owners(s.db) && Creators(s.db)
    && (forall u :: RowOk(cfg, s.db, s.files, u))
    && (forall b :: BlobOk(cfg, s.db, b))
    && (forall r :: ResourceOk(cfg, s.db, s.files, r))
    && (forall u :: u in s.calls ==> PcOk(cfg, s.db, s.files, u, s.calls[u]))
    && (forall c :: c in s.puts ==> PutOk(cfg, s.db, s.files, s.puts[c]))
  }

  ghost predicate Inv(cfg: Config, s: Sys) {
    Core(cfg, s) && forall key :: ObjectOk(cfg, s.files, key)
  }

  // ----- what other steps leave alone --------------------------------------------

  ghost predicate AccountsKept(db: Db, db': Db) {
    db.accounts.Keys == db'.accounts.Keys
    && forall a :: a in db.accounts ==>
         db'.accounts[a].path == db.accounts[a].path && db'.accounts[a].quota == db.accounts[a].quota
  }

  ghost predicate PartsKept(files: Files, files': Files, u: Id) {
    forall i :: PartFile(u, i) in files ==> PartFile(u, i) in files' && files'[PartFile(u, i)] == files[PartFile(u, i)]
  }

  ghost predicate StageKept(files: Files, files': Files, staged: Option<Key>) {
    staged.Some? ==>
      (staged.value in files <==> staged.value in files')
      && (staged.value in files ==> files'[staged.value] == files[staged.value])
  }

  ghost predicate ObjectKept(files: Files, files': Files, key: Key) {
    key in files ==> key in files' && files'[key] == files[key]
  }

  ghost predicate ContentKept(db: Db, db': Db, account: Id, blake3: string) {
    forall b :: IsContent(db, b, account, blake3) ==> b in db'.blobs && db'.blobs[b] == db.blobs[b]
  }

  /** A change that upload `u`, its call and its parts do not notice, unless it
      deletes the upload. */
  ghost predicate Keeps(db: Db, files: Files, db': Db, files': Files, u: Id) {
    && AccountsKept(db, db') && PartsKept(files, files', u)
    && (u in db'.uploads ==>
          u in db.uploads
          && var row := db.uploads[u];
          && db'.uploads[u] == row
          && (row.asset in db.assets ==>
                row.asset in db'.assets && db'.assets[row.asset].account == db.assets[row.asset].account)
          && (Live(row.commit) && row.account in db.accounts ==>
                ObjectKept(files, files', ObjectKey(db, row))
                && ContentKept(db, db', row.account, row.request.blake3)
                && StageKept(files, files', row.staged))
          && (row.commit == Committed && row.resource.Some?
              && IsSlot(db, row.resource.value, row.asset, row.request.sourceResource) ==>
                IsSlot(db', row.resource.value, row.asset, row.request.sourceResource))
          && (Owns(row) && row.blob.Some? && row.blob.value !in db.blobs ==> row.blob.value !in db'.blobs))
  }

  lemma KeepsRow(cfg: Config, db: Db, files: Files, db': Db, files': Files, u: Id)
    requires Keeps(db, files, db', files', u) && RowOk(cfg, db, files, u)
    ensures RowOk(cfg, db', files', u)
  {
    if u in db'.uploads {
      var row := db.uploads[u];
      assert ObjectKey(db', row) == ObjectKey(db, row);
      assert RowDbOk(db', u, row);
      forall i | 0 <= i < |row.parts| && row.parts[i].received
        ensures PartStored(cfg, files', u, row.parts[i].spec)
      {
        assert PartStored(cfg, files, u, row.parts[i].spec);
      }
    }
  }

  lemma KeepsPc(cfg: Config, db: Db, files: Files, db': Db, files': Files, u: Id, pc: Pc)
    requires Keeps(db, files, db', files', u) && RowOk(cfg, db, files, u)
    requires PcOk(cfg, db, files, u, pc)
    ensures PcOk(cfg, db', files', u, pc)
  {
    if u in db'.uploads {
      var row := db.uploads[u];
      assert ObjectKey(db', row) == ObjectKey(db, row);
    }
  }

  lemma KeepsPut(cfg: Config, db: Db, files: Files, db': Db, files': Files, put: Put)
    requires put.upload in db'.uploads ==>
      put.upload in db.uploads && db'.uploads[put.upload].request == db.uploads[put.upload].request
    requires PartsKept(files, files', put.upload)
    requires PutOk(cfg, db, files, put)
    ensures PutOk(cfg, db', files', put)
  {
  }
}
