/** Every step of a completion keeps the invariant. A step's effect on the
    upload itself is checked program counter by program counter; its effect on
    everything else is framed once, for all of them. */
module CommitSteps {
  import opened Types
  import opened CommitModel
  import opened CommitInvariant

  ghost predicate SameIdentity(row: Upload, row': Upload) {
    row'.account == row.account && row'.device == row.device && row'.asset == row.asset
    && row'.request == row.request && row'.parts == row.parts
  }

  ghost predicate RowEffectOk(db: Db, u: Id, e: Effect, uuid: Id) {
    e.row.Some? ==>
      u in db.uploads
      && var row, row' := db.uploads[u], e.row.value;
         SameIdentity(row, row')
         && (row'.blob == row.blob || (row'.blob.Some? && (row'.blob.value == uuid || row'.blob.value in db.blobs)))
         && (Owns(row') ==> ((Owns(row) && row'.blob == row.blob) || row'.blob == Some(uuid)))
         && (Created(row') ==>
               ((Created(row) && row'.blob == row.blob) || (e.blob.Some? && row'.blob == Some(e.blob.value.0))))
  }

  ghost predicate BlobEffectOk(cfg: Config, db: Db, u: Id, e: Effect) {
    e.blob.Some? ==>
      var (b, blob) := e.blob.value;
      u in db.uploads && Owns(db.uploads[u]) && db.uploads[u].blob == Some(b)
      && e.row.Some? && !Owns(e.row.value)
      && b !in db.blobs && (forall k :: !IsContent(db, k, blob.account, blob.blake3))
      && blob.account in db.accounts && Lower(blob.blake3) == blob.blake3
      && blob.key == ObjectFor(db.accounts[blob.account].path, blob.blake3)
      && Real(cfg, blob.size, blob.blake3)
  }

  ghost predicate ResourceEffectOk(cfg: Config, db: Db, files: Files, db': Db, e: Effect, uuid: Id) {
    e.resource.Some? ==>
      var (r, resource) := e.resource.value;
      resource.asset in db.assets && resource.blob in db'.blobs
      && db'.blobs[resource.blob].account == db.assets[resource.asset].account
      && (var blob := db'.blobs[resource.blob];
          InspectFile(cfg, files, blob.key, blob.size, blob.blake3) == Matches)
      && (IsSlot(db, r, resource.asset, resource.source)
          || (r == uuid && r !in db.resources && forall k :: !IsSlot(db, k, resource.asset, resource.source)))
  }

  ghost predicate FileEffectOk(cfg: Config, files: Files, u: Id, e: Effect) {
    && (e.write.Some? ==>
          var (key, content) := e.write.value;
          (key.StageFile? && key.upload == u)
          || (key.ObjectFile? && key !in files && cfg.hash(content) == key.digest))
    && (e.remove.Some? ==> e.remove.value.StageFile? && e.remove.value.upload == u)
    && (e.write.None? || e.remove.None?)
  }

  /** What a step may do to rows and files that other uploads can see. */
  ghost predicate EffectOk(cfg: Config, db: Db, files: Files, u: Id, e: Effect, uuid: Id) {
    && RowEffectOk(db, u, e, uuid) && BlobEffectOk(cfg, db, u, e)
    && ResourceEffectOk(cfg, db, files, ApplyDb(db, u, e), e, uuid)
    && FileEffectOk(cfg, files, u, e)
  }

  /** What a step leaves its own upload with. */
  ghost predicate OwnOk(cfg: Config, db: Db, files: Files, u: Id, e: Effect) {
    RowOk(cfg, ApplyDb(db, u, e), ApplyFiles(files, e), u)
    && PcOk(cfg, ApplyDb(db, u, e), ApplyFiles(files, e), u, e.pc)
  }

  // ----- the frame -----------------------------------------------------------------

  lemma FrameKeeps(cfg: Config, db: Db, files: Files, u: Id, e: Effect, uuid: Id, v: Id)
    requires EffectOk(cfg, db, files, u, e, uuid) && v != u && RowOk(cfg, db, files, v) && Owners(db)
    ensures Keeps(db, files, ApplyDb(db, u, e), ApplyFiles(files, e), v)
  {
  }

  lemma FrameOther(cfg: Config, s: Sys, u: Id, e: Effect, uuid: Id, v: Id)
    requires Core(cfg, s) && EffectOk(cfg, s.db, s.files, u, e, uuid) && v != u
    ensures Keeps(s.db, s.files, ApplyDb(s.db, u, e), ApplyFiles(s.files, e), v)
  {
    assert RowOk(cfg, s.db, s.files, v);
    hide Core, EffectOk, Keeps, RowOk, Owners;
    FrameKeeps(cfg, s.db, s.files, u, e, uuid, v);
  }

  lemma FrameResource(cfg: Config, s: Sys, u: Id, e: Effect, uuid: Id, r: Id)
    requires Core(cfg, s) && EffectOk(cfg, s.db, s.files, u, e, uuid)
    ensures ResourceOk(cfg, ApplyDb(s.db, u, e), ApplyFiles(s.files, e), r)
  {
    hide UniqueBlobs, UniqueSlots, Creators, Owners, PcOk, PutOk, Issued;
    assert ResourceOk(cfg, s.db, s.files, r);
    if r in s.db.resources {
      assert BlobOk(cfg, s.db, s.db.resources[r].blob);
    }
    if e.resource.Some? && r == e.resource.value.0 {
      var b := e.resource.value.1.blob;
      if b in s.db.blobs {
        assert BlobOk(cfg, s.db, b);
      }
    }
  }

  lemma FrameTables(cfg: Config, db: Db, files: Files, u: Id, e: Effect, uuid: Id)
    requires EffectOk(cfg, db, files, u, e, uuid) && UniqueBlobs(db) && UniqueSlots(db)
    ensures UniqueBlobs(ApplyDb(db, u, e)) && UniqueSlots(ApplyDb(db, u, e))
  {
    hide RowEffectOk, FileEffectOk;
    assert forall b :: b in db.blobs ==> IsContent(db, b, db.blobs[b].account, db.blobs[b].blake3);
    assert forall r :: r in db.resources ==> IsSlot(db, r, db.resources[r].asset, db.resources[r].source);
  }

  lemma FrameOwners(cfg: Config, s: Sys, u: Id, e: Effect, uuid: Id)
    requires Core(cfg, s) && EffectOk(cfg, s.db, s.files, u, e, uuid) && uuid !in s.issued
    ensures Owners(ApplyDb(s.db, u, e)) && Creators(ApplyDb(s.db, u, e))
  {
    hide FileEffectOk, ResourceEffectOk, UniqueBlobs, UniqueSlots, BlobOk, ResourceOk, PcOk, PutOk;
    var db' := ApplyDb(s.db, u, e);
    forall v, w | v in db'.uploads && w in db'.uploads && v != w && Created(db'.uploads[v]) && Created(db'.uploads[w])
      ensures db'.uploads[v].blob != db'.uploads[w].blob
    {
      assert RowOk(cfg, s.db, s.files, v) && RowOk(cfg, s.db, s.files, w);
    }
  }

  lemma FrameUnique(cfg: Config, s: Sys, u: Id, e: Effect, uuid: Id)
    requires Core(cfg, s) && EffectOk(cfg, s.db, s.files, u, e, uuid) && uuid !in s.issued
    ensures var db' := ApplyDb(s.db, u, e);
            UniqueBlobs(db') && UniqueSlots(db') && Owners(db') && Creators(db')
  {
    hide EffectOk, UniqueBlobs, UniqueSlots, Owners, Creators, RowOk, BlobOk, ResourceOk, PcOk, PutOk;
    FrameTables(cfg, s.db, s.files, u, e, uuid);
    FrameOwners(cfg, s, u, e, uuid);
  }

  lemma FramePut(cfg: Config, s: Sys, u: Id, e: Effect, uuid: Id, c: Id)
    requires Core(cfg, s) && EffectOk(cfg, s.db, s.files, u, e, uuid) && c in s.puts
    ensures PutOk(cfg, ApplyDb(s.db, u, e), ApplyFiles(s.files, e), s.puts[c])
  {
    KeepsPut(cfg, s.db, s.files, ApplyDb(s.db, u, e), ApplyFiles(s.files, e), s.puts[c]);
  }

  lemma FrameAll(cfg: Config, s: Sys, u: Id, uuid: Id, fault: Fault)
    requires Core(cfg, s) && u in s.calls && uuid !in s.issued
    requires var e := Act(cfg, s.db, s.files, u, s.calls[u], Choice(uuid, fault));
             EffectOk(cfg, s.db, s.files, u, e, uuid) && OwnOk(cfg, s.db, s.files, u, e)
    ensures Core(cfg, Advance(cfg, s, u, Choice(uuid, fault)))
  {
    var e := Act(cfg, s.db, s.files, u, s.calls[u], Choice(uuid, fault));
    var s' := Advance(cfg, s, u, Choice(uuid, fault));
    FrameUnique(cfg, s, u, e, uuid);
    forall v ensures RowOk(cfg, s'.db, s'.files, v) {
      if v != u {
        FrameOther(cfg, s, u, e, uuid, v);
        KeepsRow(cfg, s.db, s.files, s'.db, s'.files, v);
      }
    }
    forall v | v in s'.calls ensures PcOk(cfg, s'.db, s'.files, v, s'.calls[v]) {
      if v != u {
        FrameOther(cfg, s, u, e, uuid, v);
        KeepsPc(cfg, s.db, s.files, s'.db, s'.files, v, s.calls[v]);
      }
    }
    forall b ensures BlobOk(cfg, s'.db, b) {
      assert BlobOk(cfg, s.db, b);
    }
    forall r ensures ResourceOk(cfg, s'.db, s'.files, r) {
      FrameResource(cfg, s, u, e, uuid, r);
    }
    forall c | c in s'.puts ensures PutOk(cfg, s'.db, s'.files, s'.puts[c]) {
      FramePut(cfg, s, u, e, uuid, c);
    }
    IssuedKept(cfg, s, u, uuid, fault);
  }

  lemma IssuedKept(cfg: Config, s: Sys, u: Id, uuid: Id, fault: Fault)
    requires Core(cfg, s) && u in s.calls
    requires EffectOk(cfg, s.db, s.files, u, Act(cfg, s.db, s.files, u, s.calls[u], Choice(uuid, fault)), uuid)
    ensures Issued(Advance(cfg, s, u, Choice(uuid, fault)))
  {
    var e := Act(cfg, s.db, s.files, u, s.calls[u], Choice(uuid, fault));
    var s' := Advance(cfg, s, u, Choice(uuid, fault));
    if e.resource.Some? {
      assert e.resource.value.0 in s.db.resources || e.resource.value.0 == uuid;
    }
    if e.blob.Some? {
      assert e.blob.value.0 in s.issued;
    }
    assert forall v :: v in s'.db.uploads && s'.db.uploads[v].blob.Some? ==> s'.db.uploads[v].blob.value in s'.issued;
  }

  // ----- the steps ------------------------------------------------------------------

  /** The part of the invariant a step of `u` relies on. */
  ghost predicate Ground(cfg: Config, db: Db, files: Files, u: Id, pc: Pc) {
    HashOk(cfg) && AccountsOk(db) && UniqueBlobs(db) && UniqueSlots(db)
    && RowOk(cfg, db, files, u) && PcOk(cfg, db, files, u, pc)
    && (forall b :: BlobOk(cfg, db, b))
  }

  ghost predicate Sound(cfg: Config, db: Db, files: Files, u: Id, e: Effect, uuid: Id) {
    EffectOk(cfg, db, files, u, e, uuid) && OwnOk(cfg, db, files, u, e)
  }

  lemma IdleSound(cfg: Config, db: Db, files: Files, u: Id, pc: Pc, pc': Pc, uuid: Id)
    requires Ground(cfg, db, files, u, pc) && PcOk(cfg, db, files, u, pc')
    ensures Sound(cfg, db, files, u, Goto(pc'), uuid)
  {
    assert ApplyDb(db, u, Goto(pc')) == db;
  }

  lemma LoadSound(cfg: Config, db: Db, files: Files, u: Id, pc: Pc, required: Option<Id>, uuid: Id)
    requires Ground(cfg, db, files, u, pc)
    ensures Sound(cfg, db, files, u, ActLoad(db, u, required), uuid)
  {
    hide UniqueBlobs, UniqueSlots, AccountsOk, BlobOk, HashOk, ActMetadataTx;
    IdleSound(cfg, db, files, u, pc, ActLoad(db, u, required).pc, uuid);
  }

  lemma BeginTxSound(cfg: Config, db: Db, files: Files, u: Id, pc: Pc, uuid: Id)
    requires pc.BeginTx? && Ground(cfg, db, files, u, pc) && uuid !in db.blobs
    ensures Sound(cfg, db, files, u, ActBeginTx(db, u, pc.account, pc.request, uuid), uuid)
  {
    hide UniqueBlobs, UniqueSlots, AccountsOk;
    var existing := FindBlob(db, pc.account, pc.request.blake3);
    if existing.Some? {
      assert BlobOk(cfg, db, existing.value);
    }
    var e := ActBeginTx(db, u, pc.account, pc.request, uuid);
    if e.row.None? {
      IdleSound(cfg, db, files, u, pc, e.pc, uuid);
    } else {
      assert e.row.value.final.value == ObjectKey(db, e.row.value);
      assert ReadyCommit(e.row.value, db.accounts[e.row.value.account].path).Some?;
    }
  }

  lemma AssembledContent(cfg: Config, db: Db, files: Files, u: Id, pc: Pc, uuid: Id)
    requires pc.Assemble? && Ground(cfg, db, files, u, pc)
    ensures Sound(cfg, db, files, u, ActAssemble(cfg, files, u, pc.ready), uuid)
  {
    var e := ActAssemble(cfg, files, u, pc.ready);
    var db', files' := ApplyDb(db, u, e), ApplyFiles(files, e);
    assert db' == db;
    assert PartsKept(files, files', u);
    assert RowOk(cfg, db, files', u) by {
      if u in db.uploads {
        var row := db.uploads[u];
        forall i | 0 <= i < |row.parts| && row.parts[i].received
          ensures PartStored(cfg, files', u, row.parts[i].spec)
        {
          assert PartStored(cfg, files, u, row.parts[i].spec);
        }
      }
    }
  }

  lemma ToFinalizingSound(cfg: Config, db: Db, files: Files, u: Id, pc: Pc, uuid: Id)
    requires pc.ToFinalizing? && Ground(cfg, db, files, u, pc)
    ensures Sound(cfg, db, files, u, ActToFinalizing(db, u, pc.ready), uuid)
  {
    hide UniqueBlobs, UniqueSlots, AccountsOk, BlobOk, HashOk;
  }

  lemma PublishSound(cfg: Config, db: Db, files: Files, u: Id, pc: Pc, fault: Fault, uuid: Id)
    requires pc.Publish? && Ground(cfg, db, files, u, pc)
    ensures Sound(cfg, db, files, u, ActPublish(cfg, files, u, pc.ready, fault), uuid)
  {
    var e := ActPublish(cfg, files, u, pc.ready, fault);
    var files' := ApplyFiles(files, e);
    assert ApplyDb(db, u, e) == db;
    if u in db.uploads {
      var row := db.uploads[u];
      forall i | 0 <= i < |row.parts| && row.parts[i].received
        ensures PartStored(cfg, files', u, row.parts[i].spec)
      {
        assert PartStored(cfg, files, u, row.parts[i].spec);
      }
    }
  }

  lemma LoadCandidateSound(cfg: Config, db: Db, files: Files, u: Id, pc: Pc, uuid: Id)
    requires pc.LoadCandidate? && Ground(cfg, db, files, u, pc)
    ensures Sound(cfg, db, files, u, ActLoadCandidate(db, pc.ready, pc.attempt, pc.approved), uuid)
  {
    IdleSound(cfg, db, files, u, pc, ActLoadCandidate(db, pc.ready, pc.attempt, pc.approved).pc, uuid);
  }

  /** A metadata transaction that writes nothing only moves the call on. */
  lemma MetadataStays(cfg: Config, db: Db, files: Files, u: Id, pc: Pc, uuid: Id)
    requires pc.MetadataTx? && Ground(cfg, db, files, u, pc)
    requires ActMetadataTx(db, u, pc.ready, pc.attempt, pc.approved, uuid).row.None?
    ensures var e := ActMetadataTx(db, u, pc.ready, pc.attempt, pc.approved, uuid);
      e == Goto(e.pc) && PcOk(cfg, db, files, u, e.pc)
  {
    hide BlobOk, AccountsOk, UniqueSlots, HashOk, RowFilesOk;
  }

  lemma MetadataTxSound(cfg: Config, db: Db, files: Files, u: Id, pc: Pc, uuid: Id)
    requires pc.MetadataTx? && Ground(cfg, db, files, u, pc) && uuid !in db.resources
    ensures Sound(cfg, db, files, u, ActMetadataTx(db, u, pc.ready, pc.attempt, pc.approved, uuid), uuid)
  {
    var e := ActMetadataTx(db, u, pc.ready, pc.attempt, pc.approved, uuid);
    hide Ground, ActMetadataTx, Sound;
    if e.row.None? {
      MetadataStays(cfg, db, files, u, pc, uuid);
      IdleSound(cfg, db, files, u, pc, e.pc, uuid);
    } else {
      MetadataCommitSound(cfg, db, files, u, pc, uuid);
    }
  }

  /** The blob a committing upload ends with: its own new row over its own
      object, or the account's existing row of this content, whose size and
      object were checked. */
  lemma MetadataBlob(cfg: Config, db: Db, files: Files, u: Id, pc: Pc, uuid: Id)
    requires pc.MetadataTx? && Ground(cfg, db, files, u, pc)
    requires ActMetadataTx(db, u, pc.ready, pc.attempt, pc.approved, uuid).row.Some?
    ensures u in db.uploads
    ensures var e := ActMetadataTx(db, u, pc.ready, pc.attempt, pc.approved, uuid);
            var db' := ApplyDb(db, u, e);
            var ready := pc.ready;
            && BlobEffectOk(cfg, db, u, e)
            && e.row.value.blob.Some?
            && IsContent(db', e.row.value.blob.value, ready.account, ready.request.blake3)
            && db'.blobs[e.row.value.blob.value].size == ready.request.size
            && db'.blobs[e.row.value.blob.value].key == ready.final
            && e.row.value.final == Some(ready.final)
            && (e.blob.None? ==> e.row.value.blob.value in db.blobs)
            && (e.blob.Some? ==> e.row.value.blob == Some(e.blob.value.0))
            && (!e.row.value.deduplicated ==> e.blob.Some? && ready.staged.Some?)
  {
    var ready := pc.ready;
    var existing := FindBlob(db, ready.account, ready.request.blake3);
    if existing.Some? {
      assert BlobOk(cfg, db, existing.value);
      if pc.approved.Some? {
        assert IsContent(db, pc.approved.value.id, ready.account, ready.request.blake3);
        assert pc.approved.value.id == existing.value;
      }
    }
  }

  lemma MetadataResource(cfg: Config, db: Db, files: Files, u: Id, pc: Pc, uuid: Id)
    requires pc.MetadataTx? && Ground(cfg, db, files, u, pc) && uuid !in db.resources
    requires ActMetadataTx(db, u, pc.ready, pc.attempt, pc.approved, uuid).row.Some?
    ensures var e := ActMetadataTx(db, u, pc.ready, pc.attempt, pc.approved, uuid);
            ResourceEffectOk(cfg, db, files, ApplyDb(db, u, e), e, uuid)
  {
    MetadataBlob(cfg, db, files, u, pc, uuid);
    var slot := FindResource(db, pc.ready.asset, pc.ready.request.sourceResource);
  }

  lemma MetadataCommitSound(cfg: Config, db: Db, files: Files, u: Id, pc: Pc, uuid: Id)
    requires pc.MetadataTx? && Ground(cfg, db, files, u, pc) && uuid !in db.resources
    requires ActMetadataTx(db, u, pc.ready, pc.attempt, pc.approved, uuid).row.Some?
    ensures Sound(cfg, db, files, u, ActMetadataTx(db, u, pc.ready, pc.attempt, pc.approved, uuid), uuid)
  {
    var e := ActMetadataTx(db, u, pc.ready, pc.attempt, pc.approved, uuid);
    MetadataBlob(cfg, db, files, u, pc, uuid);
    MetadataResource(cfg, db, files, u, pc, uuid);
    MetadataRow(cfg, db, files, u, pc, uuid);
  }

  lemma MetadataRowDb(cfg: Config, db: Db, files: Files, u: Id, pc: Pc, uuid: Id)
    requires pc.MetadataTx? && Ground(cfg, db, files, u, pc) && uuid !in db.resources
    requires ActMetadataTx(db, u, pc.ready, pc.attempt, pc.approved, uuid).row.Some?
    ensures var e := ActMetadataTx(db, u, pc.ready, pc.attempt, pc.approved, uuid);
            u in db.uploads && RowDbOk(ApplyDb(db, u, e), u, e.row.value) && RowEffectOk(db, u, e, uuid)
  {
    hide UniqueSlots, AccountsOk, ContentIs, FindBlob, UniqueBlobs, RowFilesOk;
    MetadataBlob(cfg, db, files, u, pc, uuid);
    var e := ActMetadataTx(db, u, pc.ready, pc.attempt, pc.approved, uuid);
    var row, row', db' := db.uploads[u], e.row.value, ApplyDb(db, u, e);
    assert ReadyCommit(row, pc.ready.path) == Some(pc.ready);
    assert ObjectKey(db', row') == ObjectKey(db, row) == pc.ready.final;
  }

  lemma MetadataRow(cfg: Config, db: Db, files: Files, u: Id, pc: Pc, uuid: Id)
    requires pc.MetadataTx? && Ground(cfg, db, files, u, pc) && uuid !in db.resources
    requires ActMetadataTx(db, u, pc.ready, pc.attempt, pc.approved, uuid).row.Some?
    ensures var e := ActMetadataTx(db, u, pc.ready, pc.attempt, pc.approved, uuid);
            RowEffectOk(db, u, e, uuid) && FileEffectOk(cfg, files, u, e) && OwnOk(cfg, db, files, u, e)
  {
    hide UniqueSlots, AccountsOk, ContentIs, FindBlob, UniqueBlobs, FindResource, RowEffectOk, BlobOk;
    MetadataRowDb(cfg, db, files, u, pc, uuid);
    var e := ActMetadataTx(db, u, pc.ready, pc.attempt, pc.approved, uuid);
    var row, row', db' := db.uploads[u], e.row.value, ApplyDb(db, u, e);
    assert ReadyCommit(row, pc.ready.path) == Some(pc.ready);
    assert ObjectKey(db', row') == ObjectKey(db, row) == pc.ready.final;
    assert PartsOnDisk(cfg, files, u, row');
    assert ApplyFiles(files, e) == files;
    hide RowDbOk;
    assert RowFilesOk(cfg, db', files, u, row');
  }

  lemma DropStageSound(cfg: Config, db: Db, files: Files, u: Id, pc: Pc, fault: Fault, uuid: Id)
    requires pc.DropStage? && Ground(cfg, db, files, u, pc)
    ensures Sound(cfg, db, files, u, ActDropStage(files, u, pc.ready, pc.outcome, pc.strict, fault), uuid)
  {
    var e := ActDropStage(files, u, pc.ready, pc.outcome, pc.strict, fault);
    var files' := ApplyFiles(files, e);
    assert ApplyDb(db, u, e) == db;
    if u in db.uploads {
      var row := db.uploads[u];
      forall i | 0 <= i < |row.parts| && row.parts[i].received
        ensures PartStored(cfg, files', u, row.parts[i].spec)
      {
        assert PartStored(cfg, files, u, row.parts[i].spec);
      }
    }
  }

  lemma MarkSound(cfg: Config, db: Db, files: Files, u: Id, pc: Pc, uuid: Id)
    requires pc.Mark? && Ground(cfg, db, files, u, pc)
    ensures Sound(cfg, db, files, u, ActMark(db, u, pc.target), uuid)
  {
    hide UniqueBlobs, UniqueSlots, AccountsOk, BlobOk, HashOk;
  }

  ghost predicate ReadsOnly(pc: Pc) {
    pc.BeginCheck? || pc.InspectStarted? || pc.InspectFinal? || pc.InspectStage? || pc.CheckCandidate?
    || pc.CheckActual? || pc.CheckMetadata? || pc.CheckObject?
  }

  lemma CheckSound(cfg: Config, db: Db, files: Files, u: Id, pc: Pc, ch: Choice)
    requires pc.BeginCheck? || pc.CheckMetadata? || pc.CheckObject?
    requires ch.fault == Works && Ground(cfg, db, files, u, pc)
    ensures var e := Act(cfg, db, files, u, pc, ch); e == Goto(e.pc) && PcOk(cfg, db, files, u, e.pc)
  {
    hide UniqueBlobs, UniqueSlots, AccountsOk, BlobOk, ActMetadataTx, ActBeginTx, ActAssemble, ActPublish, ActLoad,
      ContentIs, CommittedMetadataOk, RowFilesOk, ReadyCommit;
    match pc
    case BeginCheck(_, _) =>
    case CheckMetadata(ready, _, _) =>
    case CheckObject(ready, _) =>
  }

  lemma CandidateSound(cfg: Config, db: Db, files: Files, u: Id, pc: Pc, ch: Choice)
    requires pc.CheckCandidate? || pc.CheckActual?
    requires ch.fault == Works && Ground(cfg, db, files, u, pc)
    ensures var e := Act(cfg, db, files, u, pc, ch); e == Goto(e.pc) && PcOk(cfg, db, files, u, e.pc)
  {
    hide UniqueBlobs, UniqueSlots, AccountsOk, BlobOk, RowOk, ActMetadataTx, ActBeginTx, ActAssemble, ActPublish,
      ActLoad;
    match pc
    case CheckCandidate(ready, attempt, c) =>
    case CheckActual(ready, attempt, c) =>
  }

  lemma InspectSound(cfg: Config, db: Db, files: Files, u: Id, pc: Pc, ch: Choice)
    requires pc.InspectStarted? || pc.InspectFinal? || pc.InspectStage?
    requires ch.fault == Works && Ground(cfg, db, files, u, pc)
    ensures var e := Act(cfg, db, files, u, pc, ch); e == Goto(e.pc) && PcOk(cfg, db, files, u, e.pc)
  {
    hide UniqueBlobs, UniqueSlots, AccountsOk, BlobOk, ActMetadataTx, ActBeginTx, ActAssemble, ActPublish, ActLoad;
    match pc
    case InspectStarted(ready) =>
    case InspectFinal(ready) =>
    case InspectStage(ready) =>
  }

  lemma ReadSound(cfg: Config, db: Db, files: Files, u: Id, pc: Pc, ch: Choice)
    requires ReadsOnly(pc) && ch.fault == Works && Ground(cfg, db, files, u, pc)
    ensures Sound(cfg, db, files, u, Act(cfg, db, files, u, pc, ch), ch.uuid)
  {
    hide Ground, Act, Sound;
    if pc.InspectStarted? || pc.InspectFinal? || pc.InspectStage? {
      InspectSound(cfg, db, files, u, pc, ch);
    } else if pc.CheckCandidate? || pc.CheckActual? {
      CandidateSound(cfg, db, files, u, pc, ch);
    } else {
      CheckSound(cfg, db, files, u, pc, ch);
    }
    IdleSound(cfg, db, files, u, pc, Act(cfg, db, files, u, pc, ch).pc, ch.uuid);
  }

  lemma ErrorSound(cfg: Config, db: Db, files: Files, u: Id, pc: Pc, uuid: Id)
    requires Ground(cfg, db, files, u, pc)
    ensures Sound(cfg, db, files, u, OnError(pc), uuid)
  {
    hide UniqueBlobs, UniqueSlots, AccountsOk, BlobOk, HashOk, RowOk;
    IdleSound(cfg, db, files, u, pc, OnError(pc).pc, uuid);
  }

  lemma StillSound(cfg: Config, db: Db, files: Files, u: Id, pc: Pc, uuid: Id)
    requires Ground(cfg, db, files, u, pc)
    ensures Sound(cfg, db, files, u, Goto(pc), uuid)
  {
    IdleSound(cfg, db, files, u, pc, pc, uuid);
  }

  lemma ReloadSound(cfg: Config, db: Db, files: Files, u: Id, pc: Pc, uuid: Id)
    requires pc.Reload? && Ground(cfg, db, files, u, pc)
    ensures Sound(cfg, db, files, u, ActReload(db, u, pc.account), uuid)
  {
    LoadSound(cfg, db, files, u, pc, Some(pc.account), uuid);
  }

  lemma ActSound(cfg: Config, db: Db, files: Files, u: Id, pc: Pc, ch: Choice)
    requires Ground(cfg, db, files, u, pc) && ch.uuid !in db.blobs && ch.uuid !in db.resources
    ensures Sound(cfg, db, files, u, Act(cfg, db, files, u, pc, ch), ch.uuid)
  {
    hide Sound, Ground, ActLoad, ActReload, ActBeginTx, ActAssemble, ActToFinalizing, ActPublish,
      ActLoadCandidate, ActMetadataTx, ActDropStage, ActMark;
    if ch.fault != Works && !pc.Publish? && !pc.DropStage? && !pc.Returned? {
      ErrorSound(cfg, db, files, u, pc, ch.uuid);
    } else {
      match pc {
        case Load(required) => LoadSound(cfg, db, files, u, pc, required, ch.uuid);
        case BeginTx(_, _) => BeginTxSound(cfg, db, files, u, pc, ch.uuid);
        case Reload(_) => ReloadSound(cfg, db, files, u, pc, ch.uuid);
        case Assemble(_) => AssembledContent(cfg, db, files, u, pc, ch.uuid);
        case ToFinalizing(_) => ToFinalizingSound(cfg, db, files, u, pc, ch.uuid);
        case Publish(_) => PublishSound(cfg, db, files, u, pc, ch.fault, ch.uuid);
        case LoadCandidate(_, _, _) => LoadCandidateSound(cfg, db, files, u, pc, ch.uuid);
        case MetadataTx(_, _, _) => MetadataTxSound(cfg, db, files, u, pc, ch.uuid);
        case DropStage(_, _, _) => DropStageSound(cfg, db, files, u, pc, ch.fault, ch.uuid);
        case Mark(_) => MarkSound(cfg, db, files, u, pc, ch.uuid);
        case Returned(_) => StillSound(cfg, db, files, u, pc, ch.uuid);
        case _ => ReadSound(cfg, db, files, u, pc, ch);
      }
    }
  }

  lemma AdvanceKeepsCore(cfg: Config, s: Sys, u: Id, ch: Choice)
    requires Core(cfg, s) && u in s.calls && ch.uuid !in s.issued
    ensures Core(cfg, Advance(cfg, s, u, ch))
  {
    ActSound(cfg, s.db, s.files, u, s.calls[u], ch);
    FrameAll(cfg, s, u, ch.uuid, ch.fault);
  }

  /** Any step of any completion, with any failure, keeps the invariant. */
  lemma AdvanceKeepsInv(cfg: Config, s: Sys, u: Id, ch: Choice)
    requires Inv(cfg, s) && u in s.calls && ch.uuid !in s.issued
    ensures Inv(cfg, Advance(cfg, s, u, ch))
  {
    AdvanceKeepsCore(cfg, s, u, ch);
    ActSound(cfg, s.db, s.files, u, s.calls[u], ch);
    var e := Act(cfg, s.db, s.files, u, s.calls[u], ch);
    hide Core, Act, OwnOk;
    forall key ensures ObjectOk(cfg, ApplyFiles(s.files, e), key) {
      assert ObjectOk(cfg, s.files, key) && FileEffectOk(cfg, s.files, u, e);
    }
  }
}
