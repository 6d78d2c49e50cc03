/** Runs of the whole server: uploads created, parts put and completions run in
    any interleaving, with failures, cancelled requests, crashes, deletions and
    reclamation between any two steps. */
module CommitRuns {
  import opened Types
  import opened CommitModel
  import opened CommitInvariant
  import opened CommitSteps

  // ----- create_upload -------------------------------------------------------------

  /** What `validate_upload_request` asks of names and metadata. */
  predicate NamesFit(request: Request) {
    request.sourceAsset != "" && request.sourceResource != ""
    && 0 < |request.filename| <= 1024 && 0 < |request.mimeType| <= 255
    && (request.metadata.Some? ==> |request.metadata.value| <= 65536)
  }

  /** `validate_upload_request`. */
  predicate UploadRequestOk(request: Request, maxPart: nat) {
    NamesFit(request) && IsBlake3(request.blake3) && request.parts != []
    && (forall i :: 0 <= i < |request.parts| ==>
          var part := request.parts[i];
          part.index == i && !(part.size == 0 && request.size != 0) && part.size <= maxPart
          && IsBlake3(part.blake3))
    && PartsSize(request.parts) <= U64_MAX && PartsSize(request.parts) == request.size
  }

  predicate IsAsset(db: Db, a: Id, account: Id, device: Id, source: string) {
    a in db.assets && db.assets[a].account == account && db.assets[a].device == device
    && db.assets[a].source == source
  }

  ghost function FindAsset(db: Db, account: Id, device: Id, source: string): (r: Option<Id>)
    ensures r.Some? ==> IsAsset(db, r.value, account, device, source)
  {
    if exists a :: IsAsset(db, a, account, device, source) then
      var a :| IsAsset(db, a, account, device, source); Some(a)
    else None
  }

  /** INSERT INTO assets ... ON CONFLICT DO UPDATE. */
  ghost function UpsertAsset(db: Db, account: Id, device: Id, source: string, uuid: Id): (r: (Db, Id)) {
    var found := FindAsset(db, account, device, source);
    if found.Some? then
      (db.(assets := db.assets[found.value := db.assets[found.value].(trashed := false)]), found.value)
    else
      (db.(assets := db.assets[uuid := Asset(account, device, source, false)]), uuid)
  }

  predicate SameTarget(row: Upload, account: Id, device: Id, request: Request) {
    row.account == account && row.device == device
    && row.request.sourceResource == request.sourceResource && row.request.blake3 == request.blake3
  }

  predicate IsActive(row: Upload) {
    !row.done && row.commit in ACTIVE
  }

  /** `ensure_quota`. */
  ghost predicate CreateQuotaOk(db: Db, account: Id, requested: nat)
    requires account in db.accounts
  {
    var quota := db.accounts[account].quota;
    quota == 0
    || Saturate(MapSum(BlobSizes(db, account)) + MapSum(Reservations(db, account, RESERVING)) + requested) <= quota
  }

  function NewUpload(account: Id, device: Id, asset: Id, request: Request): Upload {
    Upload(account, device, asset, request,
           seq(|request.parts|, i requires 0 <= i < |request.parts| => PartRow(request.parts[i], false)),
           false, Receiving, None, None, None, None, None, None, None, false)
  }

  /** The first transaction of `create_upload`. It keeps only the asset when the
      content is already stored or the upload is already active, and nothing at
      all when it is refused. */
  ghost function CreateTx(cfg: Config, db: Db, account: Id, device: Id, request: Request,
                          assetId: Id, uploadId: Id): Db
  {
    if !UploadRequestOk(request, cfg.maxPart) || account !in db.accounts || !db.accounts[account].enabled
    then db
    else
      var (db', asset) := UpsertAsset(db, account, device, request.sourceAsset, assetId);
      if FindBlob(db, account, request.blake3).Some? then db'
      else if exists u :: u in db.uploads && IsActive(db.uploads[u])
                          && SameTarget(db.uploads[u], account, device, request)
      then db'
      else if request.size > I64_MAX || !CreateQuotaOk(db, account, request.size) then db
      else db'.(uploads := db'.uploads[uploadId := NewUpload(account, device, asset, request)])
  }

  // ----- the other handlers --------------------------------------------------------

  function Received(row: Upload, index: nat): Upload {
    if index < |row.parts| then
      row.(parts := row.parts[index := row.parts[index].(received := true)])
    else row
  }

  /** `delete_asset_permanently`: the row, its resources and its uploads. */
  function DeleteAsset(db: Db, asset: Id): Db {
    db.(assets := db.assets - {asset},
        resources := map r | r in db.resources && db.resources[r].asset != asset :: db.resources[r],
        uploads := map u | u in db.uploads && db.uploads[u].asset != asset :: db.uploads[u])
  }

  /** The condition of the DELETE in `reconcile_orphan_blobs`. */
  ghost predicate Orphan(db: Db, b: Id) {
    b in db.blobs
    && (forall r :: r in db.resources ==> db.resources[r].blob != b)
    && (forall u :: u in db.uploads ==> db.uploads[u].blob != Some(b))
  }

  /** No unfinished commit is bound for this blob's object. The server does not
      check this; module Reclamation shows what happens without it. */
  ghost predicate Unwanted(db: Db, b: Id)
    requires b in db.blobs
  {
    forall u :: u in db.uploads && db.uploads[u].commit in {Started, Finalizing} ==>
      db.uploads[u].final != Some(db.blobs[b].key)
  }

  ghost predicate Unreferenced(db: Db, key: Key) {
    forall u :: u in db.uploads ==> db.uploads[u].staged != Some(key)
  }

  // ----- actions ---------------------------------------------------------------------

  datatype Action =
    | Enable(account: Id, enabled: bool)
    | Create(account: Id, device: Id, request: Request, assetId: Id, uploadId: Id)
    | Attach(asset: Id, blob: Id, source: string, uuid: Id)
    | PutBegin(put: Id, upload: Id, index: nat)
    | PutLink(put: Id, body: Bytes)
    | PutRecord(put: Id)
    | PutDrop(put: Id)
    | Begin(upload: Id, required: Option<Id>)
    | Step(upload: Id, choice: Choice)
    | PartialStage(upload: Id, content: Option<Bytes>)
    | Cancel(upload: Id)
    | Crash
    | Trash(asset: Id, trashed: bool)
    | Delete(asset: Id)
    | Reclaim(blob: Id, rowKept: bool)
    | Sweep(key: Key)

  ghost predicate Enabled(cfg: Config, s: Sys, a: Action) {
    match a
    case Enable(account, _) => account in s.db.accounts
    case Create(_, _, _, assetId, uploadId) =>
      assetId !in s.issued && uploadId !in s.issued && assetId != uploadId
    case Attach(asset, blob, source, uuid) =>
      uuid !in s.issued && asset in s.db.assets && blob in s.db.blobs
      && s.db.assets[asset].account == s.db.blobs[blob].account
      && InspectFile(cfg, s.files, s.db.blobs[blob].key, s.db.blobs[blob].size, s.db.blobs[blob].blake3) == Matches
    case PutBegin(put, upload, index) =>
      put !in s.puts && upload in s.db.uploads && s.db.uploads[upload].commit == Receiving
      && index < |s.db.uploads[upload].parts|
    case PutLink(put, body) =>
      put in s.puts && s.puts[put].PutChecked?
      && ContentIs(cfg, body, s.puts[put].spec.size, s.puts[put].spec.blake3) && |body| <= cfg.maxPart
    case PutRecord(put) => put in s.puts && s.puts[put].PutLinked?
    case PutDrop(put) => put in s.puts
    case Begin(upload, _) => upload in s.issued && upload !in s.calls
    case Step(upload, choice) => upload in s.calls && choice.uuid !in s.issued
    case PartialStage(upload, _) =>
      upload in s.calls && s.calls[upload].Assemble? && s.calls[upload].ready.staged.Some?
    case Cancel(upload) => upload in s.calls
    case Crash => true
    case Trash(asset, _) => asset in s.db.assets
    case Delete(asset) =>
      asset in s.db.assets && s.db.assets[asset].trashed
      && exists r :: r in s.db.resources && s.db.resources[r].asset == asset
    case Reclaim(blob, _) => Orphan(s.db, blob) && Unwanted(s.db, blob)
    case Sweep(key) => key.StageFile? && Unreferenced(s.db, key)
  }

  /** INSERT INTO resources ... ON CONFLICT DO UPDATE. */
  ghost function UpsertResource(db: Db, asset: Id, blob: Id, source: string, uuid: Id): Db {
    var slot := FindResource(db, asset, source);
    var r := if slot.Some? then slot.value else uuid;
    db.(resources := db.resources[r := Resource(asset, blob, source)])
  }

  /** What `put_part` leaves at the part's path: the first file linked there. */
  function LinkPart(files: Files, key: Key, body: Bytes): Files {
    if key in files then files else files[key := body]
  }

  ghost function Apply(cfg: Config, s: Sys, a: Action): Sys
    requires Enabled(cfg, s, a)
  {
    match a
    case Enable(account, enabled) =>
      s.(db := s.db.(accounts := s.db.accounts[account := s.db.accounts[account].(enabled := enabled)]))
    case Create(account, device, request, assetId, uploadId) =>
      s.(db := CreateTx(cfg, s.db, account, device, request, assetId, uploadId),
         issued := s.issued + {assetId, uploadId})
    case Attach(asset, blob, source, uuid) =>
      s.(db := UpsertResource(s.db, asset, blob, source, uuid), issued := s.issued + {uuid})
    case PutBegin(put, upload, index) =>
      s.(puts := s.puts[put := PutChecked(upload, s.db.uploads[upload].parts[index].spec)])
    case PutLink(put, body) =>
      var PutChecked(upload, spec) := s.puts[put];
      var key := PartFile(upload, spec.index);
      var files := LinkPart(s.files, key, body);
      if ContentIs(cfg, files[key], spec.size, spec.blake3)
      then s.(files := files, puts := s.puts[put := PutLinked(upload, spec.index)])
      else s.(files := files, puts := s.puts - {put})
    case PutRecord(put) =>
      var PutLinked(upload, index) := s.puts[put];
      var db := if upload in s.db.uploads
                then s.db.(uploads := s.db.uploads[upload := Received(s.db.uploads[upload], index)])
                else s.db;
      s.(db := db, puts := s.puts - {put})
    case PutDrop(put) => s.(puts := s.puts - {put})
    case Begin(upload, required) => s.(calls := s.calls[upload := Load(required)])
    case Step(upload, choice) => Advance(cfg, s, upload, choice)
    case PartialStage(upload, content) =>
      var key := s.calls[upload].ready.staged.value;
      s.(files := if content.Some? then s.files[key := content.value] else s.files - {key})
    case Cancel(upload) => s.(calls := s.calls - {upload})
    case Crash => s.(calls := map[], puts := map[])
    case Trash(asset, trashed) =>
      s.(db := s.db.(assets := s.db.assets[asset := s.db.assets[asset].(trashed := trashed)]))
    case Delete(asset) => s.(db := DeleteAsset(s.db, asset))
    case Reclaim(blob, rowKept) =>
      s.(files := s.files - {s.db.blobs[blob].key},
         db := if rowKept then s.db else s.db.(blobs := s.db.blobs - {blob}))
    case Sweep(key) => s.(files := s.files - {key})
  }

  // ----- every action keeps the invariant ------------------------------------------

  ghost predicate ResourceKept(db: Db, files: Files, db': Db, files': Files, r: Id) {
    r in db'.resources ==>
      r in db.resources && db'.resources[r] == db.resources[r]
      && var resource := db.resources[r];
         (resource.asset in db.assets ==>
            resource.asset in db'.assets && db'.assets[resource.asset].account == db.assets[resource.asset].account)
         && (resource.blob in db.blobs ==>
               resource.blob in db'.blobs && db'.blobs[resource.blob] == db.blobs[resource.blob]
               && ObjectKept(files, files', db.blobs[resource.blob].key))
  }

  /** A change that adds no upload, blob, resource or object, and that nothing
      it leaves behind notices. */
  ghost predicate Calm(s: Sys, s': Sys) {
    && AccountsKept(s.db, s'.db) && s'.issued == s.issued
    && s'.db.assets.Keys <= s.issued
    && s'.calls.Keys <= s.calls.Keys && (forall u :: u in s'.calls ==> s'.calls[u] == s.calls[u])
    && s'.puts.Keys <= s.puts.Keys && (forall c :: c in s'.puts ==> s'.puts[c] == s.puts[c])
    && (forall u :: Keeps(s.db, s.files, s'.db, s'.files, u))
    && s'.db.blobs.Keys <= s.db.blobs.Keys
    && (forall b :: b in s'.db.blobs ==> s'.db.blobs[b] == s.db.blobs[b])
    && (forall r :: ResourceKept(s.db, s.files, s'.db, s'.files, r))
    && (forall key: Key :: key.ObjectFile? && key in s'.files ==> key in s.files && s'.files[key] == s.files[key])
  }

  lemma CalmUploads(cfg: Config, s: Sys, s': Sys)
    requires Inv(cfg, s) && Calm(s, s')
    ensures forall u :: RowOk(cfg, s'.db, s'.files, u)
    ensures forall u :: u in s'.calls ==> PcOk(cfg, s'.db, s'.files, u, s'.calls[u])
    ensures forall c :: c in s'.puts ==> PutOk(cfg, s'.db, s'.files, s'.puts[c])
  {
    forall u ensures RowOk(cfg, s'.db, s'.files, u) {
      assert Keeps(s.db, s.files, s'.db, s'.files, u);
      KeepsRow(cfg, s.db, s.files, s'.db, s'.files, u);
    }
    forall u | u in s'.calls ensures PcOk(cfg, s'.db, s'.files, u, s'.calls[u]) {
      assert Keeps(s.db, s.files, s'.db, s'.files, u);
      KeepsPc(cfg, s.db, s.files, s'.db, s'.files, u, s.calls[u]);
    }
    forall c | c in s'.puts ensures PutOk(cfg, s'.db, s'.files, s'.puts[c]) {
      assert Keeps(s.db, s.files, s'.db, s'.files, s.puts[c].upload);
      KeepsPut(cfg, s.db, s.files, s'.db, s'.files, s.puts[c]);
    }
  }

  lemma CalmTables(cfg: Config, s: Sys, s': Sys)
    requires Inv(cfg, s) && Calm(s, s')
    ensures AccountsOk(s'.db) && Issued(s')
    ensures UniqueBlobs(s'.db) && UniqueSlots(s'.db) && Owners(s'.db) && Creators(s'.db)
  {
    forall u | u in s'.db.uploads ensures u in s.db.uploads && s'.db.uploads[u] == s.db.uploads[u] {
      assert Keeps(s.db, s.files, s'.db, s'.files, u);
    }
    forall r | r in s'.db.resources ensures r in s.db.resources && s'.db.resources[r] == s.db.resources[r] {
      assert ResourceKept(s.db, s.files, s'.db, s'.files, r);
    }
  }

  lemma CalmObjects(cfg: Config, s: Sys, s': Sys)
    requires Inv(cfg, s) && Calm(s, s')
    ensures forall b :: BlobOk(cfg, s'.db, b)
    ensures forall r :: ResourceOk(cfg, s'.db, s'.files, r)
    ensures forall key :: ObjectOk(cfg, s'.files, key)
  {
    forall b ensures BlobOk(cfg, s'.db, b) {
      assert BlobOk(cfg, s.db, b);
    }
    forall r ensures ResourceOk(cfg, s'.db, s'.files, r) {
      assert ResourceOk(cfg, s.db, s.files, r) && ResourceKept(s.db, s.files, s'.db, s'.files, r);
    }
    forall key ensures ObjectOk(cfg, s'.files, key) {
      assert ObjectOk(cfg, s.files, key);
    }
  }

  lemma CalmKeeps(cfg: Config, s: Sys, s': Sys)
    requires Inv(cfg, s) && Calm(s, s')
    ensures Inv(cfg, s')
  {
    CalmUploads(cfg, s, s');
    CalmTables(cfg, s, s');
    CalmObjects(cfg, s, s');
  }

  /** Flags of accounts and assets, and new assets, matter to no row. */
  lemma FlagsCalm(s: Sys, accounts: map<Id, Account>, assets: map<Id, Asset>)
    requires AccountsKept(s.db, s.db.(accounts := accounts))
    requires s.db.assets.Keys <= assets.Keys <= s.issued
    requires forall a :: a in s.db.assets ==> assets[a].account == s.db.assets[a].account
    ensures Calm(s, s.(db := s.db.(accounts := accounts, assets := assets)))
  {
    var s' := s.(db := s.db.(accounts := accounts, assets := assets));
    forall u ensures Keeps(s.db, s.files, s'.db, s'.files, u) {
    }
  }

  lemma EnableKeeps(cfg: Config, s: Sys, a: Action)
    requires Inv(cfg, s) && Enabled(cfg, s, a) && (a.Enable? || a.Trash?)
    ensures Inv(cfg, Apply(cfg, s, a))
  {
    var s' := Apply(cfg, s, a);
    FlagsCalm(s, s'.db.accounts, s'.db.assets);
    CalmKeeps(cfg, s, s');
  }

  /** Drawing a UUID changes nothing else. */
  lemma IssueKeeps(cfg: Config, s: Sys, uuid: Id)
    requires Inv(cfg, s)
    ensures Inv(cfg, s.(issued := s.issued + {uuid}))
  {
  }

  lemma UpsertAssetKeeps(cfg: Config, s: Sys, account: Id, device: Id, source: string, uuid: Id)
    requires Inv(cfg, s) && account in s.db.accounts && uuid !in s.issued
    ensures var (db', asset) := UpsertAsset(s.db, account, device, source, uuid);
            Inv(cfg, s.(db := db', issued := s.issued + {uuid}))
            && asset in db'.assets && db'.assets[asset].account == account
            && db' == s.db.(assets := db'.assets) && s.db.assets.Keys <= db'.assets.Keys
  {
    var (db', asset) := UpsertAsset(s.db, account, device, source, uuid);
    var s0 := s.(issued := s.issued + {uuid});
    IssueKeeps(cfg, s, uuid);
    FlagsCalm(s0, s0.db.accounts, db'.assets);
    CalmKeeps(cfg, s0, s0.(db := db'));
  }

  /** A change of one upload row that gives it no new blob. */
  lemma OneRowKeeps(cfg: Config, s: Sys, u: Id, row: Upload)
    requires Inv(cfg, s) && u in s.issued
    requires u in s.db.uploads ==>
      row.request == s.db.uploads[u].request && row.blob == s.db.uploads[u].blob
      && Owns(row) == Owns(s.db.uploads[u]) && Created(row) == Created(s.db.uploads[u])
    requires u !in s.db.uploads ==> row.blob.None? && row.commit == Receiving
    requires var db' := s.db.(uploads := s.db.uploads[u := row]);
             RowOk(cfg, db', s.files, u)
             && (u in s.calls ==> PcOk(cfg, db', s.files, u, s.calls[u]))
             && (forall c :: c in s.puts && s.puts[c].upload == u ==> PutOk(cfg, db', s.files, s.puts[c]))
    ensures Inv(cfg, s.(db := s.db.(uploads := s.db.uploads[u := row])))
  {
    hide BlobOk, ResourceOk;
    var s' := s.(db := s.db.(uploads := s.db.uploads[u := row]));
    forall v | v != u
      ensures RowOk(cfg, s'.db, s'.files, v)
      ensures v in s'.calls ==> PcOk(cfg, s'.db, s'.files, v, s'.calls[v])
    {
      assert Keeps(s.db, s.files, s'.db, s'.files, v);
      KeepsRow(cfg, s.db, s.files, s'.db, s'.files, v);
      if v in s'.calls {
        KeepsPc(cfg, s.db, s.files, s'.db, s'.files, v, s.calls[v]);
      }
    }
    OneRowTables(cfg, s, s', u);
  }

  lemma OneRowTables(cfg: Config, s: Sys, s': Sys, u: Id)
    requires Inv(cfg, s) && u in s.issued && u in s'.db.uploads
    requires s' == s.(db := s.db.(uploads := s.db.uploads[u := s'.db.uploads[u]]))
    requires var row := s'.db.uploads[u];
      (u in s.db.uploads ==>
        row.request == s.db.uploads[u].request && row.blob == s.db.uploads[u].blob
        && Owns(row) == Owns(s.db.uploads[u]) && Created(row) == Created(s.db.uploads[u]))
      && (u !in s.db.uploads ==> row.blob.None? && row.commit == Receiving)
    ensures Issued(s') && Owners(s'.db) && Creators(s'.db)
    ensures forall b :: BlobOk(cfg, s'.db, b)
    ensures forall r :: ResourceOk(cfg, s'.db, s'.files, r)
    ensures forall c :: c in s'.puts && s'.puts[c].upload != u ==> PutOk(cfg, s'.db, s'.files, s'.puts[c])
  {
    hide RowOk, PcOk, UniqueBlobs, UniqueSlots, ObjectOk;
    forall b ensures BlobOk(cfg, s'.db, b) {
      assert BlobOk(cfg, s.db, b);
    }
    forall r ensures ResourceOk(cfg, s'.db, s'.files, r) {
      assert ResourceOk(cfg, s.db, s.files, r);
    }
  }

  lemma CreateKeeps(cfg: Config, s: Sys, a: Action)
    requires Inv(cfg, s) && Enabled(cfg, s, a) && a.Create?
    ensures Inv(cfg, Apply(cfg, s, a))
  {
    var s' := Apply(cfg, s, a);
    assert s'.issued == s.issued + {a.assetId} + {a.uploadId};
    if a.account !in s.db.accounts || s'.db == s.db {
      IssueKeeps(cfg, s, a.assetId);
      IssueKeeps(cfg, s.(issued := s.issued + {a.assetId}), a.uploadId);
    } else {
      var (db', asset) := UpsertAsset(s.db, a.account, a.device, a.request.sourceAsset, a.assetId);
      UpsertAssetKeeps(cfg, s, a.account, a.device, a.request.sourceAsset, a.assetId);
      var s1 := s.(db := db', issued := s.issued + {a.assetId});
      if s'.db == db' {
        IssueKeeps(cfg, s1, a.uploadId);
      } else {
        NewUploadKeeps(cfg, s1, a.account, a.device, asset, a.request, a.uploadId);
      }
    }
  }

  lemma NewUploadKeeps(cfg: Config, s: Sys, account: Id, device: Id, asset: Id, request: Request, u: Id)
    requires Inv(cfg, s) && u !in s.issued && account in s.db.accounts
    requires asset in s.db.assets && s.db.assets[asset].account == account
    requires UploadRequestOk(request, cfg.maxPart) && request.size <= I64_MAX
    ensures Inv(cfg, s.(db := s.db.(uploads := s.db.uploads[u := NewUpload(account, device, asset, request)]),
                        issued := s.issued + {u}))
  {
    IssueKeeps(cfg, s, u);
    OneRowKeeps(cfg, s.(issued := s.issued + {u}), u, NewUpload(account, device, asset, request));
  }

  lemma AttachSlots(db: Db, asset: Id, blob: Id, source: string, uuid: Id)
    requires UniqueSlots(db)
    ensures UniqueSlots(UpsertResource(db, asset, blob, source, uuid))
  {
    assert forall r :: r in db.resources ==> IsSlot(db, r, db.resources[r].asset, db.resources[r].source);
  }

  lemma AttachUploads(cfg: Config, s: Sys, db': Db)
    requires Core(cfg, s)
    requires db' == s.db.(resources := db'.resources) && s.db.resources.Keys <= db'.resources.Keys
    requires forall r :: r in s.db.resources ==>
      db'.resources[r].asset == s.db.resources[r].asset && db'.resources[r].source == s.db.resources[r].source
    ensures forall u :: RowOk(cfg, db', s.files, u)
    ensures forall u :: u in s.calls ==> PcOk(cfg, db', s.files, u, s.calls[u])
    ensures forall b :: BlobOk(cfg, db', b)
    ensures forall c :: c in s.puts ==> PutOk(cfg, db', s.files, s.puts[c])
  {
    forall u
      ensures RowOk(cfg, db', s.files, u)
      ensures u in s.calls ==> PcOk(cfg, db', s.files, u, s.calls[u])
    {
      KeepsRow(cfg, s.db, s.files, db', s.files, u);
      if u in s.calls {
        KeepsPc(cfg, s.db, s.files, db', s.files, u, s.calls[u]);
      }
    }
    hide RowOk, PcOk, UniqueBlobs, UniqueSlots, Owners, Creators;
    forall b ensures BlobOk(cfg, db', b) {
      assert BlobOk(cfg, s.db, b);
    }
  }

  lemma AttachKeeps(cfg: Config, s: Sys, a: Action)
    requires Inv(cfg, s) && Enabled(cfg, s, a) && a.Attach?
    ensures Inv(cfg, Apply(cfg, s, a))
  {
    var s' := Apply(cfg, s, a);
    AttachUploads(cfg, s, s'.db);
    AttachSlots(s.db, a.asset, a.blob, a.source, a.uuid);
    hide RowOk, PcOk, PutOk, UniqueBlobs, UniqueSlots, BlobOk;
    forall r ensures ResourceOk(cfg, s'.db, s'.files, r) {
      assert ResourceOk(cfg, s.db, s.files, r);
    }
  }

  lemma PutKeeps(cfg: Config, s: Sys, a: Action)
    requires Inv(cfg, s) && Enabled(cfg, s, a) && (a.PutBegin? || a.PutDrop?)
    ensures Inv(cfg, Apply(cfg, s, a))
  {
    if a.PutBegin? {
      assert RowOk(cfg, s.db, s.files, a.upload);
    }
  }

  lemma PutLinkKeeps(cfg: Config, s: Sys, a: Action)
    requires Inv(cfg, s) && Enabled(cfg, s, a) && a.PutLink?
    ensures Inv(cfg, Apply(cfg, s, a))
  {
    var s' := Apply(cfg, s, a);
    var s1 := s.(files := s'.files, puts := s.puts - {a.put});
    assert PutOk(cfg, s.db, s.files, s.puts[a.put]);
    NewPartCalm(cfg, s, s1);
    CalmKeeps(cfg, s, s1);
    PutDone(cfg, s, s1, s', a.put);
  }

  lemma NewPartCalm(cfg: Config, s: Sys, s': Sys)
    requires forall u :: RowOk(cfg, s.db, s.files, u)
    requires s' == s.(files := s'.files, puts := s'.puts)
    requires s'.puts.Keys <= s.puts.Keys && forall c :: c in s'.puts ==> s'.puts[c] == s.puts[c]
    requires s.db.assets.Keys <= s.issued
    requires forall key :: key in s.files ==> key in s'.files && s'.files[key] == s.files[key]
    requires forall key :: key in s'.files && key !in s.files ==> key.PartFile?
    ensures Calm(s, s')
  {
    forall u ensures Keeps(s.db, s.files, s'.db, s'.files, u) {
      assert RowOk(cfg, s.db, s.files, u);
    }
  }

  lemma PutDone(cfg: Config, s: Sys, s1: Sys, s': Sys, put: Id)
    requires Inv(cfg, s1) && put in s.puts && s1.puts == s.puts - {put}
    requires s' == s1.(puts := s'.puts) && s.puts[put].upload in s1.issued
    requires s'.puts == s1.puts
             || (put in s'.puts && s'.puts == s.puts[put := s'.puts[put]]
                 && s'.puts[put].upload == s.puts[put].upload && PutOk(cfg, s'.db, s'.files, s'.puts[put]))
    ensures Inv(cfg, s')
  {
    forall c | c in s'.puts
      ensures PutOk(cfg, s'.db, s'.files, s'.puts[c]) && s'.puts[c].upload in s'.issued
    {
      assert c != put ==> c in s1.puts && s'.puts[c] == s1.puts[c] && PutOk(cfg, s1.db, s1.files, s1.puts[c]);
    }
  }

  lemma PutRecordKeeps(cfg: Config, s: Sys, a: Action)
    requires Inv(cfg, s) && Enabled(cfg, s, a) && a.PutRecord?
    ensures Inv(cfg, Apply(cfg, s, a))
  {
    var PutLinked(u, index) := s.puts[a.put];
    var s1 := s.(puts := s.puts - {a.put});
    assert PutOk(cfg, s.db, s.files, s.puts[a.put]);
    assert Inv(cfg, s1);
    if u in s.db.uploads {
      RecordKeeps(cfg, s1, u, index);
    }
  }

  lemma RecordKeeps(cfg: Config, s: Sys, u: Id, index: nat)
    requires Inv(cfg, s) && u in s.db.uploads && PutOk(cfg, s.db, s.files, PutLinked(u, index))
    ensures Inv(cfg, s.(db := s.db.(uploads := s.db.uploads[u := Received(s.db.uploads[u], index)])))
  {
    RecordKeepsRow(cfg, s.db, s.files, u, index);
    if u in s.calls {
      RecordKeepsPc(cfg, s.db, s.files, u, index, s.calls[u]);
    }
    var db' := s.db.(uploads := s.db.uploads[u := Received(s.db.uploads[u], index)]);
    forall c | c in s.puts && s.puts[c].upload == u ensures PutOk(cfg, db', s.files, s.puts[c]) {
      assert PutOk(cfg, s.db, s.files, s.puts[c]);
    }
    OneRowKeeps(cfg, s, u, Received(s.db.uploads[u], index));
  }

  lemma RecordKeepsRow(cfg: Config, db: Db, files: Files, u: Id, index: nat)
    requires u in db.uploads && RowOk(cfg, db, files, u) && PutOk(cfg, db, files, PutLinked(u, index))
    ensures RowOk(cfg, db.(uploads := db.uploads[u := Received(db.uploads[u], index)]), files, u)
  {
    var row, row' := db.uploads[u], Received(db.uploads[u], index);
    var db' := db.(uploads := db.uploads[u := row']);
    assert ObjectKey(db', row') == ObjectKey(db, row);
    assert ReadyCommit(row', db.accounts[row.account].path) == ReadyCommit(row, db.accounts[row.account].path);
    forall i | 0 <= i < |row'.parts| && row'.parts[i].received
      ensures PartStored(cfg, files, u, row'.parts[i].spec)
    {
      assert i != index ==> row.parts[i].received && PartStored(cfg, files, u, row.parts[i].spec);
    }
    assert RowDbOk(db', u, row');
  }

  lemma RecordKeepsPc(cfg: Config, db: Db, files: Files, u: Id, index: nat, pc: Pc)
    requires u in db.uploads && PcOk(cfg, db, files, u, pc)
    ensures PcOk(cfg, db.(uploads := db.uploads[u := Received(db.uploads[u], index)]), files, u, pc)
  {
    var row, row' := db.uploads[u], Received(db.uploads[u], index);
    assert forall path :: ReadyCommit(row', path) == ReadyCommit(row, path);
    assert AllReceived(row) ==> AllReceived(row');
  }

  lemma CallKeeps(cfg: Config, s: Sys, a: Action)
    requires Inv(cfg, s) && Enabled(cfg, s, a) && (a.Begin? || a.Cancel? || a.Crash?)
    ensures Inv(cfg, Apply(cfg, s, a))
  {
  }

  /** Files of one stage changed: no other upload looks at them. */
  lemma StageForeign(cfg: Config, db: Db, files: Files, files': Files, u: Id, v: Id)
    requires v != u && RowOk(cfg, db, files, v)
    requires forall key: Key :: !(key.StageFile? && key.upload == u) ==>
      (key in files <==> key in files') && (key in files ==> files'[key] == files[key])
    ensures Keeps(db, files, db, files', v)
  {
  }

  /** Bytes written in place at a stage under assembly: no row relies on it. */
  lemma PartialStageKeeps(cfg: Config, s: Sys, a: Action)
    requires Inv(cfg, s) && Enabled(cfg, s, a) && a.PartialStage?
    ensures Inv(cfg, Apply(cfg, s, a))
  {
    hide UniqueBlobs, UniqueSlots, Owners, Creators, BlobOk, ResourceOk, RowOk, PutOk;
    var s' := Apply(cfg, s, a);
    var u := a.upload;
    assert PcOk(cfg, s.db, s.files, u, s.calls[u]);
    forall v | v != u
      ensures RowOk(cfg, s'.db, s'.files, v)
      ensures v in s'.calls ==> PcOk(cfg, s'.db, s'.files, v, s'.calls[v])
    {
      StageForeign(cfg, s.db, s.files, s'.files, u, v);
      KeepsRow(cfg, s.db, s.files, s'.db, s'.files, v);
      if v in s'.calls {
        KeepsPc(cfg, s.db, s.files, s'.db, s'.files, v, s.calls[v]);
      }
    }
    PartialStageRow(cfg, s.db, s.files, s'.files, u);
    PartialStageObjects(cfg, s, s');
  }

  lemma PartialStageRow(cfg: Config, db: Db, files: Files, files': Files, u: Id)
    requires RowOk(cfg, db, files, u) && PartsKept(files, files', u)
    requires u in db.uploads ==> db.uploads[u].commit == Started
    ensures RowOk(cfg, db, files', u)
  {
    if u in db.uploads {
      var row := db.uploads[u];
      forall i | 0 <= i < |row.parts| && row.parts[i].received
        ensures PartStored(cfg, files', u, row.parts[i].spec)
      {
        assert PartStored(cfg, files, u, row.parts[i].spec);
      }
    }
  }

  lemma PartialStageObjects(cfg: Config, s: Sys, s': Sys)
    requires Inv(cfg, s) && s' == s.(files := s'.files)
    requires forall key: Key :: !key.StageFile? ==>
      (key in s.files <==> key in s'.files) && (key in s.files ==> s'.files[key] == s.files[key])
    ensures forall r :: ResourceOk(cfg, s'.db, s'.files, r)
    ensures forall key :: ObjectOk(cfg, s'.files, key)
    ensures forall c :: c in s'.puts ==> PutOk(cfg, s'.db, s'.files, s'.puts[c])
  {
    forall r ensures ResourceOk(cfg, s'.db, s'.files, r) {
      assert ResourceOk(cfg, s.db, s.files, r);
      if r in s.db.resources {
        assert BlobOk(cfg, s.db, s.db.resources[r].blob);
      }
    }
    forall key ensures ObjectOk(cfg, s'.files, key) {
      assert ObjectOk(cfg, s.files, key);
    }
    forall c | c in s'.puts ensures PutOk(cfg, s'.db, s'.files, s'.puts[c]) {
      KeepsPut(cfg, s.db, s.files, s'.db, s'.files, s.puts[c]);
    }
  }

  lemma SweepCalm(cfg: Config, s: Sys, key: Key)
    requires key.StageFile? && Unreferenced(s.db, key) && s.db.assets.Keys <= s.issued
    requires forall u :: RowOk(cfg, s.db, s.files, u)
    requires forall b :: BlobOk(cfg, s.db, b)
    ensures Calm(s, s.(files := s.files - {key}))
  {
    var s' := s.(files := s.files - {key});
    forall u ensures Keeps(s.db, s.files, s'.db, s'.files, u) {
      assert RowOk(cfg, s.db, s.files, u);
    }
    forall r ensures ResourceKept(s.db, s.files, s'.db, s'.files, r) {
      if r in s.db.resources {
        assert BlobOk(cfg, s.db, s.db.resources[r].blob);
      }
    }
  }

  lemma SweepKeeps(cfg: Config, s: Sys, a: Action)
    requires Inv(cfg, s) && Enabled(cfg, s, a) && a.Sweep?
    ensures Inv(cfg, Apply(cfg, s, a))
  {
    hide Calm, RowOk, BlobOk, UniqueBlobs, UniqueSlots;
    SweepCalm(cfg, s, a.key);
    CalmKeeps(cfg, s, Apply(cfg, s, a));
  }

  lemma DeleteCalm(s: Sys, asset: Id)
    requires s.db.assets.Keys <= s.issued
    ensures Calm(s, s.(db := DeleteAsset(s.db, asset)))
  {
    var s' := s.(db := DeleteAsset(s.db, asset));
    forall u ensures Keeps(s.db, s.files, s'.db, s'.files, u) {
    }
    forall r ensures ResourceKept(s.db, s.files, s'.db, s'.files, r) {
    }
  }

  lemma DeleteKeeps(cfg: Config, s: Sys, a: Action)
    requires Inv(cfg, s) && Enabled(cfg, s, a) && a.Delete?
    ensures Inv(cfg, Apply(cfg, s, a))
  {
    DeleteCalm(s, a.asset);
    CalmKeeps(cfg, s, Apply(cfg, s, a));
  }

  /** Two blobs never share an object, and a committed upload keeps its blob
      from being an orphan: reclaiming an orphan touches nobody's object. */
  lemma OrphanObjectUnused(cfg: Config, s: Sys, b: Id, u: Id)
    requires Inv(cfg, s) && Orphan(s.db, b) && Unwanted(s.db, b)
    requires u in s.db.uploads && Live(s.db.uploads[u].commit)
    ensures s.db.uploads[u].account in s.db.accounts
    ensures ObjectKey(s.db, s.db.uploads[u]) != s.db.blobs[b].key
    ensures !IsContent(s.db, b, s.db.uploads[u].account, s.db.uploads[u].request.blake3)
  {
    var row := s.db.uploads[u];
    assert RowOk(cfg, s.db, s.files, u) && BlobOk(cfg, s.db, b);
    if row.commit == Committed {
      assert BlobOk(cfg, s.db, row.blob.value);
    }
  }

  lemma ReclaimCalm(s: Sys, b: Id, rowKept: bool)
    requires b in s.db.blobs && s.db.blobs[b].key.ObjectFile? && s.db.assets.Keys <= s.issued
    requires forall u :: u in s.db.uploads && Live(s.db.uploads[u].commit) ==>
      var row := s.db.uploads[u];
      row.account in s.db.accounts && ObjectKey(s.db, row) != s.db.blobs[b].key
      && !IsContent(s.db, b, row.account, row.request.blake3)
      && (row.staged.Some? ==> row.staged.value.StageFile?)
    requires forall r :: r in s.db.resources ==>
      var resource := s.db.resources[r];
      resource.blob != b && (resource.blob in s.db.blobs ==> s.db.blobs[resource.blob].key != s.db.blobs[b].key)
    ensures Calm(s, s.(files := s.files - {s.db.blobs[b].key},
                       db := if rowKept then s.db else s.db.(blobs := s.db.blobs - {b})))
  {
    var s' := s.(files := s.files - {s.db.blobs[b].key},
                 db := if rowKept then s.db else s.db.(blobs := s.db.blobs - {b}));
    forall u ensures Keeps(s.db, s.files, s'.db, s'.files, u) {
    }
    forall r ensures ResourceKept(s.db, s.files, s'.db, s'.files, r) {
    }
  }

  lemma OtherBlobOtherObject(cfg: Config, s: Sys, a: Id, b: Id)
    requires Inv(cfg, s) && a in s.db.blobs && b in s.db.blobs && a != b
    ensures s.db.blobs[a].key != s.db.blobs[b].key
  {
    assert BlobOk(cfg, s.db, a) && BlobOk(cfg, s.db, b);
  }

  lemma ReclaimKeeps(cfg: Config, s: Sys, a: Action)
    requires Inv(cfg, s) && Enabled(cfg, s, a) && a.Reclaim?
    ensures Inv(cfg, Apply(cfg, s, a))
  {
    assert BlobOk(cfg, s.db, a.blob);
    forall u | u in s.db.uploads && Live(s.db.uploads[u].commit)
      ensures var row := s.db.uploads[u];
              row.account in s.db.accounts && ObjectKey(s.db, row) != s.db.blobs[a.blob].key
              && !IsContent(s.db, a.blob, row.account, row.request.blake3)
              && (row.staged.Some? ==> row.staged.value.StageFile?)
    {
      OrphanObjectUnused(cfg, s, a.blob, u);
      assert RowOk(cfg, s.db, s.files, u);
    }
    forall r | r in s.db.resources && s.db.resources[r].blob in s.db.blobs
      ensures s.db.blobs[s.db.resources[r].blob].key != s.db.blobs[a.blob].key
    {
      OtherBlobOtherObject(cfg, s, s.db.resources[r].blob, a.blob);
    }
    ReclaimCalm(s, a.blob, a.rowKept);
    CalmKeeps(cfg, s, Apply(cfg, s, a));
  }

  lemma ActionKeepsInv(cfg: Config, s: Sys, a: Action)
    requires Inv(cfg, s) && Enabled(cfg, s, a)
    ensures Inv(cfg, Apply(cfg, s, a))
  {
    match a
    case Enable(_, _) => EnableKeeps(cfg, s, a);
    case Trash(_, _) => EnableKeeps(cfg, s, a);
    case Create(_, _, _, _, _) => CreateKeeps(cfg, s, a);
    case Attach(_, _, _, _) => AttachKeeps(cfg, s, a);
    case PutBegin(_, _, _) => PutKeeps(cfg, s, a);
    case PutDrop(_) => PutKeeps(cfg, s, a);
    case PutLink(_, _) => PutLinkKeeps(cfg, s, a);
    case PutRecord(_) => PutRecordKeeps(cfg, s, a);
    case Begin(_, _) => CallKeeps(cfg, s, a);
    case Cancel(_) => CallKeeps(cfg, s, a);
    case Crash => CallKeeps(cfg, s, a);
    case Step(u, choice) => AdvanceKeepsInv(cfg, s, u, choice);
    case PartialStage(_, _) => PartialStageKeeps(cfg, s, a);
    case Delete(_) => DeleteKeeps(cfg, s, a);
    case Reclaim(_, _) => ReclaimKeeps(cfg, s, a);
    case Sweep(_) => SweepKeeps(cfg, s, a);
  }

  // ----- sequences of actions --------------------------------------------------------

  /** `s'` is what the steps make of `s`. */
  ghost predicate Reaches(cfg: Config, s: Sys, steps: seq<Action>, s': Sys)
    decreases |steps|
  {
    if steps == [] then s == s'
    else Enabled(cfg, s, steps[0]) && Reaches(cfg, Apply(cfg, s, steps[0]), steps[1..], s')
  }

  lemma {:induction false} ReachesKeepsInv(cfg: Config, s: Sys, steps: seq<Action>, s': Sys)
    requires Inv(cfg, s) && Reaches(cfg, s, steps, s')
    ensures Inv(cfg, s')
    decreases |steps|
  {
    hide Inv, Enabled, Apply;
    if steps != [] {
      ActionKeepsInv(cfg, s, steps[0]);
      ReachesKeepsInv(cfg, Apply(cfg, s, steps[0]), steps[1..], s');
    }
  }

  lemma OneStep(cfg: Config, s: Sys, a: Action)
    requires Enabled(cfg, s, a)
    ensures Reaches(cfg, s, [a], Apply(cfg, s, a))
  {
    hide Enabled, Apply;
    assert [a][1..] == [];
    assert Reaches(cfg, Apply(cfg, s, a), [a][1..], Apply(cfg, s, a));
  }

  lemma TwoSteps(cfg: Config, s: Sys, s1: Sys, a: Action, b: Action)
    requires Enabled(cfg, s, a) && s1 == Apply(cfg, s, a) && Enabled(cfg, s1, b)
    ensures Reaches(cfg, s, [a, b], Apply(cfg, s1, b))
  {
    hide Enabled, Apply;
    OneStep(cfg, s1, b);
    assert [a, b][1..] == [b];
  }
}
