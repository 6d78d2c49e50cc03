/** The upload endpoints before completion, as the server runs them: each is
    proved to be a short run of the protocol's steps, with the answer its client
    relies on. */
module UploadRoutes {
  import opened Types
  import opened CommitModel
  import opened CommitInvariant
  import opened CommitRuns
  import opened Solo
  import opened Storage
  import opened Quota
  import opened CommitServer

  // ----- validate_upload_request -------------------------------------------------------------

  /** `validate_upload_request`: names and metadata, positions, sizes and hashes part by part, then
      the total. */
  method ValidateUploadRequest(request: Request, maxPart: nat) returns (ok: bool)
    ensures ok <==> UploadRequestOk(request, maxPart)
  {
    if request.sourceAsset == "" || request.sourceResource == "" || request.filename == [] || request.mimeType == []
       || !IsBlake3(request.blake3) || request.parts == [] || |request.filename| > 1024 || |request.mimeType| > 255
       || (request.metadata.Some? && |request.metadata.value| > 64 * 1024) {
      return false;
    }
    for i := 0 to |request.parts|
      invariant forall j :: 0 <= j < i ==>
        var part := request.parts[j];
        part.index == j && !(part.size == 0 && request.size != 0) && part.size <= maxPart && IsBlake3(part.blake3)
    {
      var part := request.parts[i];
      if part.index != i || (part.size == 0 && request.size != 0) || part.size > maxPart || !IsBlake3(part.blake3) {
        return false;
      }
    }
    var total := 0;
    for i := 0 to |request.parts|
      invariant total == PartsSize(request.parts[..i]) <= U64_MAX
    {
      assert request.parts[..i + 1] == request.parts[..i] + [request.parts[i]];
      PartsSizeAppend(request.parts[..i], request.parts[i]);
      PartsSizePrefix(request.parts, i + 1);
      if total + request.parts[i].size > U64_MAX {
        return false;
      }
      total := total + request.parts[i].size;
    }
    assert request.parts[..|request.parts|] == request.parts;
    return total == request.size;
  }

  /** The rest of the request the same, each limit is judged alone: names that
      are not empty and at most so long, metadata if there is any, a digest of
      hexadecimal digits, and a size that is the sum of the parts. */
  lemma FieldsAreJudgedAlone(request: Request, maxPart: nat, name: Bytes, digest: string, size: nat)
    requires UploadRequestOk(request, maxPart)
    ensures UploadRequestOk(request.(filename := name), maxPart) <==> 1 <= |name| <= 1024
    ensures UploadRequestOk(request.(mimeType := name), maxPart) <==> 1 <= |name| <= 255
    ensures UploadRequestOk(request.(metadata := Some(name)), maxPart) <==> |name| <= 65536
    ensures UploadRequestOk(request.(metadata := None), maxPart)
    ensures UploadRequestOk(request.(sourceAsset := digest), maxPart) <==> digest != ""
    ensures UploadRequestOk(request.(sourceResource := digest), maxPart) <==> digest != ""
    ensures UploadRequestOk(request.(blake3 := digest), maxPart) <==>
      |digest| == 64 && forall i :: 0 <= i < 64 ==> IsHexDigit(digest[i])
    ensures UploadRequestOk(request.(size := size), maxPart) <==> size == request.size
  {
  }

  // ----- missing parts --------------------------------------------------------------------------

  ghost predicate IsMissing(row: Upload, i: nat) {
    i < |row.parts| && !row.parts[i].received
  }

  /** The parts still to send: all of them, in order, and no other. */
  ghost predicate MissingOf(row: Upload, missing: seq<nat>) {
    (forall i: nat :: i in missing <==> IsMissing(row, i))
    && forall j, k :: 0 <= j < k < |missing| ==> missing[j] < missing[k]
  }

  /** `missing_parts`. */
  method MissingParts(row: Upload) returns (missing: seq<nat>)
    ensures MissingOf(row, missing)
  {
    missing := [];
    for i := 0 to |row.parts|
      invariant forall k: nat :: k in missing <==> k < i && IsMissing(row, k)
      invariant forall j, k :: 0 <= j < k < |missing| ==> missing[j] < missing[k]
      invariant forall j :: 0 <= j < |missing| ==> missing[j] < i
    {
      if !row.parts[i].received {
        assert forall k: nat :: k in missing + [i] <==> k in missing || k == i;
        missing := missing + [i];
      }
    }
  }

  // ----- put_part ---------------------------------------------------------------------------------

  /** Putting a part as a run: read the manifest entry, link the file if the
      body fits, and record it if what is linked matches. */
  ghost function PutSteps(cfg: Config, files: Files, u: Id, spec: PartSpec, frames: seq<Frame>): seq<Action> {
    var begin := PutBegin(0, u, spec.index);
    if !BodyFits(cfg, spec, frames) then [begin, PutDrop(0)]
    else if ContentIs(cfg, LinkPart(files, PartFile(u, spec.index), BodyOf(frames))[PartFile(u, spec.index)],
                      spec.size, spec.blake3)
    then [begin, PutLink(0, BodyOf(frames)), PutRecord(0)]
    else [begin, PutLink(0, BodyOf(frames))]
  }

  ghost predicate CanPut(s: Sys, u: Id, index: nat) {
    s.puts == map[] && u in s.db.uploads && s.db.uploads[u].commit == Receiving
    && index < |s.db.uploads[u].parts| && s.db.uploads[u].parts[index].spec.index == index
  }

  lemma BeginPut(cfg: Config, s: Sys, u: Id, index: nat)
    requires CanPut(s, u, index)
    ensures Enabled(cfg, s, PutBegin(0, u, index))
    ensures Apply(cfg, s, PutBegin(0, u, index))
         == s.(puts := map[0 := PutChecked(u, s.db.uploads[u].parts[index].spec)])
  {
  }

  lemma LinkPut(cfg: Config, s: Sys, u: Id, spec: PartSpec, body: Bytes)
    requires s.puts == map[0 := PutChecked(u, spec)]
    requires ContentIs(cfg, body, spec.size, spec.blake3) && |body| <= cfg.maxPart
    ensures Enabled(cfg, s, PutLink(0, body))
    ensures var files := LinkPart(s.files, PartFile(u, spec.index), body);
      Apply(cfg, s, PutLink(0, body))
      == if PartStored(cfg, files, u, spec) then s.(files := files, puts := map[0 := PutLinked(u, spec.index)])
         else s.(files := files, puts := map[])
  {
    assert map[0 := PutChecked(u, spec)] - {0} == map[];
  }

  lemma RecordPut(cfg: Config, s: Sys, u: Id, index: nat)
    requires s.puts == map[0 := PutLinked(u, index)] && u in s.db.uploads
    ensures Enabled(cfg, s, PutRecord(0))
    ensures Apply(cfg, s, PutRecord(0))
         == s.(db := s.db.(uploads := s.db.uploads[u := Received(s.db.uploads[u], index)]), puts := map[])
  {
    assert map[0 := PutLinked(u, index)] - {0} == map[];
  }

  lemma DropPut(cfg: Config, s: Sys, put: Put)
    requires s.puts == map[0 := put]
    ensures Enabled(cfg, s, PutDrop(0)) && Apply(cfg, s, PutDrop(0)) == s.(puts := map[])
  {
    assert map[0 := put] - {0} == map[];
  }

  lemma PutReaches(cfg: Config, s: Sys, s': Sys, u: Id, index: nat, frames: seq<Frame>)
    requires CanPut(s, u, index)
    requires var spec := s.db.uploads[u].parts[index].spec;
      var key := PartFile(u, index);
      && s'.files == (if BodyFits(cfg, spec, frames) then LinkPart(s.files, key, BodyOf(frames)) else s.files)
      && s' == s.(files := s'.files, db := s'.db)
      && s'.db == (if BodyFits(cfg, spec, frames) && PartStored(cfg, s'.files, u, spec)
                   then s.db.(uploads := s.db.uploads[u := Received(s.db.uploads[u], index)]) else s.db)
    ensures Reaches(cfg, s, PutSteps(cfg, s.files, u, s.db.uploads[u].parts[index].spec, frames), s')
  {
    hide Enabled, Apply, BodyOf;
    var spec := s.db.uploads[u].parts[index].spec;
    var steps := PutSteps(cfg, s.files, u, spec, frames);
    BeginPut(cfg, s, u, index);
    var s1 := s.(puts := map[0 := PutChecked(u, spec)]);
    if !BodyFits(cfg, spec, frames) {
      DropPut(cfg, s1, PutChecked(u, spec));
      RunOf(cfg, s, s1, s', s', steps);
    } else {
      LinkPut(cfg, s1, u, spec, BodyOf(frames));
      var s2 := Apply(cfg, s1, PutLink(0, BodyOf(frames)));
      if PartStored(cfg, s'.files, u, spec) {
        RecordPut(cfg, s2, u, index);
      }
      RunOf(cfg, s, s1, s2, s', steps);
    }
  }

  lemma RunOf(cfg: Config, s: Sys, s1: Sys, s2: Sys, s3: Sys, steps: seq<Action>)
    requires 2 <= |steps| <= 3 && Enabled(cfg, s, steps[0]) && s1 == Apply(cfg, s, steps[0])
    requires Enabled(cfg, s1, steps[1]) && s2 == Apply(cfg, s1, steps[1])
    requires if |steps| == 2 then s3 == s2 else Enabled(cfg, s2, steps[2]) && s3 == Apply(cfg, s2, steps[2])
    ensures Reaches(cfg, s, steps, s3)
  {
    hide Enabled, Apply;
    var rest := steps[1..];
    assert rest[0] == steps[1];
    if |steps| == 3 {
      assert rest[1..][0] == steps[2] && rest[1..][1..] == [];
      assert Reaches(cfg, s3, rest[1..][1..], s3);
    } else {
      assert rest[1..] == [];
    }
    assert Reaches(cfg, s2, rest[1..], s3);
    assert Reaches(cfg, s1, rest, s3);
  }

  /** `put_part`: of a receiving upload, store and record the part; of a
      committed one, nothing more is needed. */
  method PutUploadPart(server: Server, account: Id, u: Id, index: nat, frames: seq<Frame>)
    returns (r: Result<(), Refusal>)
    requires server.Valid() && Inv(server.cfg, server.View())
    modifies server, server.storage
    ensures server.Valid() && Inv(server.cfg, server.View())
    ensures old(u !in server.uploads || server.uploads[u].account != account || index >= |server.uploads[u].parts|) ==>
      r == Err(NotFound) && server.View() == old(server.View())
    ensures old(u in server.uploads && server.uploads[u].account == account && index < |server.uploads[u].parts|) ==>
      var row := old(server.uploads[u]);
      if row.commit != Receiving then
        server.View() == old(server.View()) && r == if row.commit == Committed then Ok(()) else Err(Conflict)
      else
        && Reaches(server.cfg, old(server.View()),
                   PutSteps(server.cfg, old(server.storage.files), u, row.parts[index].spec, frames), server.View())
        && u in server.uploads && server.uploads[u] == (if r.Ok? then Received(row, index) else row)
        && (r.Ok? <==> BodyFits(server.cfg, row.parts[index].spec, frames)
                       && PartStored(server.cfg, server.storage.files, u, row.parts[index].spec))
        && (r.Ok? <==> TakesPart(server.cfg, old(server.storage.files), u, row.parts[index].spec, frames))
        && (r.Ok? ==>
              server.uploads == old(server.uploads)[
                u := row.(parts := row.parts[index := row.parts[index].(received := true)])])
        && (r.Err? ==>
              server.uploads == old(server.uploads)
              && r.error == if BodyFits(server.cfg, row.parts[index].spec, frames) then Conflict
                            else if CrossesLimit(server.cfg, row.parts[index].spec, frames) then TooLarge
                            else BadRequest)
  {
    if u !in server.uploads || server.uploads[u].account != account || index >= |server.uploads[u].parts| {
      return Err(NotFound);
    }
    var row := server.uploads[u];
    if row.commit == Committed {
      return Ok(());
    }
    if row.commit != Receiving {
      return Err(Conflict);
    }
    ghost var s := server.View();
    var spec := row.parts[index].spec;
    assert spec.index == index by {
      SpecIndex(server.cfg, s, u, index);
    }
    hide Core, Inv, BodyFits, ContentIs, Reaches, TakesPart, CrossesLimit, PartStored;
    r := server.storage.PutPart(u, spec, frames);
    if r.Ok? {
      server.uploads := server.uploads[u := Received(row, index)];
    }
    PutReaches(server.cfg, s, server.View(), u, index, frames);
    ReachesKeepsInv(server.cfg, s, PutSteps(server.cfg, s.files, u, spec, frames), server.View());
    InvValid(server);
  }

  lemma SpecIndex(cfg: Config, s: Sys, u: Id, index: nat)
    requires Inv(cfg, s) && u in s.db.uploads && index < |s.db.uploads[u].parts|
    ensures s.db.uploads[u].parts[index].spec.index == index
  {
    assert RowOk(cfg, s.db, s.files, u);
  }

  lemma InvValid(server: Server)
    requires Inv(server.cfg, server.View()) && server.storage.cfg == server.cfg && WorldOk(server.world)
    ensures server.Valid()
  {
  }

  // ----- create_upload ------------------------------------------------------------------------------

  /** UNIQUE(account_id, device_id, source_asset_id). */
  ghost predicate UniqueAssets(db: Db) {
    forall a, b :: a in db.assets && b in db.assets && db.assets[a].account == db.assets[b].account
      && db.assets[a].device == db.assets[b].device && db.assets[a].source == db.assets[b].source
      ==> a == b
  }

  lemma UpsertIsUnique(db: Db, account: Id, device: Id, source: string, uuid: Id)
    requires UniqueAssets(db)
    ensures UniqueAssets(UpsertAsset(db, account, device, source, uuid).0)
  {
    var found := FindAsset(db, account, device, source);
    if found.None? {
      NoAsset(db, account, device, source);
      forall a | a in db.assets
        ensures !(db.assets[a].account == account && db.assets[a].device == device && db.assets[a].source == source)
      {
        assert !IsAsset(db, a, account, device, source);
      }
    }
  }

  lemma NoAsset(db: Db, account: Id, device: Id, source: string)
    requires FindAsset(db, account, device, source).None?
    ensures forall a :: !IsAsset(db, a, account, device, source)
  {
  }

  /** In every step of every run, an asset of a device is one row. */
  lemma ActionUniqueAssets(cfg: Config, s: Sys, a: Action)
    requires Enabled(cfg, s, a) && UniqueAssets(s.db)
    ensures UniqueAssets(Apply(cfg, s, a).db)
  {
    if a.Create? {
      UpsertIsUnique(s.db, a.account, a.device, a.request.sourceAsset, a.assetId);
    }
  }

  datatype Created = AlreadyStored(resource: Id) | Pending(upload: Id, missing: seq<nat>)

  /** What the client of `create_upload` may rely on. */
  ghost predicate CreatedOk(cfg: Config, db: Db, files: Files, account: Id, device: Id, request: Request, r: Created) {
    match r
    case AlreadyStored(resource) =>
      && resource in db.resources && db.resources[resource].source == request.sourceResource
      && IsAsset(db, db.resources[resource].asset, account, device, request.sourceAsset)
      && IsContent(db, db.resources[resource].blob, account, request.blake3)
      && InspectFile(cfg, files, db.blobs[db.resources[resource].blob].key, request.size, request.blake3) == Matches
    case Pending(upload, missing) =>
      upload in db.uploads && IsActive(db.uploads[upload]) && SameTarget(db.uploads[upload], account, device, request)
      && MissingOf(db.uploads[upload], missing)
  }

  /** No resource changes but the one answered with. */
  ghost predicate OtherResourcesKept(before: map<Id, Resource>, after: map<Id, Resource>, r: Result<Created, Refusal>) {
    if r.Ok? && r.value.AlreadyStored? then
      r.value.resource in after && after == before[r.value.resource := after[r.value.resource]]
    else after == before
  }

  /** `INSERT INTO assets ... ON CONFLICT DO UPDATE`, computed. */
  method UpsertedAssets(server: Server, account: Id, device: Id, source: string, uuid: Id)
    returns (assets: map<Id, Asset>, asset: Id)
    requires UniqueAssets(server.Rows())
    ensures UpsertAsset(server.Rows(), account, device, source, uuid) == (server.Rows().(assets := assets), asset)
  {
    if a :| a in server.assets && server.assets[a].account == account && server.assets[a].device == device
            && server.assets[a].source == source {
      assert IsAsset(server.Rows(), a, account, device, source);
      asset := a;
      assets := server.assets[a := server.assets[a].(trashed := false)];
    } else {
      assert forall a :: !IsAsset(server.Rows(), a, account, device, source);
      asset := uuid;
      assets := server.assets[uuid := Asset(account, device, source, false)];
    }
  }

  /** `ensure_quota`, for an upload not yet created. */
  method EnsureQuota(server: Server, account: Id, requested: nat) returns (ok: bool)
    requires account in server.accounts
    ensures ok <==> CreateQuotaOk(server.Rows(), account, requested)
    ensures ok <==> HasRoom(server.Rows(), account, requested)
  {
    QuotaCheckIsExact(server.Rows(), account, requested);
    var quota := server.accounts[account].quota;
    if quota == 0 {
      return true;
    }
    var used := server.UsedBytes(account);
    var reserved := server.ReservedBytes(account, RESERVING);
    return Saturate(used + reserved + requested) <= quota;
  }

  /** How the first transaction of `create_upload` ends. */
  datatype Opening = Stored(asset: Id, blob: Id) | Active(upload: Id) | Opened(upload: Id)

  ghost predicate IsStored(db: Db, account: Id, request: Request) {
    exists b :: b in db.blobs && db.blobs[b].account == account && db.blobs[b].blake3 == request.blake3
  }

  /** An upload of this content for this resource is under way. */
  ghost predicate Awaits(row: Upload, account: Id, device: Id, request: Request) {
    row.account == account && row.device == device && row.request.sourceResource == request.sourceResource
    && row.request.blake3 == request.blake3 && !row.done && row.commit in {Receiving, Started, Finalizing}
  }

  ghost predicate IsAwaited(db: Db, account: Id, device: Id, request: Request) {
    exists u :: u in db.uploads && Awaits(db.uploads[u], account, device, request)
  }

  /** Why a well-formed request is refused. */
  ghost function CreateRefusal(db: Db, account: Id, device: Id, request: Request): Option<Refusal> {
    if account !in db.accounts then Some(Unauthorized)
    else if !db.accounts[account].enabled then Some(Forbidden)
    else if IsStored(db, account, request) || IsAwaited(db, account, device, request) then None
    else if request.size > I64_MAX then Some(BadRequest)
    else if !HasRoom(db, account, request.size) then Some(OverQuota)
    else None
  }

  /** The device's asset is there and out of the trash; no other has changed. */
  ghost predicate AssetThere(db: Db, db': Db, account: Id, device: Id, source: string) {
    && (exists a :: IsAsset(db', a, account, device, source) && !db'.assets[a].trashed)
    && (forall a :: a in db.assets && !IsAsset(db, a, account, device, source) ==>
          a in db'.assets && db'.assets[a] == db.assets[a])
    && (forall a :: a in db'.assets && a !in db.assets ==> IsAsset(db', a, account, device, source))
  }

  /** A new upload of this request, with nothing received. */
  ghost predicate IsNewUpload(row: Upload, account: Id, device: Id, request: Request) {
    row.account == account && row.device == device && row.request == request && row.commit == Receiving && !row.done
    && |row.parts| == |request.parts|
    && forall i :: 0 <= i < |row.parts| ==> row.parts[i].spec == request.parts[i] && !row.parts[i].received
  }

  /** What an opening means, read off the rows it found. */
  ghost predicate OpeningFits(db: Db, db': Db, account: Id, device: Id, request: Request, opening: Opening) {
    AssetThere(db, db', account, device, request.sourceAsset)
    && if IsStored(db, account, request) then opening.Stored? && db'.uploads == db.uploads
       else if IsAwaited(db, account, device, request) then
         opening.Active? && opening.upload in db.uploads && Awaits(db.uploads[opening.upload], account, device, request)
         && db'.uploads == db.uploads
       else
         opening.Opened? && opening.upload !in db.uploads && opening.upload in db'.uploads
         && IsNewUpload(db'.uploads[opening.upload], account, device, request)
         && IsAsset(db', db'.uploads[opening.upload].asset, account, device, request.sourceAsset)
         && db'.uploads == db.uploads[opening.upload := db'.uploads[opening.upload]]
  }

  lemma AwaitsIsActive(row: Upload, account: Id, device: Id, request: Request)
    ensures Awaits(row, account, device, request) <==> IsActive(row) && SameTarget(row, account, device, request)
  {
  }

  /** What an opening leaves for the rest of `create_upload`. */
  ghost predicate OpeningOk(db: Db, account: Id, device: Id, request: Request, opening: Opening) {
    account in db.accounts && match opening
      case Stored(asset, blob) =>
        blob in db.blobs && IsContent(db, blob, account, request.blake3)
        && IsAsset(db, asset, account, device, request.sourceAsset)
      case Active(upload) =>
        upload in db.uploads && IsActive(db.uploads[upload]) && SameTarget(db.uploads[upload], account, device, request)
      case Opened(upload) =>
        upload in db.uploads && exists asset :: db.uploads[upload] == NewUpload(account, device, asset, request)
  }

  /** That transaction: the asset, and unless the content is stored or an
      upload of it is active, a new upload within the quota. */
  method CreateTransaction(server: Server, account: Id, device: Id, request: Request, assetId: Id, uploadId: Id)
    returns (r: Result<Opening, Refusal>)
    requires UniqueBlobs(server.Rows()) && UniqueAssets(server.Rows())
    requires UploadRequestOk(request, server.cfg.maxPart) && assetId !in server.assets && uploadId !in server.uploads
    modifies server`assets, server`uploads
    ensures server.Rows() == CreateTx(server.cfg, old(server.Rows()), account, device, request, assetId, uploadId)
    ensures r.Err? ==> server.Rows() == old(server.Rows())
    ensures r.Ok? ==> OpeningOk(server.Rows(), account, device, request, r.value)
    ensures r.Err? || !r.value.Opened? ==> server.uploads == old(server.uploads)
    ensures var refusal := CreateRefusal(old(server.Rows()), account, device, request);
      if refusal.Some? then r == Err(refusal.value)
      else r.Ok? && OpeningFits(old(server.Rows()), server.Rows(), account, device, request, r.value)
  {
    hide FindBlob, CreateQuotaOk, UploadRequestOk, HasRoom;
    if account !in server.accounts {
      return Err(Unauthorized);
    }
    if !server.accounts[account].enabled {
      return Err(Forbidden);
    }
    ghost var before := server.Rows();
    var assets, asset := UpsertedAssets(server, account, device, request.sourceAsset, assetId);
    UpsertedIsAsset(before, account, device, request.sourceAsset, assetId);
    UpsertedIsThere(before, account, device, request.sourceAsset, assetId);
    hide UpsertAsset;
    var existing := server.LoadBlobCandidate(account, request.blake3);
    StoredIff(before, account, request);
    if existing.Some? {
      server.assets := assets;
      return Ok(Stored(asset, existing.value));
    }
    forall u | u in before.uploads
      ensures Awaits(before.uploads[u], account, device, request)
          <==> IsActive(before.uploads[u]) && SameTarget(before.uploads[u], account, device, request)
    {
      AwaitsIsActive(before.uploads[u], account, device, request);
    }
    hide Awaits, IsActive, SameTarget;
    if u :| u in server.uploads && IsActive(server.uploads[u])
            && SameTarget(server.uploads[u], account, device, request) {
      server.assets := assets;
      assert IsAwaited(before, account, device, request);
      return Ok(Active(u));
    }
    assert !IsAwaited(before, account, device, request);
    if request.size > I64_MAX {
      return Err(BadRequest);
    }
    var enough := EnsureQuota(server, account, request.size);
    if !enough {
      return Err(OverQuota);
    }
    server.assets := assets;
    server.uploads := server.uploads[uploadId := NewUpload(account, device, asset, request)];
    return Ok(Opened(uploadId));
  }

  lemma UpsertedIsAsset(db: Db, account: Id, device: Id, source: string, uuid: Id)
    ensures var (db', asset) := UpsertAsset(db, account, device, source, uuid);
      IsAsset(db', asset, account, device, source) && db' == db.(assets := db'.assets)
  {
  }

  lemma StoredIff(db: Db, account: Id, request: Request)
    ensures IsStored(db, account, request) <==> FindBlob(db, account, request.blake3).Some?
  {
    var found := FindBlob(db, account, request.blake3);
    if IsStored(db, account, request) {
      var b :| b in db.blobs && db.blobs[b].account == account && db.blobs[b].blake3 == request.blake3;
      assert IsContent(db, b, account, request.blake3);
    }
  }

  lemma UpsertedIsThere(db: Db, account: Id, device: Id, source: string, uuid: Id)
    requires UniqueAssets(db) && uuid !in db.assets
    ensures AssetThere(db, UpsertAsset(db, account, device, source, uuid).0, account, device, source)
  {
    var (db', asset) := UpsertAsset(db, account, device, source, uuid);
    UpsertedIsAsset(db, account, device, source, uuid);
    assert IsAsset(db', asset, account, device, source) && !db'.assets[asset].trashed;
  }

  /** The stored content is what the request describes, and its object is there. */
  ghost predicate StoredMatches(cfg: Config, db: Db, files: Files, account: Id, request: Request) {
    exists b :: b in db.blobs && db.blobs[b].account == account && db.blobs[b].blake3 == request.blake3
      && db.blobs[b].size == request.size && db.blobs[b].key in files
      && ContentIs(cfg, files[db.blobs[b].key], request.size, request.blake3)
  }

  /** What a creation is answered when nothing fails, read off the rows and
      files it found: why it is refused; stored content, if its object is right;
      the upload under way, with the parts it lacks; or else a new one, which
      lacks them all. */
  ghost predicate CreationAnswers(cfg: Config, db: Db, files: Files, account: Id, device: Id, request: Request,
                                  db': Db, r: Result<Created, Refusal>)
  {
    if !UploadRequestOk(request, cfg.maxPart) then r == Err(BadRequest) && db' == db
    else if CreateRefusal(db, account, device, request).Some? then
      r == Err(CreateRefusal(db, account, device, request).value) && db' == db
    else
      AssetThere(db, db', account, device, request.sourceAsset)
      && if IsStored(db, account, request) then
           if StoredMatches(cfg, db, files, account, request) then r.Ok? && r.value.AlreadyStored?
           else r == Err(Conflict)
         else if IsAwaited(db, account, device, request) then
           r.Ok? && r.value.Pending? && r.value.upload in db.uploads
           && Awaits(db.uploads[r.value.upload], account, device, request)
           && MissingOf(db.uploads[r.value.upload], r.value.missing) && db'.uploads == db.uploads
         else
           r.Ok? && r.value.Pending? && r.value.upload !in db.uploads && r.value.upload in db'.uploads
           && IsNewUpload(db'.uploads[r.value.upload], account, device, request)
           && MissingOf(db'.uploads[r.value.upload], r.value.missing)
           && (forall i: nat :: i in r.value.missing <==> i < |request.parts|)
           && db'.uploads == db.uploads[r.value.upload := db'.uploads[r.value.upload]]
  }

  /** The UUIDs drawn and the first transaction, as one step of the protocol. */
  method OpenUpload(server: Server, account: Id, device: Id, request: Request)
    returns (opening: Result<Opening, Refusal>, ghost create: Action)
    requires server.Valid() && Inv(server.cfg, server.View()) && UniqueAssets(server.Rows())
    requires UploadRequestOk(request, server.cfg.maxPart)
    modifies server
    ensures server.Valid() && Inv(server.cfg, server.View()) && UniqueAssets(server.Rows())
    ensures Enabled(server.cfg, old(server.View()), create)
    ensures server.View() == Apply(server.cfg, old(server.View()), create)
    ensures opening.Ok? ==> OpeningOk(server.Rows(), account, device, request, opening.value)
    ensures opening.Err? || !opening.value.Opened? ==> server.uploads == old(server.uploads)
    ensures server.blobs == old(server.blobs) && server.resources == old(server.resources)
    ensures server.accounts == old(server.accounts) && (opening.Err? ==> server.Rows() == old(server.Rows()))
    ensures var refusal := CreateRefusal(old(server.Rows()), account, device, request);
      if refusal.Some? then opening == Err(refusal.value)
      else opening.Ok? && OpeningFits(old(server.Rows()), server.Rows(), account, device, request, opening.value)
  {
    ghost var s := server.View();
    var first := server.Tick();
    var second := server.Tick();
    create := Create(account, device, request, first.uuid, second.uuid);
    CreateIsEnabled(server.cfg, s, server.world, create);
    InvTables(server.cfg, s);
    assert first.uuid !in s.db.assets && second.uuid !in s.db.uploads;
    hide Core, Inv, CreateTx, UniqueAssets, CreateRefusal, OpeningFits, IsAsset, IsContent, SameTarget, IsActive,
      UploadRequestOk, Enabled;
    opening := CreateTransaction(server, account, device, request, first.uuid, second.uuid);
    assert server.View() == Apply(server.cfg, s, create);
    hide Apply;
    ActionUniqueAssets(server.cfg, s, create);
    ActionKeepsInv(server.cfg, s, create);
    InvValid(server);
  }

  /** `create_upload`: a resource at once when the content is stored, and else
      the one active upload of it, with the parts it still lacks. */
  method CreateUpload(server: Server, account: Id, device: Id, request: Request)
    returns (r: Result<Created, Refusal>, ghost steps: seq<Action>)
    requires server.Valid() && Inv(server.cfg, server.View()) && UniqueAssets(server.Rows())
    modifies server
    ensures server.Valid() && Inv(server.cfg, server.View()) && UniqueAssets(server.Rows())
    ensures Reaches(server.cfg, old(server.View()), steps, server.View()) && |steps| <= 2
    ensures !UploadRequestOk(request, server.cfg.maxPart) ==> r == Err(BadRequest) && steps == []
    ensures r.Ok? ==>
      CreatedOk(server.cfg, server.Rows(), server.storage.files, account, device, request, r.value)
    ensures r.Err? ==>
      server.uploads == old(server.uploads) && server.blobs == old(server.blobs)
    ensures OtherResourcesKept(old(server.resources), server.resources, r)
    ensures Faultless(server.world) ==>
      CreationAnswers(server.cfg, old(server.Rows()), server.storage.files, account, device, request, server.Rows(), r)
  {
    hide StoredMatches, CreateRefusal, OpeningFits, OpeningOk, CreationAnswers, CreatedOk, Answered, Core, Inv,
      UniqueAssets, UploadRequestOk, Enabled, Apply, Reaches;
    ghost var s := server.View();
    steps := [];
    ReachesNothing(server.cfg, s);
    var valid := ValidateUploadRequest(request, server.cfg.maxPart);
    if !valid {
      InvalidAnswers(server.cfg, s, account, device, request);
      return Err(BadRequest), [];
    }
    var luck := NextFault(server);
    if luck != Works {
      return Err(StorageError), [];
    }
    ghost var create;
    var opening;
    opening, create := OpenUpload(server, account, device, request);
    steps := [create];
    OneStep(server.cfg, s, create);
    if opening.Err? {
      RefusedAnswers(server.cfg, s, account, device, request);
      return Err(opening.error), steps;
    }
    ghost var s1 := server.View();
    ghost var attach;
    r, attach := FollowOpening(server, account, device, request, opening.value);
    if attach.Some? {
      steps := [create, attach.value];
      TwoSteps(server.cfg, s, s1, create, attach.value);
    }
    OpenedAnswers(server.cfg, s, s1, server.View(), account, device, request, opening.value, r);
  }

  /** What the answer to an opening is, when nothing fails. */
  ghost predicate Answered(cfg: Config, s: Sys, account: Id, request: Request, opening: Opening,
                           r: Result<Created, Refusal>)
  {
    match opening
    case Stored(_, _) =>
      if StoredMatches(cfg, s.db, s.files, account, request) then r.Ok? && r.value.AlreadyStored?
      else r == Err(Conflict)
    case Active(u) =>
      u in s.db.uploads && r.Ok? && r.value.Pending? && r.value.upload == u
      && MissingOf(s.db.uploads[u], r.value.missing)
    case Opened(u) =>
      u in s.db.uploads && r.Ok? && r.value.Pending? && r.value.upload == u
      && MissingOf(s.db.uploads[u], r.value.missing)
  }

  /** The rest of `create_upload` after its first transaction. */
  method FollowOpening(server: Server, account: Id, device: Id, request: Request, opening: Opening)
    returns (r: Result<Created, Refusal>, ghost attach: Option<Action>)
    requires server.Valid() && Inv(server.cfg, server.View()) && UniqueAssets(server.Rows())
    requires OpeningOk(server.Rows(), account, device, request, opening)
    modifies server
    ensures server.Valid() && Inv(server.cfg, server.View()) && UniqueAssets(server.Rows())
    ensures server.uploads == old(server.uploads) && server.blobs == old(server.blobs)
    ensures server.assets == old(server.assets)
    ensures if attach.None? then server.View() == old(server.View())
            else Enabled(server.cfg, old(server.View()), attach.value)
                 && server.View() == Apply(server.cfg, old(server.View()), attach.value)
    ensures r.Err? ==> attach.None? && opening.Stored?
    ensures OtherResourcesKept(old(server.resources), server.resources, r)
    ensures r.Ok? ==>
      CreatedOk(server.cfg, server.Rows(), server.storage.files, account, device, request, r.value)
    ensures Faultless(server.world) ==> Answered(server.cfg, old(server.View()), account, request, opening, r)
  {
    hide Core, Inv, UniqueAssets, IsAsset, IsContent, Enabled, Apply, StoredMatches;
    attach := None;
    match opening
    case Active(upload) =>
      var missing := MissingParts(server.uploads[upload]);
      r := Ok(Pending(upload, missing));
    case Opened(upload) =>
      var missing := MissingParts(server.uploads[upload]);
      OpenedIsActive(server.uploads[upload], account, device, request);
      r := Ok(Pending(upload, missing));
    case Stored(asset, blob) =>
      r, attach := AttachStored(server, account, device, request, asset, blob);
  }

  lemma InvalidAnswers(cfg: Config, s: Sys, account: Id, device: Id, request: Request)
    requires !UploadRequestOk(request, cfg.maxPart)
    ensures CreationAnswers(cfg, s.db, s.files, account, device, request, s.db, Err(BadRequest))
  {
  }

  lemma RefusedAnswers(cfg: Config, s: Sys, account: Id, device: Id, request: Request)
    requires UploadRequestOk(request, cfg.maxPart) && CreateRefusal(s.db, account, device, request).Some?
    ensures CreationAnswers(cfg, s.db, s.files, account, device, request, s.db,
                            Err(CreateRefusal(s.db, account, device, request).value))
  {
  }

  /** What the rows and files before say of the answer that follows an opening. */
  lemma OpenedAnswers(cfg: Config, s: Sys, s1: Sys, s': Sys, account: Id, device: Id, request: Request,
                      opening: Opening, r: Result<Created, Refusal>)
    requires UploadRequestOk(request, cfg.maxPart) && CreateRefusal(s.db, account, device, request).None?
    requires OpeningFits(s.db, s1.db, account, device, request, opening)
    requires s1.db.blobs == s.db.blobs && s1.files == s.files
    requires s'.db.uploads == s1.db.uploads && s'.db.assets == s1.db.assets
    ensures Answered(cfg, s1, account, request, opening, r) ==>
      CreationAnswers(cfg, s.db, s.files, account, device, request, s'.db, r)
  {
    hide UploadRequestOk, CreateRefusal, Awaits, IsStored, IsAwaited;
    assert StoredMatches(cfg, s1.db, s1.files, account, request)
      <==> StoredMatches(cfg, s.db, s.files, account, request);
    hide StoredMatches;
    assert AssetThere(s.db, s'.db, account, device, request.sourceAsset) by {
      SameAssets(s.db, s1.db, s'.db, account, device, request.sourceAsset);
    }
    hide AssetThere;
    if opening.Opened? && Answered(cfg, s1, account, request, opening, r) {
      AllMissing(s1.db.uploads[opening.upload], account, device, request, r.value.missing);
    }
  }

  lemma AllMissing(row: Upload, account: Id, device: Id, request: Request, missing: seq<nat>)
    requires IsNewUpload(row, account, device, request) && MissingOf(row, missing)
    ensures forall i: nat :: i in missing <==> i < |request.parts|
  {
    forall i: nat ensures i in missing <==> i < |request.parts| {
      assert i in missing <==> IsMissing(row, i);
    }
  }

  lemma SameAssets(db: Db, db1: Db, db': Db, account: Id, device: Id, source: string)
    requires AssetThere(db, db1, account, device, source) && db'.assets == db1.assets
    ensures AssetThere(db, db', account, device, source)
  {
    var a :| IsAsset(db1, a, account, device, source) && !db1.assets[a].trashed;
    assert IsAsset(db', a, account, device, source) && !db'.assets[a].trashed;
    forall b | b in db'.assets && b !in db.assets ensures IsAsset(db', b, account, device, source) {
      assert IsAsset(db1, b, account, device, source);
    }
  }

  lemma ReachesNothing(cfg: Config, s: Sys)
    ensures Reaches(cfg, s, [], s)
  {
  }

  lemma CreateIsEnabled(cfg: Config, s: Sys, w: World, create: Action)
    requires WorldOk(w) && create.Create? && create.assetId == w.draw(s.issued)
    requires create.uploadId == w.draw(s.issued + {create.assetId})
    ensures Enabled(cfg, s, create)
  {
    assert create.assetId !in s.issued && create.uploadId !in s.issued + {create.assetId};
  }

  lemma OpenedIsActive(row: Upload, account: Id, device: Id, request: Request)
    requires exists asset :: row == NewUpload(account, device, asset, request)
    ensures IsActive(row) && SameTarget(row, account, device, request)
  {
  }

  lemma InvTables(cfg: Config, s: Sys)
    requires Inv(cfg, s)
    ensures UniqueBlobs(s.db) && UniqueSlots(s.db)
  {
  }

  /** What becomes of the next call into SQLite or storage. */
  method NextFault(server: Server) returns (fault: Fault)
    modifies server`clock
    ensures fault == server.world.fault(old(server.clock))
  {
    fault := server.world.fault(server.clock);
    server.clock := server.clock + 1;
  }

  /** The rest of `create_upload` when the content is stored: inspect the
      object, and attach it in a transaction of its own. */
  method AttachStored(server: Server, account: Id, device: Id, request: Request, asset: Id, blob: Id)
    returns (r: Result<Created, Refusal>, ghost attach: Option<Action>)
    requires server.Valid() && Inv(server.cfg, server.View()) && UniqueAssets(server.Rows())
    requires account in server.accounts && blob in server.blobs
    requires IsContent(server.Rows(), blob, account, request.blake3)
    requires IsAsset(server.Rows(), asset, account, device, request.sourceAsset)
    modifies server
    ensures server.Valid() && Inv(server.cfg, server.View()) && UniqueAssets(server.Rows())
    ensures server.uploads == old(server.uploads) && server.blobs == old(server.blobs)
    ensures if attach.None? then r.Err? && server.View() == old(server.View())
            else r.Ok? && Enabled(server.cfg, old(server.View()), attach.value)
                 && server.View() == Apply(server.cfg, old(server.View()), attach.value)
    ensures r.Ok? ==> CreatedOk(server.cfg, server.Rows(), server.storage.files, account, device, request, r.value)
    ensures server.assets == old(server.assets) && (r.Ok? ==> r.value.AlreadyStored?)
    ensures OtherResourcesKept(old(server.resources), server.resources, r)
    ensures Faultless(server.world) ==>
      if StoredMatches(server.cfg, old(server.Rows()), server.storage.files, account, request) then r.Ok?
      else r == Err(Conflict)
  {
    attach := None;
    OneStored(server.cfg, server.View(), account, request, blob);
    hide StoredMatches;
    var row := server.blobs[blob];
    if row.size != request.size {
      return Err(Conflict), None;
    }
    var luck := NextFault(server);
    var path := server.accounts[account].path;
    var seen := server.storage.InspectObject(path, row.key, request.size, request.blake3, luck);
    if seen != Ok(Matches) {
      return Err(if seen.Err? then seen.error else Conflict), None;
    }
    luck := NextFault(server);
    if luck != Works {
      return Err(StorageError), None;
    }
    ghost var s := server.View();
    InvTables(server.cfg, s);
    hide Core, Inv, UniqueAssets, Apply, Enabled, IsAsset, IsContent, InspectFile;
    var ch := server.Tick();
    var slot := server.FindSlot(asset, request.sourceResource);
    var resource := if slot.Some? then slot.value else ch.uuid;
    server.resources := server.resources[resource := Resource(asset, blob, request.sourceResource)];
    attach := Some(Attach(asset, blob, request.sourceResource, ch.uuid));
    AttachIsAStep(server.cfg, s, server.View(), account, device, request, asset, blob, resource, ch.uuid);
    ActionUniqueAssets(server.cfg, s, attach.value);
    ActionKeepsInv(server.cfg, s, attach.value);
    InvValid(server);
    r := Ok(AlreadyStored(resource));
  }

  /** The account's only row of this content decides. */
  lemma OneStored(cfg: Config, s: Sys, account: Id, request: Request, b: Id)
    requires Inv(cfg, s) && IsContent(s.db, b, account, request.blake3) && account in s.db.accounts
    ensures InScope(s.db.accounts[account].path, s.db.blobs[b].key)
    ensures StoredMatches(cfg, s.db, s.files, account, request) <==>
      s.db.blobs[b].size == request.size
      && InspectFile(cfg, s.files, s.db.blobs[b].key, request.size, request.blake3) == Matches
  {
    assert BlobOk(cfg, s.db, b) && UniqueBlobs(s.db);
    hide Core;
  }

  lemma AttachIsAStep(cfg: Config, s: Sys, s': Sys, account: Id, device: Id, request: Request, asset: Id, blob: Id,
                      resource: Id, uuid: Id)
    requires IsContent(s.db, blob, account, request.blake3) && s.db.blobs[blob].size == request.size
    requires IsAsset(s.db, asset, account, device, request.sourceAsset) && uuid !in s.issued
    requires InspectFile(cfg, s.files, s.db.blobs[blob].key, request.size, request.blake3) == Matches
    requires var slot := FindResource(s.db, asset, request.sourceResource);
      resource == if slot.Some? then slot.value else uuid
    requires s' == s.(
      db := s.db.(resources := s.db.resources[resource := Resource(asset, blob, request.sourceResource)]),
      issued := s.issued + {uuid})
    ensures var attach := Attach(asset, blob, request.sourceResource, uuid);
      Enabled(cfg, s, attach) && s' == Apply(cfg, s, attach)
    ensures CreatedOk(cfg, s'.db, s'.files, account, device, request, AlreadyStored(resource))
  {
  }
}
