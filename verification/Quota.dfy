/** Conservation of an account's quota over every run: bytes move from an
    upload's reservation to its blob, and are never counted twice. */
module Quota {
  import opened Types
  import opened CommitModel
  import opened CommitInvariant
  import opened CommitSteps
  import opened CommitRuns
  import opened CommitSafety

  // ----- sums over rows ----------------------------------------------------------------

  lemma {:induction false} MapSumRemove(m: map<Id, nat>, k: Id)
    requires k in m
    ensures MapSum(m) == m[k] + MapSum(m - {k})
    decreases |m|
  {
    var k0 :| k0 in m && MapSum(m) == m[k0] + MapSum(m - {k0});
    if k0 != k {
      MapSumRemove(m - {k0}, k);
      MapSumRemove(m - {k}, k0);
      assert m - {k0} - {k} == m - {k} - {k0};
    }
  }

  lemma MapSumSet(m: map<Id, nat>, k: Id, v: nat)
    ensures MapSum(m[k := v]) == MapSum(m) - (if k in m then m[k] else 0) + v
  {
    MapSumRemove(m[k := v], k);
    if k in m {
      MapSumRemove(m, k);
      assert m[k := v] - {k} == m - {k};
    } else {
      assert m[k := v] - {k} == m;
    }
  }

  lemma {:induction false} MapSumMonotone(m: map<Id, nat>, n: map<Id, nat>)
    requires m.Keys <= n.Keys && forall k :: k in m ==> m[k] <= n[k]
    ensures MapSum(m) <= MapSum(n)
    decreases |m|
  {
    if m != map[] {
      var k :| k in m;
      MapSumRemove(m, k);
      MapSumRemove(n, k);
      MapSumMonotone(m - {k}, n - {k});
    }
  }

  lemma {:induction false} RowsSizeOfManifest(parts: seq<PartRow>, specs: seq<PartSpec>)
    requires |parts| == |specs| && forall i :: 0 <= i < |parts| ==> parts[i].spec == specs[i]
    ensures RowsSize(parts) == PartsSize(specs)
  {
    if parts != [] {
      RowsSizeOfManifest(parts[1..], specs[1..]);
    }
  }

  // ----- the invariant -------------------------------------------------------------------

  ghost function Charged(db: Db, account: Id): nat {
    MapSum(BlobSizes(db, account)) + MapSum(Reservations(db, account, RESERVING))
  }

  /** What an account is charged for: the size of each of its blobs ... */
  lemma ChargedForBlobs(db: Db, account: Id, b: Id)
    requires b in db.blobs
    ensures Charged(db, account) == Charged(db.(blobs := db.blobs - {b}), account)
                                  + if db.blobs[b].account == account then db.blobs[b].size else 0
  {
    var db' := db.(blobs := db.blobs - {b});
    MapSumRemove(BlobSizes(db, account), b);
    assert BlobSizes(db, account) - {b} == BlobSizes(db', account);
    assert Reservations(db, account, RESERVING) == Reservations(db', account, RESERVING);
  }

  /** ... and of each of its uploads that is not done and may still commit or is
      unknown; nothing else, and nothing of another account's. */
  lemma ChargedForUploads(db: Db, account: Id, u: Id)
    requires u in db.uploads && ManifestRows(db.uploads[u]) && RequestOk(db.uploads[u].request)
    ensures var row := db.uploads[u];
      Charged(db, account) == Charged(db.(uploads := db.uploads - {u}), account)
        + if row.account == account && !row.done && row.commit in {Receiving, Started, Finalizing, Unknown}
          then row.request.size else 0
  {
    var db' := db.(uploads := db.uploads - {u});
    MapSumRemove(Reservations(db, account, RESERVING), u);
    assert Reservations(db, account, RESERVING) - {u} == Reservations(db', account, RESERVING);
    assert BlobSizes(db, account) == BlobSizes(db', account);
    RowsSizeOfManifest(db.uploads[u].parts, db.uploads[u].request.parts);
  }

  lemma NothingStoredNothingCharged(db: Db, account: Id)
    requires db.blobs == map[] && db.uploads == map[]
    ensures Charged(db, account) == 0
  {
    assert BlobSizes(db, account) == map[] && Reservations(db, account, RESERVING) == map[];
  }

  ghost predicate WithinQuota(db: Db, account: Id) {
    account in db.accounts && 0 < db.accounts[account].quota < I64_MAX ==>
      Charged(db, account) <= db.accounts[account].quota
  }

  /** One active upload per device, resource and content. */
  ghost predicate OneActive(db: Db) {
    forall u, v ::
      (u in db.uploads && v in db.uploads && u != v
       && IsActive(db.uploads[u]) && IsActive(db.uploads[v]))
      ==> !SameTarget(db.uploads[u], db.uploads[v].account, db.uploads[v].device, db.uploads[v].request)
  }

  /** The saturating comparison of the server means what it should for every
      total exactly when the quota is below the largest 64-bit integer. */
  lemma SaturatingCheckExact(quota: nat)
    ensures (forall total: nat :: Saturate(total) <= quota <==> total <= quota) <==> quota < I64_MAX
  {
    if quota >= I64_MAX {
      assert Saturate(quota + 1) == I64_MAX;
    }
  }

  /** So much more fits the account: it has no limit, one no sum can pass, or
      one that what is stored, reserved and asked for stays within. */
  ghost predicate HasRoom(db: Db, account: Id, size: nat)
    requires account in db.accounts
  {
    var quota := db.accounts[account].quota;
    quota == 0 || I64_MAX <= quota || Charged(db, account) + size <= quota
  }

  /** The server's check says just that. */
  lemma QuotaCheckIsExact(db: Db, account: Id, size: nat)
    requires account in db.accounts
    ensures CreateQuotaOk(db, account, size) <==> HasRoom(db, account, size)
  {
    hide MapSum, BlobSizes, Reservations;
  }

  /** Nothing is charged that was not: blobs and reservations only shrink. */
  lemma ChargedMonotone(db: Db, db': Db, account: Id)
    requires forall b :: b in db'.blobs ==> b in db.blobs && db'.blobs[b] == db.blobs[b]
    requires forall u :: u in db'.uploads ==>
      u in db.uploads && RowsSize(db'.uploads[u].parts) == RowsSize(db.uploads[u].parts)
      && (Reserves(db'.uploads[u], account, RESERVING) ==> Reserves(db.uploads[u], account, RESERVING))
    ensures Charged(db', account) <= Charged(db, account)
  {
    MapSumMonotone(BlobSizes(db', account), BlobSizes(db, account));
    MapSumMonotone(Reservations(db', account, RESERVING), Reservations(db, account, RESERVING));
  }

  lemma ChargedNew(db: Db, account: Id, u: Id, row: Upload)
    requires u !in db.uploads
    ensures Charged(db.(uploads := db.uploads[u := row]), account)
         <= Charged(db, account) + (if row.account == account then RowsSize(row.parts) else 0)
  {
    var db' := db.(uploads := db.uploads[u := row]);
    assert BlobSizes(db', account) == BlobSizes(db, account);
    var more := if Reserves(row, account, RESERVING) then RowsSize(row.parts) else 0;
    ReservationsOfNew(db, account, u, row);
    hide MapSum, RowsSize, Reservations, BlobSizes;
    MapSumSet(Reservations(db, account, RESERVING), u, more);
  }

  lemma ReservationsOfNew(db: Db, account: Id, u: Id, row: Upload)
    requires u !in db.uploads
    ensures var db' := db.(uploads := db.uploads[u := row]);
      Reservations(db', account, RESERVING)
      == Reservations(db, account, RESERVING)[
           u := if Reserves(row, account, RESERVING) then RowsSize(row.parts) else 0]
    ensures u !in Reservations(db, account, RESERVING)
  {
    hide RowsSize, MapSum;
  }

  /** Creating an upload changes assets, and adds one upload row or none. */
  lemma CreateShape(cfg: Config, db: Db, account: Id, device: Id, request: Request, assetId: Id, uploadId: Id)
    ensures var db' := CreateTx(cfg, db, account, device, request, assetId, uploadId);
      db' == db.(assets := db'.assets)
      || (UploadRequestOk(request, cfg.maxPart) && account in db.accounts
          && CreateQuotaOk(db, account, request.size)
          && (forall u :: u in db.uploads && IsActive(db.uploads[u]) ==>
                !SameTarget(db.uploads[u], account, device, request))
          && uploadId in db'.uploads
          && db'.uploads[uploadId] == NewUpload(account, device, db'.uploads[uploadId].asset, request)
          && db' == db.(assets := db'.assets, uploads := db.uploads[uploadId := db'.uploads[uploadId]]))
  {
  }

  lemma CreateWithinQuota(cfg: Config, db: Db, account: Id, device: Id, request: Request, assetId: Id, uploadId: Id,
                          charged: Id)
    requires uploadId !in db.uploads && WithinQuota(db, charged)
    ensures WithinQuota(CreateTx(cfg, db, account, device, request, assetId, uploadId), charged)
  {
    var db' := CreateTx(cfg, db, account, device, request, assetId, uploadId);
    CreateShape(cfg, db, account, device, request, assetId, uploadId);
    var masters := db.(assets := db'.assets);
    assert BlobSizes(masters, charged) == BlobSizes(db, charged);
    assert Reservations(masters, charged, RESERVING) == Reservations(db, charged, RESERVING);
    if db' != masters {
      var row := db'.uploads[uploadId];
      ChargedNew(masters, charged, uploadId, row);
      RowsSizeOfManifest(row.parts, request.parts);
    }
  }

  /** A step that writes no blob at most releases its upload's reservation. */
  lemma RowStepCharges(cfg: Config, s: Sys, u: Id, ch: Choice, account: Id)
    requires Inv(cfg, s) && u in s.calls
    requires Act(cfg, s.db, s.files, u, s.calls[u], ch).blob.None?
    ensures Charged(Advance(cfg, s, u, ch).db, account) <= Charged(s.db, account)
  {
    var pc := s.calls[u];
    var e := Act(cfg, s.db, s.files, u, pc, ch);
    var s' := Advance(cfg, s, u, ch);
    RowWriters(cfg, s.db, s.files, u, pc, ch);
    assert PcOk(cfg, s.db, s.files, u, pc) && RowOk(cfg, s.db, s.files, u);
    hide Core, Act, PcOk, RowOk;
    ReservationKept(cfg, s.db, s.files, u, pc, ch, account);
    ChargedMonotone(s.db, s'.db, account);
  }

  lemma ReservationKept(cfg: Config, db: Db, files: Files, u: Id, pc: Pc, ch: Choice, account: Id)
    requires PcOk(cfg, db, files, u, pc) && RowOk(cfg, db, files, u)
    ensures var e := Act(cfg, db, files, u, pc, ch);
      e.row.Some? ==>
        u in db.uploads && e.row.value.parts == db.uploads[u].parts
        && (Reserves(e.row.value, account, RESERVING) ==> Reserves(db.uploads[u], account, RESERVING))
  {
    RowWriters(cfg, db, files, u, pc, ch);
    match pc
    case BeginTx(_, _) =>
    case ToFinalizing(_) =>
    case MetadataTx(_, _, _) =>
    case Mark(_) =>
    case _ =>
  }

  lemma ReleasesReservation(db: Db, u: Id, row: Upload, account: Id)
    requires u in db.uploads && row.done && !db.uploads[u].done && db.uploads[u].commit in RESERVING
    ensures var db' := db.(uploads := db.uploads[u := row]);
      MapSum(Reservations(db', account, RESERVING))
      == MapSum(Reservations(db, account, RESERVING))
         - (if db.uploads[u].account == account then RowsSize(db.uploads[u].parts) else 0)
  {
    var db' := db.(uploads := db.uploads[u := row]);
    MapSumSet(Reservations(db, account, RESERVING), u, 0);
    assert Reservations(db', account, RESERVING) == Reservations(db, account, RESERVING)[u := 0];
  }

  lemma AddsBlob(db: Db, b: Id, blob: Blob, account: Id)
    requires b !in db.blobs
    ensures MapSum(BlobSizes(db.(blobs := db.blobs[b := blob]), account))
         == MapSum(BlobSizes(db, account)) + (if blob.account == account then blob.size else 0)
  {
    var more := if blob.account == account then blob.size else 0;
    MapSumSet(BlobSizes(db, account), b, more);
    assert BlobSizes(db.(blobs := db.blobs[b := blob]), account) == BlobSizes(db, account)[b := more];
  }

  lemma ChargedMove(db: Db, u: Id, row: Upload, b: Id, blob: Blob, account: Id)
    requires u in db.uploads && b !in db.blobs && row.done
    requires !db.uploads[u].done && db.uploads[u].commit in RESERVING
    requires db.uploads[u].account == blob.account && RowsSize(db.uploads[u].parts) == blob.size
    ensures Charged(db.(uploads := db.uploads[u := row], blobs := db.blobs[b := blob]), account) == Charged(db, account)
  {
    var released := db.(uploads := db.uploads[u := row]);
    ReleasesReservation(db, u, row, account);
    AddsBlob(released, b, blob, account);
    assert BlobSizes(released, account) == BlobSizes(db, account);
    var db' := released.(blobs := released.blobs[b := blob]);
    assert Reservations(db', account, RESERVING) == Reservations(released, account, RESERVING);
  }

  lemma ChargedIgnoresResources(db: Db, db': Db, account: Id)
    requires db'.uploads == db.uploads && db'.blobs == db.blobs
    ensures Charged(db', account) == Charged(db, account)
  {
    assert BlobSizes(db', account) == BlobSizes(db, account);
    assert Reservations(db', account, RESERVING) == Reservations(db, account, RESERVING);
  }

  /** The committing transaction moves the reserved bytes to the new blob. */
  lemma BlobStepCharges(cfg: Config, s: Sys, u: Id, ch: Choice, account: Id)
    requires Inv(cfg, s) && u in s.calls && ch.uuid !in s.issued
    requires Act(cfg, s.db, s.files, u, s.calls[u], ch).blob.Some?
    ensures Charged(Advance(cfg, s, u, ch).db, account) == Charged(s.db, account)
  {
    var pc := s.calls[u];
    RowWriters(cfg, s.db, s.files, u, pc, ch);
    assert RowOk(cfg, s.db, s.files, u);
    MetadataBlob(cfg, s.db, s.files, u, pc, ch.uuid);
    MetadataMoves(s.db, u, pc, ch.uuid);
    var e := ActMetadataTx(s.db, u, pc.ready, pc.attempt, pc.approved, ch.uuid);
    var (b, blob) := e.blob.value;
    RowsSizeOfManifest(s.db.uploads[u].parts, s.db.uploads[u].request.parts);
    ChargedMove(s.db, u, e.row.value, b, blob, account);
    ChargedIgnoresResources(
      s.db.(uploads := s.db.uploads[u := e.row.value], blobs := s.db.blobs[b := blob]),
      ApplyDb(s.db, u, e), account);
  }

  lemma MetadataMoves(db: Db, u: Id, pc: Pc, uuid: Id)
    requires pc.MetadataTx? && u in db.uploads && SnapshotOf(db, u, pc.ready, Finalizing)
    requires ActMetadataTx(db, u, pc.ready, pc.attempt, pc.approved, uuid).blob.Some?
    ensures var e := ActMetadataTx(db, u, pc.ready, pc.attempt, pc.approved, uuid);
      e.row.Some? && e.row.value.done && db.uploads[u].commit == Finalizing
      && e.blob.value.1.account == db.uploads[u].account && e.blob.value.1.size == db.uploads[u].request.size
  {
  }

  lemma ActionWithinQuota(cfg: Config, s: Sys, a: Action, account: Id)
    requires Inv(cfg, s) && Enabled(cfg, s, a) && WithinQuota(s.db, account)
    ensures WithinQuota(Apply(cfg, s, a).db, account)
  {
    if a.Create? {
      CreateWithinQuota(cfg, s.db, a.account, a.device, a.request, a.assetId, a.uploadId, account);
    } else if a.Step? {
      if Act(cfg, s.db, s.files, a.upload, s.calls[a.upload], a.choice).blob.None? {
        RowStepCharges(cfg, s, a.upload, a.choice, account);
      } else {
        BlobStepCharges(cfg, s, a.upload, a.choice, account);
      }
    } else {
      OtherWithinQuota(cfg, s, a, account);
    }
  }

  lemma OtherWithinQuota(cfg: Config, s: Sys, a: Action, account: Id)
    requires Enabled(cfg, s, a) && !a.Create? && !a.Step?
    ensures Charged(Apply(cfg, s, a).db, account) <= Charged(s.db, account)
    ensures account in s.db.accounts <==> account in Apply(cfg, s, a).db.accounts
    ensures account in s.db.accounts ==> Apply(cfg, s, a).db.accounts[account].quota == s.db.accounts[account].quota
  {
    var db' := Apply(cfg, s, a).db;
    forall u | u in db'.uploads
      ensures u in s.db.uploads && RowsSize(db'.uploads[u].parts) == RowsSize(s.db.uploads[u].parts)
      ensures Reserves(db'.uploads[u], account, RESERVING) ==> Reserves(s.db.uploads[u], account, RESERVING)
    {
      if a.PutRecord? && u == s.puts[a.put].upload {
        ReceivedSameSize(s.db.uploads[u].parts, s.puts[a.put].index);
      }
    }
    ChargedMonotone(s.db, db', account);
  }

  lemma {:induction false} ReceivedSameSize(parts: seq<PartRow>, index: nat)
    ensures index < |parts| ==> RowsSize(parts[index := parts[index].(received := true)]) == RowsSize(parts)
  {
    if 0 < index < |parts| {
      ReceivedSameSize(parts[1..], index - 1);
      assert parts[index := parts[index].(received := true)][1..]
          == parts[1..][index - 1 := parts[1..][index - 1].(received := true)];
    }
  }

  // ----- over runs -------------------------------------------------------------------------

  /** An account's blobs and reservations stay within its quota in every run. */
  lemma {:induction false} QuotaIsConserved(cfg: Config, states: seq<Sys>, actions: seq<Action>, i: nat, account: Id)
    requires Run(cfg, states, actions) && i < |states|
    ensures WithinQuota(states[i].db, account)
  {
    if i == 0 {
      assert BlobSizes(states[0].db, account) == map[];
      assert Reservations(states[0].db, account, RESERVING) == map[];
    } else {
      QuotaIsConserved(cfg, states, actions, i - 1, account);
      RunInv(cfg, states, actions, i - 1);
      ActionWithinQuota(cfg, states[i - 1], actions[i - 1], account);
    }
  }

  /** So the second check, made when a commit begins, refuses nobody. */
  lemma CommitQuotaNeverRefuses(cfg: Config, states: seq<Sys>, actions: seq<Action>, i: nat, u: Id, ch: Choice)
    requires Run(cfg, states, actions) && i < |states|
    requires var s := states[i];
      u in s.calls && u in s.db.uploads && s.calls[u].BeginTx?
      && s.db.uploads[u].account in s.db.accounts
      && s.db.accounts[s.db.uploads[u].account].quota <= I64_MAX
    ensures Act(cfg, states[i].db, states[i].files, u, states[i].calls[u], ch).pc != Returned(Err(OverQuota))
  {
    RunInv(cfg, states, actions, i);
    var s := states[i];
    var account := s.db.uploads[u].account;
    assert PcOk(cfg, s.db, s.files, u, s.calls[u]);
    QuotaIsConserved(cfg, states, actions, i, account);
    WithinQuotaCommits(s.db, account, u);
  }

  lemma WithinQuotaCommits(db: Db, account: Id, u: Id)
    requires account in db.accounts && db.accounts[account].quota <= I64_MAX && WithinQuota(db, account)
    requires u in db.uploads && db.uploads[u].account == account
    ensures CommitQuotaOk(db, account, u)
  {
    MapSumMonotone(Reservations(db, account, ACTIVE), Reservations(db, account, RESERVING));
  }

  lemma CreateOneActive(cfg: Config, db: Db, account: Id, device: Id, request: Request, assetId: Id, uploadId: Id)
    requires uploadId !in db.uploads && OneActive(db)
    ensures OneActive(CreateTx(cfg, db, account, device, request, assetId, uploadId))
  {
    CreateShape(cfg, db, account, device, request, assetId, uploadId);
  }

  lemma ActionOneActive(cfg: Config, s: Sys, a: Action)
    requires Inv(cfg, s) && Enabled(cfg, s, a) && OneActive(s.db)
    ensures OneActive(Apply(cfg, s, a).db)
  {
    if a.Create? {
      CreateOneActive(cfg, s.db, a.account, a.device, a.request, a.assetId, a.uploadId);
    } else {
      var db' := Apply(cfg, s, a).db;
      forall u | u in db'.uploads
        ensures u in s.db.uploads && (IsActive(db'.uploads[u]) ==> IsActive(s.db.uploads[u]))
        ensures SameRequest(s.db.uploads[u], db'.uploads[u])
      {
        RowActive(cfg, s, a, u);
      }
    }
  }

  lemma RowActive(cfg: Config, s: Sys, a: Action, u: Id)
    requires Inv(cfg, s) && Enabled(cfg, s, a) && !a.Create? && u in Apply(cfg, s, a).db.uploads
    ensures u in s.db.uploads && SameRequest(s.db.uploads[u], Apply(cfg, s, a).db.uploads[u])
    ensures IsActive(Apply(cfg, s, a).db.uploads[u]) ==> IsActive(s.db.uploads[u])
  {
    OldUpload(cfg, s, a, u);
    ActionLater(cfg, s, a, u);
    assert RowOk(cfg, s.db, s.files, u);
    if IsActive(Apply(cfg, s, a).db.uploads[u]) {
      ActiveBefore(s.db, u, s.db.uploads[u], Apply(cfg, s, a).db.uploads[u]);
    }
  }

  lemma ActiveBefore(db: Db, u: Id, row: Upload, row': Upload)
    requires Later(row, row') && RowDbOk(db, u, row) && IsActive(row')
    ensures IsActive(row)
  {
  }

  lemma OldUpload(cfg: Config, s: Sys, a: Action, u: Id)
    requires Inv(cfg, s) && Enabled(cfg, s, a) && !a.Create? && u in Apply(cfg, s, a).db.uploads
    ensures u in s.db.uploads
  {
    if a.Step? {
      ActSound(cfg, s.db, s.files, a.upload, s.calls[a.upload], a.choice);
    } else {
      OthersKeepUploads(cfg, s, a, u);
    }
  }

  lemma OthersKeepUploads(cfg: Config, s: Sys, a: Action, u: Id)
    requires Enabled(cfg, s, a) && !a.Create? && !a.Step? && u in Apply(cfg, s, a).db.uploads
    ensures u in s.db.uploads
  {
  }

  ghost predicate SameRequest(row: Upload, row': Upload) {
    row'.account == row.account && row'.device == row.device && row'.request == row.request
  }

  /** Retried creations never make a second active upload of one content. */
  lemma {:induction false} ActiveUploadsAreUnique(cfg: Config, states: seq<Sys>, actions: seq<Action>, i: nat)
    requires Run(cfg, states, actions) && i < |states|
    ensures OneActive(states[i].db)
  {
    if i > 0 {
      hide Inv, Apply, Enabled, OneActive, Initial;
      ActiveUploadsAreUnique(cfg, states, actions, i - 1);
      RunInv(cfg, states, actions, i - 1);
      ActionOneActive(cfg, states[i - 1], actions[i - 1]);
    }
  }

  /** A creation that is retried finds what the first one left: whatever the
      first answer was, the second adds no upload. */
  lemma RetriedCreateAddsNothing(cfg: Config, db: Db, account: Id, device: Id, request: Request,
                                 assetId: Id, uploadId: Id, assetId': Id, uploadId': Id)
    ensures var db1 := CreateTx(cfg, db, account, device, request, assetId, uploadId);
      CreateTx(cfg, db1, account, device, request, assetId', uploadId').uploads == db1.uploads
  {
    hide CreateQuotaOk, UploadRequestOk, FindBlob, IsContent, IsActive, SameTarget, NewUpload;
    var db1 := CreateTx(cfg, db, account, device, request, assetId, uploadId);
    SameBlobs(db, db1, account, request.blake3);
    var (db', asset) := UpsertAsset(db, account, device, request.sourceAsset, assetId);
    NewIsActive(account, device, asset, request);
    if db1.uploads != db.uploads {
      assert db1.uploads[uploadId] == NewUpload(account, device, asset, request);
    } else {
      CreatedOrNot(cfg, db, account, device, request, assetId, uploadId);
    }
  }

  ghost predicate Refuses(cfg: Config, db: Db, account: Id, request: Request) {
    !UploadRequestOk(request, cfg.maxPart) || account !in db.accounts || !db.accounts[account].enabled
    || request.size > I64_MAX || !CreateQuotaOk(db, account, request.size)
  }

  /** Without a new row, the reason was one that still stands. */
  lemma CreatedOrNot(cfg: Config, db: Db, account: Id, device: Id, request: Request, assetId: Id, uploadId: Id)
    requires CreateTx(cfg, db, account, device, request, assetId, uploadId).uploads == db.uploads
    ensures var db1 := CreateTx(cfg, db, account, device, request, assetId, uploadId);
      (db1 == db && Refuses(cfg, db, account, request)) || FindBlob(db, account, request.blake3).Some?
      || exists u :: u in db.uploads && IsActive(db.uploads[u]) && SameTarget(db.uploads[u], account, device, request)
  {
    var (db', asset) := UpsertAsset(db, account, device, request.sourceAsset, assetId);
    NewIsActive(account, device, asset, request);
    hide CreateQuotaOk, UploadRequestOk, FindBlob, IsContent, IsActive, SameTarget, NewUpload;
    if CreateTx(cfg, db, account, device, request, assetId, uploadId)
       == db'.(uploads := db'.uploads[uploadId := NewUpload(account, device, asset, request)]) {
      assert uploadId in db.uploads ==> db.uploads[uploadId] == NewUpload(account, device, asset, request);
    }
  }

  lemma NewIsActive(account: Id, device: Id, asset: Id, request: Request)
    ensures var row := NewUpload(account, device, asset, request);
      IsActive(row) && SameTarget(row, account, device, request)
  {
  }

  lemma SameBlobs(db: Db, db': Db, account: Id, blake3: string)
    ensures db'.blobs == db.blobs ==> (FindBlob(db', account, blake3).Some? <==> FindBlob(db, account, blake3).Some?)
  {
    if db'.blobs == db.blobs {
      assert forall b :: IsContent(db', b, account, blake3) <==> IsContent(db, b, account, blake3);
    }
  }
}
