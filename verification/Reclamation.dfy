/** Reclaiming blobs that nothing references: what a pass may touch whatever
    fails, when it is harmless to running completions, and what it costs them
    when it is not. */
module Reclamation {
  import opened Types
  import opened CommitModel
  import opened CommitInvariant
  import opened CommitSteps
  import opened CommitRuns
  import opened CommitSafety
  import opened Solo

  // ----- one pass, with its failures -------------------------------------------------------

  /** The transaction that unlinks an orphan's object and deletes its row. */
  ghost function Reclaimed(s: Sys, b: Id, rowKept: bool): Sys
    requires b in s.db.blobs
  {
    s.(files := s.files - {s.db.blobs[b].key},
       db := if rowKept then s.db else s.db.(blobs := s.db.blobs - {b}))
  }

  /** The row's key lies in its account's scope, as `remove_blob` demands. */
  ghost predicate OwnObject(db: Db, b: Id) {
    b in db.blobs && db.blobs[b].account in db.accounts
    && InScope(db.accounts[db.blobs[b].account].path, db.blobs[b].key)
  }

  /** `reconcile_orphan_blobs`: each listed blob that is still an orphan is
      unlinked and deleted. A failed or refused unlink rolls that blob back; a
      commit that fails after the unlink keeps the row and ends the pass. */
  ghost function ReclaimAll(w: World, s: Sys, blobs: seq<Id>, k: nat): (r: (Sys, nat, bool))
    decreases |blobs|
  {
    if blobs == [] then (s, k, true)
    else if !Orphan(s.db, blobs[0]) || !OwnObject(s.db, blobs[0]) then ReclaimAll(w, s, blobs[1..], k + 1)
    else
      match w.fault(k)
      case Works => ReclaimAll(w, Reclaimed(s, blobs[0], false), blobs[1..], k + 1)
      case Fails => ReclaimAll(w, s, blobs[1..], k + 1)
      case FailsLate => (Reclaimed(s, blobs[0], true), k + 1, false)
  }

  ghost predicate Referenced(db: Db, b: Id) {
    (exists r :: r in db.resources && db.resources[r].blob == b)
    || (exists u :: u in db.uploads && db.uploads[u].blob == Some(b))
  }

  /** What a pass may do to the rest of the server. */
  ghost predicate OnlyOrphans(s: Sys, s': Sys) {
    && s' == s.(db := s.db.(blobs := s'.db.blobs), files := s'.files)
    && (forall b :: b in s'.db.blobs ==> b in s.db.blobs && s'.db.blobs[b] == s.db.blobs[b])
    && (forall key :: key in s'.files ==> key in s.files && s'.files[key] == s.files[key])
    && (forall b :: b in s.db.blobs && b !in s'.db.blobs ==> Orphan(s.db, b) && s.db.blobs[b].key !in s'.files)
    && (forall key :: key in s.files && key !in s'.files ==>
          exists b :: Orphan(s.db, b) && s.db.blobs[b].key == key)
  }

  lemma OnlyOrphansThen(s: Sys, s1: Sys, s': Sys, b: Id, rowKept: bool)
    requires Orphan(s.db, b) && s1 == Reclaimed(s, b, rowKept) && OnlyOrphans(s1, s')
    ensures OnlyOrphans(s, s')
  {
    forall key | key in s.files && key !in s'.files
      ensures exists c :: Orphan(s.db, c) && s.db.blobs[c].key == key
    {
      if key in s1.files {
        var c :| Orphan(s1.db, c) && s1.db.blobs[c].key == key;
        assert Orphan(s.db, c);
      }
    }
  }

  lemma {:induction false} PassTouchesOnlyOrphans(w: World, s: Sys, blobs: seq<Id>, k: nat)
    ensures OnlyOrphans(s, ReclaimAll(w, s, blobs, k).0)
    decreases |blobs|
  {
    if blobs != [] {
      var b := blobs[0];
      if !Orphan(s.db, b) || !OwnObject(s.db, b) || w.fault(k) == Fails {
        PassTouchesOnlyOrphans(w, s, blobs[1..], k + 1);
      } else {
        var s1 := Reclaimed(s, b, w.fault(k) == FailsLate);
        var s' := ReclaimAll(w, s, blobs, k).0;
        if w.fault(k) == Works {
          PassTouchesOnlyOrphans(w, s1, blobs[1..], k + 1);
        }
        OnlyOrphansThen(s, s1, s', b, w.fault(k) == FailsLate);
      }
    }
  }

  /** Whatever fails and whenever, no pass unlinks the object of a blob that a
      resource or an upload references, and none loses such a row. */
  lemma ReferencedBlobsSurvive(cfg: Config, w: World, s: Sys, blobs: seq<Id>, k: nat, b: Id)
    requires Inv(cfg, s) && b in s.db.blobs && Referenced(s.db, b)
    ensures var s' := ReclaimAll(w, s, blobs, k).0;
      b in s'.db.blobs && s'.db.blobs[b] == s.db.blobs[b]
      && (s.db.blobs[b].key in s.files ==>
            s.db.blobs[b].key in s'.files && s'.files[s.db.blobs[b].key] == s.files[s.db.blobs[b].key])
  {
    PassTouchesOnlyOrphans(w, s, blobs, k);
    var s' := ReclaimAll(w, s, blobs, k).0;
    var key := s.db.blobs[b].key;
    if key in s.files && key !in s'.files {
      var c :| Orphan(s.db, c) && s.db.blobs[c].key == key;
      OtherBlobOtherObject(cfg, s, b, c);
    }
  }

  /** A pass in which nothing fails leaves a listed blob an orphan exactly when
      its row names a key outside its account's scope. */
  lemma {:induction false} FaultlessPassLeavesNone(w: World, s: Sys, blobs: seq<Id>, k: nat)
    requires Faultless(w)
    ensures var (s', _, done) := ReclaimAll(w, s, blobs, k);
      done && forall b :: Orphan(s'.db, b) <==> Orphan(s.db, b) && (b !in blobs || !OwnObject(s.db, b))
    decreases |blobs|
  {
    if blobs != [] {
      var b := blobs[0];
      if Orphan(s.db, b) && OwnObject(s.db, b) {
        var s1 := Reclaimed(s, b, false);
        FaultlessPassLeavesNone(w, s1, blobs[1..], k + 1);
        assert forall c :: Orphan(s1.db, c) <==> Orphan(s.db, c) && c != b;
        assert forall c :: c != b ==> (OwnObject(s1.db, c) <==> OwnObject(s.db, c));
      } else {
        FaultlessPassLeavesNone(w, s, blobs[1..], k + 1);
      }
    }
  }

  lemma BlobsAreOwn(cfg: Config, s: Sys)
    requires Core(cfg, s)
    ensures forall b :: b in s.db.blobs ==> OwnObject(s.db, b)
  {
    forall b | b in s.db.blobs ensures OwnObject(s.db, b) {
      assert BlobOk(cfg, s.db, b);
    }
  }

  // ----- deleting an asset for good ----------------------------------------------------------

  ghost predicate ObjectStays(files: Files, files': Files, key: Key) {
    key in files && key in files' && files'[key] == files[key]
  }

  /** Nothing of another asset is touched. */
  ghost predicate OthersStay(s: Sys, s': Sys, asset: Id) {
    && (forall r :: r in s.db.resources && s.db.resources[r].asset != asset ==>
          r in s'.db.resources && s'.db.resources[r] == s.db.resources[r]
          && var b := s.db.resources[r].blob;
             b in s.db.blobs && b in s'.db.blobs && s'.db.blobs[b] == s.db.blobs[b]
             && ObjectStays(s.files, s'.files, s.db.blobs[b].key))
    && (forall u :: u in s.db.uploads && s.db.uploads[u].asset != asset ==>
          u in s'.db.uploads && s'.db.uploads[u] == s.db.uploads[u])
  }

  /** Deleting an asset for good, with failures anywhere in the reclamation that
      follows, loses no resource, blob row, object or upload of another asset. */
  lemma DeletionTouchesNothingElse(cfg: Config, w: World, s: Sys, asset: Id, listed: seq<Id>, k: nat)
    requires Inv(cfg, s) && Enabled(cfg, s, Delete(asset))
    ensures OthersStay(s, ReclaimAll(w, Apply(cfg, s, Delete(asset)), listed, k).0, asset)
  {
    var s1 := Apply(cfg, s, Delete(asset));
    var s' := ReclaimAll(w, s1, listed, k).0;
    DeleteKeeps(cfg, s, Delete(asset));
    PassTouchesOnlyOrphans(w, s1, listed, k);
    forall r | r in s.db.resources && s.db.resources[r].asset != asset
      ensures var b := s.db.resources[r].blob;
        b in s.db.blobs && b in s'.db.blobs && s'.db.blobs[b] == s.db.blobs[b]
        && ObjectStays(s.files, s'.files, s.db.blobs[b].key)
    {
      assert r in s1.db.resources && s1.db.resources[r] == s.db.resources[r];
      assert ResourceOk(cfg, s1.db, s1.files, r);
      ReferencedBlobsSurvive(cfg, w, s1, listed, k, s.db.resources[r].blob);
    }
  }

  lemma {:induction false} FaultlessPassTakesOrphans(cfg: Config, w: World, s: Sys, blobs: seq<Id>, k: nat, b: Id)
    requires Faultless(w) && Inv(cfg, s) && b in s.db.blobs
    ensures var s' := ReclaimAll(w, s, blobs, k).0;
      if Orphan(s.db, b) && b in blobs then b !in s'.db.blobs && s.db.blobs[b].key !in s'.files
      else b in s'.db.blobs
  {
    PassTouchesOnlyOrphans(w, s, blobs, k);
    FaultlessPassLeavesNone(w, s, blobs, k);
    BlobsAreOwn(cfg, s);
    var s' := ReclaimAll(w, s, blobs, k).0;
    if Orphan(s.db, b) && b in blobs {
      assert !Orphan(s'.db, b);
    } else if b !in s'.db.blobs {
      UnlistedStays(w, s, blobs, k, b);
    }
  }

  lemma {:induction false} UnlistedStays(w: World, s: Sys, blobs: seq<Id>, k: nat, b: Id)
    requires b in s.db.blobs && !(Orphan(s.db, b) && b in blobs)
    ensures b in ReclaimAll(w, s, blobs, k).0.db.blobs
    decreases |blobs|
  {
    if blobs != [] && Orphan(s.db, blobs[0]) && OwnObject(s.db, blobs[0]) && w.fault(k) == Works {
      var s1 := Reclaimed(s, blobs[0], false);
      assert Orphan(s1.db, b) ==> Orphan(s.db, b);
      UnlistedStays(w, s1, blobs[1..], k + 1, b);
    } else if blobs != [] && (!Orphan(s.db, blobs[0]) || !OwnObject(s.db, blobs[0]) || w.fault(k) == Fails) {
      UnlistedStays(w, s, blobs[1..], k + 1, b);
    }
  }

  /** And it is thorough: with no failure, a listed blob stays, row and object,
      exactly if something still references it. */
  lemma DeletionIsThorough(cfg: Config, w: World, s: Sys, asset: Id, listed: seq<Id>, k: nat, b: Id)
    requires Inv(cfg, s) && Enabled(cfg, s, Delete(asset)) && Faultless(w) && b in s.db.blobs && b in listed
    ensures var s1 := Apply(cfg, s, Delete(asset));
      var s' := ReclaimAll(w, s1, listed, k).0;
      (b in s'.db.blobs <==> Referenced(s1.db, b))
      && (!Referenced(s1.db, b) ==> s.db.blobs[b].key !in s'.files)
  {
    DeleteKeeps(cfg, s, Delete(asset));
    FaultlessPassTakesOrphans(cfg, w, Apply(cfg, s, Delete(asset)), listed, k, b);
  }

  // ----- reclamation beside running completions ---------------------------------------------

  /** A completion that has seen the object at its final key and will not look
      again before it inserts a blob row over it. */
  ghost predicate PastInspection(pc: Pc) {
    pc.LoadCandidate? || pc.CheckCandidate? || pc.MetadataTx? || pc.CheckActual?
  }

  /** Upload `u` needs the object at `key` to stay: it has no stage to publish
      again, or its call has already inspected the object. */
  ghost predicate Relies(cfg: Config, s: Sys, u: Id, key: Key) {
    u in s.db.uploads && s.db.uploads[u].final == Some(key)
    && var row := s.db.uploads[u];
       var staged := StageGood(cfg, s.files, row.staged, row.request);
       (row.commit == Finalizing && row.staged.Some? && !staged)
       || (u in s.calls && PastInspection(s.calls[u]))
       || (u in s.calls && s.calls[u].ToFinalizing? && !staged)
  }

  /** An unfinished commit bound for the object is what relying takes. */
  lemma UnwantedMeansUnrelied(cfg: Config, s: Sys, b: Id, u: Id)
    requires Inv(cfg, s) && Orphan(s.db, b) && Unwanted(s.db, b)
    ensures !Relies(cfg, s, u, s.db.blobs[b].key)
  {
    if u in s.db.uploads && u in s.calls {
      assert PcOk(cfg, s.db, s.files, u, s.calls[u]);
    }
  }

  /** An upload bound for an orphan's object is unfinished. */
  lemma BoundForOrphan(cfg: Config, s: Sys, b: Id, u: Id)
    requires Inv(cfg, s) && Orphan(s.db, b) && u in s.db.uploads && Live(s.db.uploads[u].commit)
    requires s.db.uploads[u].account in s.db.accounts
    requires ObjectKey(s.db, s.db.uploads[u]) == s.db.blobs[b].key
      || IsContent(s.db, b, s.db.uploads[u].account, s.db.uploads[u].request.blake3)
    ensures s.db.uploads[u].commit != Committed && s.db.uploads[u].staged.Some?
    ensures s.db.uploads[u].final == Some(s.db.blobs[b].key)
  {
    var row := s.db.uploads[u];
    assert RowOk(cfg, s.db, s.files, u) && BlobOk(cfg, s.db, b);
    if row.blob.value in s.db.blobs {
      assert BlobOk(cfg, s.db, row.blob.value);
    }
  }

  /** An upload that does not rely on the object does not notice its going. */
  lemma UnreliedUpload(cfg: Config, s: Sys, b: Id, rowKept: bool, u: Id)
    requires Inv(cfg, s) && Orphan(s.db, b) && !Relies(cfg, s, u, s.db.blobs[b].key)
    ensures var s' := Reclaimed(s, b, rowKept);
      RowOk(cfg, s'.db, s'.files, u) && (u in s.calls ==> PcOk(cfg, s'.db, s'.files, u, s.calls[u]))
  {
    hide Core, PcOk;
    var s' := Reclaimed(s, b, rowKept);
    UploadAndBlob(cfg, s, b, u);
    var bound := u in s.db.uploads && Live(s.db.uploads[u].commit)
      && (ObjectKey(s.db, s.db.uploads[u]) == s.db.blobs[b].key
          || IsContent(s.db, b, s.db.uploads[u].account, s.db.uploads[u].request.blake3));
    if bound {
      BoundForOrphan(cfg, s, b, u);
      hide Orphan;
      BoundRow(cfg, s.db, s.files, s'.db, s'.files, u);
      if u in s.calls {
        BoundPc(cfg, s.db, s.files, s'.db, s'.files, u, s.calls[u]);
      }
    } else {
      assert Keeps(s.db, s.files, s'.db, s'.files, u);
      KeepsRow(cfg, s.db, s.files, s'.db, s'.files, u);
      if u in s.calls {
        KeepsPc(cfg, s.db, s.files, s'.db, s'.files, u, s.calls[u]);
      }
    }
  }

  lemma UploadAndBlob(cfg: Config, s: Sys, b: Id, u: Id)
    requires Inv(cfg, s)
    ensures RowOk(cfg, s.db, s.files, u) && BlobOk(cfg, s.db, b)
    ensures u in s.calls ==> PcOk(cfg, s.db, s.files, u, s.calls[u])
  {
  }

  /** Fewer blobs and fewer objects; parts and stages as they were. */
  ghost predicate ObjectsShrink(db: Db, files: Files, db': Db, files': Files) {
    db' == db.(blobs := db'.blobs) && db'.blobs.Keys <= db.blobs.Keys
    && (forall key: Key :: !key.ObjectFile? ==>
          (key in files <==> key in files') && (key in files ==> files'[key] == files[key]))
  }

  lemma BoundRow(cfg: Config, db: Db, files: Files, db': Db, files': Files, u: Id)
    requires ObjectsShrink(db, files, db', files') && RowOk(cfg, db, files, u) && u in db.uploads
    requires Owns(db.uploads[u])
    requires db.uploads[u].commit == Finalizing ==> StageGood(cfg, files, db.uploads[u].staged, db.uploads[u].request)
    ensures RowOk(cfg, db', files', u)
  {
    var row := db.uploads[u];
    forall i | 0 <= i < |row.parts| && row.parts[i].received
      ensures PartStored(cfg, files', u, row.parts[i].spec)
    {
      assert PartStored(cfg, files, u, row.parts[i].spec);
    }
    assert RowDbOk(db', u, row);
  }

  lemma BoundPc(cfg: Config, db: Db, files: Files, db': Db, files': Files, u: Id, pc: Pc)
    requires ObjectsShrink(db, files, db', files') && PcOk(cfg, db, files, u, pc) && u in db.uploads
    requires RowOk(cfg, db, files, u) && Owns(db.uploads[u]) && !PastInspection(pc)
    requires pc.ToFinalizing? ==> StageGood(cfg, files, db.uploads[u].staged, db.uploads[u].request)
    ensures PcOk(cfg, db', files', u, pc)
  {
  }

  /** Reclaiming an orphan beside running completions keeps every promise of
      the protocol exactly when nobody relies on its object. */
  lemma ReclaimSafeIffUnrelied(cfg: Config, s: Sys, b: Id, rowKept: bool)
    requires Inv(cfg, s) && Orphan(s.db, b)
    ensures Inv(cfg, Reclaimed(s, b, rowKept)) <==> forall u :: !Relies(cfg, s, u, s.db.blobs[b].key)
  {
    var s' := Reclaimed(s, b, rowKept);
    var key := s.db.blobs[b].key;
    if u :| Relies(cfg, s, u, key) {
      ReliedBreaks(cfg, s, b, rowKept, u);
    } else {
      forall u
        ensures RowOk(cfg, s'.db, s'.files, u) && (u in s'.calls ==> PcOk(cfg, s'.db, s'.files, u, s'.calls[u]))
      {
        UnreliedUpload(cfg, s, b, rowKept, u);
      }
      ReclaimedRest(cfg, s, b, rowKept);
    }
  }

  lemma ReliedUpload(cfg: Config, db: Db, files: Files, files': Files, u: Id, key: Key)
    requires u in db.uploads && RowOk(cfg, db, files, u) && db.uploads[u].final == Some(key) && key !in files'
    requires db.uploads[u].commit == Finalizing && db.uploads[u].staged.Some?
    requires !StageGood(cfg, files', db.uploads[u].staged, db.uploads[u].request)
    ensures forall db': Db :: db'.uploads == db.uploads && db'.accounts == db.accounts ==> !RowOk(cfg, db', files', u)
  {
  }

  lemma ReliedCall(cfg: Config, db: Db, files: Files, db': Db, files': Files, u: Id, pc: Pc, key: Key)
    requires u in db.uploads && PcOk(cfg, db, files, u, pc) && db.uploads[u].final == Some(key) && key !in files'
    requires PastInspection(pc)
             || (pc.ToFinalizing? && !StageGood(cfg, files', db.uploads[u].staged, db.uploads[u].request))
    requires db'.uploads == db.uploads
    ensures !PcOk(cfg, db', files', u, pc)
  {
  }

  lemma ReliedBreaks(cfg: Config, s: Sys, b: Id, rowKept: bool, u: Id)
    requires Inv(cfg, s) && Orphan(s.db, b) && Relies(cfg, s, u, s.db.blobs[b].key)
    ensures !Inv(cfg, Reclaimed(s, b, rowKept))
  {
    var s' := Reclaimed(s, b, rowKept);
    var row, key := s.db.uploads[u], s.db.blobs[b].key;
    assert BlobOk(cfg, s.db, b) && RowOk(cfg, s.db, s.files, u);
    assert u in s.calls ==> PcOk(cfg, s.db, s.files, u, s.calls[u]);
    BreaksWith(cfg, s', u);
    hide Inv, PcOk, BlobOk;
    var unstaged := row.commit == Finalizing && row.staged.Some? && !StageGood(cfg, s.files, row.staged, row.request);
    if u in s.calls && (PastInspection(s.calls[u]) || s.calls[u].ToFinalizing?) && !unstaged {
      hide RowOk;
      StageUnmoved(cfg, s.files, s'.files, row, key);
      ReliedCall(cfg, s.db, s.files, s'.db, s'.files, u, s.calls[u], key);
    } else {
      StageUnmoved(cfg, s.files, s'.files, row, key);
      ReliedUpload(cfg, s.db, s.files, s'.files, u, key);
    }
  }

  lemma BreaksWith(cfg: Config, s: Sys, u: Id)
    ensures !RowOk(cfg, s.db, s.files, u) ==> !Inv(cfg, s)
    ensures u in s.calls && !PcOk(cfg, s.db, s.files, u, s.calls[u]) ==> !Inv(cfg, s)
  {
  }

  lemma StageUnmoved(cfg: Config, files: Files, files': Files, row: Upload, key: Key)
    requires files' == files - {key}
    ensures !StageGood(cfg, files, row.staged, row.request) ==> !StageGood(cfg, files', row.staged, row.request)
  {
  }

  lemma ReclaimedRest(cfg: Config, s: Sys, b: Id, rowKept: bool)
    requires Inv(cfg, s) && Orphan(s.db, b)
    ensures var s' := Reclaimed(s, b, rowKept);
      AccountsOk(s'.db) && Issued(s') && UniqueBlobs(s'.db) && UniqueSlots(s'.db)
      && Owners(s'.db) && Creators(s'.db)
      && (forall c :: BlobOk(cfg, s'.db, c))
      && (forall r :: ResourceOk(cfg, s'.db, s'.files, r))
      && (forall key :: ObjectOk(cfg, s'.files, key))
      && (forall c :: c in s'.puts ==> PutOk(cfg, s'.db, s'.files, s'.puts[c]))
  {
    var s' := Reclaimed(s, b, rowKept);
    assert BlobOk(cfg, s.db, b);
    forall c ensures BlobOk(cfg, s'.db, c) {
      assert BlobOk(cfg, s.db, c);
    }
    forall r ensures ResourceOk(cfg, s'.db, s'.files, r) {
      assert ResourceOk(cfg, s.db, s.files, r);
      if r in s.db.resources {
        OtherBlobOtherObject(cfg, s, s.db.resources[r].blob, b);
      }
    }
    forall key ensures ObjectOk(cfg, s'.files, key) {
      assert ObjectOk(cfg, s.files, key);
    }
    forall c | c in s'.puts ensures PutOk(cfg, s'.db, s'.files, s'.puts[c]) {
      KeepsPut(cfg, s.db, s.files, s'.db, s'.files, s.puts[c]);
    }
  }

  /** With its content gone from `blobs`, a commit of a staged upload inserts
      its own row without looking at the object again. */
  lemma UncheckedCommit(cfg: Config, db: Db, u: Id, ready: Ready, attempt: nat, approved: Option<Candidate>, uuid: Id)
    requires ready.account in db.accounts && db.accounts[ready.account].path == ready.path
    requires ready.blob !in db.blobs && FindBlob(db, ready.account, ready.request.blake3).None?
    requires ready.asset in db.assets && u in db.uploads && db.uploads[u].commit == Finalizing && ready.staged.Some?
    ensures var e := ActMetadataTx(db, u, ready, attempt, approved, uuid);
      e.row.Some? && e.row.value.commit == Committed && e.row.value.final == Some(ready.final)
      && e.write.None? && e.remove.None? && e.pc.DropStage? && !e.pc.strict && e.pc.ready == ready
  {
  }

  /** Two ticks of a call past its inspection: the try, and the commit. */
  lemma RaceTicks(cfg: Config, w: World, s0: Sys, u: Id, k: nat) returns (s2: Sys)
    requires Faultless(w) && u in s0.calls && s0.calls[u].LoadCandidate?
    requires var ready := s0.calls[u].ready;
      && ready.account in s0.db.accounts && s0.db.accounts[ready.account].path == ready.path
      && ready.blob !in s0.db.blobs && FindBlob(s0.db, ready.account, ready.request.blake3).None?
      && ready.asset in s0.db.assets && u in s0.db.uploads && s0.db.uploads[u].commit == Finalizing
      && ready.staged.Some?
    ensures u in s2.calls && u in s2.db.uploads && s2.files == s0.files
    ensures s2.calls[u].DropStage? && !s2.calls[u].strict && s2.calls[u].ready == s0.calls[u].ready
    ensures s2.db.uploads[u].commit == Committed && s2.db.uploads[u].final == Some(s0.calls[u].ready.final)
    ensures Drive(cfg, w, s0, u, k) == Drive(cfg, w, s2, u, k + 2)
  {
    var pc := s0.calls[u];
    var s1 := Advance(cfg, s0, u, Draw(w, s0, k));
    assert s1.db == s0.db && s1.files == s0.files && s1.calls[u] == MetadataTx(pc.ready, pc.attempt, pc.approved);
    UncheckedCommit(cfg, s1.db, u, pc.ready, pc.attempt, pc.approved, w.draw(s1.issued));
    hide ActMetadataTx, FindBlob;
    s2 := Advance(cfg, s1, u, Draw(w, s1, k + 1));
  }

  lemma RaceReturns(cfg: Config, w: World, s: Sys, u: Id, k: nat, key: Key)
    requires u in s.calls && s.calls[u].DropStage? && !s.calls[u].strict && key !in s.files
    ensures var s' := Drive(cfg, w, s, u, k).0;
      s'.db == s.db && s'.calls[u].result.Ok? && key !in s'.files
  {
    var s1 := Advance(cfg, s, u, Draw(w, s, k));
    assert s1.db == s.db && s1.calls[u].Returned?;
  }

  /** The content of a reclaimed blob is found no more. */
  lemma ReclaimedNotFound(cfg: Config, s: Sys, b: Id, account: Id, blake3: string)
    requires Inv(cfg, s) && IsContent(s.db, b, account, blake3)
    ensures FindBlob(Reclaimed(s, b, false).db, account, blake3).None?
  {
    var db' := Reclaimed(s, b, false).db;
    assert forall c :: IsContent(db', c, account, blake3) ==> IsContent(s.db, c, account, blake3);
  }

  lemma OrphanOfCall(cfg: Config, s: Sys, b: Id, u: Id)
    requires Inv(cfg, s) && Orphan(s.db, b) && u in s.db.uploads && u in s.calls && s.calls[u].LoadCandidate?
    requires s.db.uploads[u].final == Some(s.db.blobs[b].key)
    ensures var ready := s.calls[u].ready;
      && ready.account in s.db.accounts && s.db.accounts[ready.account].path == ready.path
      && ready.blob !in s.db.blobs && ready.asset in s.db.assets && s.db.uploads[u].commit == Finalizing
      && ready.staged.Some? && ready.final == s.db.blobs[b].key
      && IsContent(s.db, b, ready.account, ready.request.blake3)
  {
    assert PcOk(cfg, s.db, s.files, u, s.calls[u]) && RowOk(cfg, s.db, s.files, u) && BlobOk(cfg, s.db, b);
    BoundForOrphan(cfg, s, b, u);
  }

  /** And relying on it past the inspection is fatal: if the orphan goes just
      before the next try, the upload commits over an object that is gone. The
      server excludes neither step. */
  lemma RaceCommitsMissingObject(cfg: Config, w: World, s: Sys, b: Id, u: Id, k: nat)
    requires WorldOk(w) && Faultless(w) && Inv(cfg, s) && Orphan(s.db, b)
    requires u in s.db.uploads && u in s.calls && s.calls[u].LoadCandidate?
    requires s.db.uploads[u].final == Some(s.db.blobs[b].key)
    ensures var s' := Drive(cfg, w, Reclaimed(s, b, false), u, k).0;
      u in s'.db.uploads && s'.db.uploads[u].commit == Committed && s'.calls[u].result.Ok?
      && s'.db.uploads[u].final == Some(s.db.blobs[b].key) && s.db.blobs[b].key !in s'.files
  {
    OrphanOfCall(cfg, s, b, u);
    ReclaimedNotFound(cfg, s, b, s.calls[u].ready.account, s.calls[u].ready.request.blake3);
    hide Inv, Drive, FindBlob, Orphan;
    var s2 := RaceTicks(cfg, w, Reclaimed(s, b, false), u, k);
    RaceReturns(cfg, w, s2, u, k + 2, s.db.blobs[b].key);
  }
}
