/** Recovery after a crash: `reconcile_all` completes what was interrupted,
    reclaims what nobody references, and then has nothing left to do. */
module Reconcile {
  import opened Types
  import opened CommitModel
  import opened CommitInvariant
  import opened CommitSteps
  import opened CommitRuns
  import opened CommitSafety
  import opened Solo
  import opened Reclamation

  // ----- one completion, seen from outside ----------------------------------------------

  ghost predicate SameFile(files: Files, files': Files, key: Key) {
    (key in files <==> key in files') && (key in files ==> files'[key] == files[key])
  }

  /** What a completion of `u` may have changed: its own row and stage, new
      blobs, new objects, and one resource. */
  ghost predicate OnlyOwn(s: Sys, s': Sys, u: Id) {
    && s'.db.accounts == s.db.accounts && s'.db.assets == s.db.assets
    && s'.db.uploads.Keys == s.db.uploads.Keys
    && (forall v :: v in s.db.uploads && v != u ==> s'.db.uploads[v] == s.db.uploads[v])
    && (u in s.db.uploads ==>
          Later(s.db.uploads[u], s'.db.uploads[u]) && s'.db.uploads[u].parts == s.db.uploads[u].parts)
    && (forall key: Key :: key.PartFile? ==> SameFile(s.files, s'.files, key))
    && (forall key: Key :: key.StageFile? && key.upload != u ==> SameFile(s.files, s'.files, key))
    && (forall key: Key :: key.ObjectFile? && key in s.files ==> key in s'.files && s'.files[key] == s.files[key])
  }

  lemma EffectFiles(cfg: Config, files: Files, u: Id, e: Effect, key: Key)
    requires FileEffectOk(cfg, files, u, e)
    ensures key.PartFile? || (key.StageFile? && key.upload != u) ==> SameFile(files, ApplyFiles(files, e), key)
    ensures key.ObjectFile? && key in files ==>
      key in ApplyFiles(files, e) && ApplyFiles(files, e)[key] == files[key]
  {
  }

  lemma EffectOnlyOwn(cfg: Config, s: Sys, s': Sys, u: Id, e: Effect)
    requires FileEffectOk(cfg, s.files, u, e) && s'.db == ApplyDb(s.db, u, e) && s'.files == ApplyFiles(s.files, e)
    requires e.row.Some? ==>
      u in s.db.uploads && Later(s.db.uploads[u], e.row.value) && e.row.value.parts == s.db.uploads[u].parts
    ensures OnlyOwn(s, s', u)
  {
    if u in s.db.uploads {
      LaterSelf(s.db.uploads[u]);
    }
    hide Later;
    forall key: Key
      ensures key.PartFile? || (key.StageFile? && key.upload != u) ==> SameFile(s.files, s'.files, key)
      ensures key.ObjectFile? && key in s.files ==> key in s'.files && s'.files[key] == s.files[key]
    {
      EffectFiles(cfg, s.files, u, e, key);
    }
    hide FileEffectOk, ApplyFiles;
  }

  lemma AdvanceOnlyOwn(cfg: Config, s: Sys, u: Id, ch: Choice)
    requires Inv(cfg, s) && u in s.calls && ch.uuid !in s.issued
    ensures OnlyOwn(s, Advance(cfg, s, u, ch), u)
  {
    var e := Act(cfg, s.db, s.files, u, s.calls[u], ch);
    ActSound(cfg, s.db, s.files, u, s.calls[u], ch);
    if u in s.db.uploads {
      ActLater(cfg, s.db, s.files, u, s.calls[u], ch);
    }
    hide Core, Act, OwnOk, Later, FileEffectOk;
    EffectOnlyOwn(cfg, s, Advance(cfg, s, u, ch), u, e);
  }

  lemma LaterSelf(row: Upload)
    ensures Later(row, row)
  {
  }

  lemma OnlyOwnTransitive(a: Sys, b: Sys, c: Sys, u: Id)
    requires OnlyOwn(a, b, u) && OnlyOwn(b, c, u)
    ensures OnlyOwn(a, c, u)
  {
    if u in a.db.uploads {
      LaterTransitive(a.db.uploads[u], b.db.uploads[u], c.db.uploads[u]);
    }
    hide Later;
    forall key: Key | key.PartFile? || (key.StageFile? && key.upload != u)
      ensures SameFile(a.files, c.files, key)
    {
      assert SameFile(a.files, b.files, key) && SameFile(b.files, c.files, key);
    }
  }

  lemma {:induction false} DriveOnlyOwn(cfg: Config, w: World, s: Sys, u: Id, k: nat)
    requires Inv(cfg, s) && u in s.calls && WorldOk(w)
    ensures OnlyOwn(s, Drive(cfg, w, s, u, k).0, u)
    decreases PcRank(s.calls[u])
  {
    if !s.calls[u].Returned? {
      var ch := Draw(w, s, k);
      RankFalls(cfg, s.db, s.files, u, s.calls[u], ch);
      AdvanceKeepsInv(cfg, s, u, ch);
      AdvanceOnlyOwn(cfg, s, u, ch);
      hide Core, Advance, OnlyOwn;
      DriveOnlyOwn(cfg, w, Advance(cfg, s, u, ch), u, k + 1);
      OnlyOwnTransitive(s, Advance(cfg, s, u, ch), Drive(cfg, w, s, u, k).0, u);
    }
  }

  /** What a completion of `u` adds: blob rows of its own content, and an object
      at its own key that holds what its request describes. */
  ghost predicate Adds(cfg: Config, s: Sys, s': Sys, u: Id) {
    u in s.db.uploads && s.db.uploads[u].account in s.db.accounts
    && var row := s.db.uploads[u];
    && (forall b :: b in s.db.blobs ==> b in s'.db.blobs && s'.db.blobs[b] == s.db.blobs[b])
    && (forall b :: b in s'.db.blobs && b !in s.db.blobs ==>
          s'.db.blobs[b].account == row.account && s'.db.blobs[b].blake3 == row.request.blake3
          && s'.db.blobs[b].size == row.request.size)
    && (forall key: Key :: key.ObjectFile? && key in s'.files && key !in s.files ==>
          key == ObjectKey(s.db, row) && ContentIs(cfg, s'.files[key], row.request.size, row.request.blake3))
  }

  /** A step adds what its own upload's row describes. */
  ghost predicate EffectAdds(cfg: Config, db: Db, row: Upload, e: Effect)
    requires row.account in db.accounts
  {
    && (e.blob.Some? ==>
          e.blob.value.0 !in db.blobs && e.blob.value.1.account == row.account
          && e.blob.value.1.blake3 == row.request.blake3 && e.blob.value.1.size == row.request.size)
    && (e.write.Some? && e.write.value.0.ObjectFile? ==>
          e.write.value.0 == ObjectKey(db, row)
          && ContentIs(cfg, e.write.value.1, row.request.size, row.request.blake3))
  }

  lemma MetadataAdds(cfg: Config, db: Db, files: Files, u: Id, pc: Pc, uuid: Id)
    requires pc.MetadataTx? && PcOk(cfg, db, files, u, pc) && u in db.uploads && db.uploads[u].account in db.accounts
    ensures EffectAdds(cfg, db, db.uploads[u], ActMetadataTx(db, u, pc.ready, pc.attempt, pc.approved, uuid))
  {
    hide FindBlob, FindResource, ContentIs, IsContent, ObjectGood, ApprovedOk, CandidateRow, ReadyOk, ObjectKey;
  }

  lemma PublishAdds(cfg: Config, db: Db, files: Files, u: Id, pc: Pc, fault: Fault)
    requires pc.Publish? && PcOk(cfg, db, files, u, pc) && u in db.uploads && db.uploads[u].account in db.accounts
    ensures EffectAdds(cfg, db, db.uploads[u], ActPublish(cfg, files, u, pc.ready, fault))
  {
    hide ContentIs, AllReceived;
  }

  lemma OthersAddNothingNew(cfg: Config, db: Db, files: Files, u: Id, pc: Pc, ch: Choice)
    requires !pc.MetadataTx? && !pc.Publish? && PcOk(cfg, db, files, u, pc)
    ensures var e := Act(cfg, db, files, u, pc, ch);
      e.blob.None? && (e.write.Some? ==> !e.write.value.0.ObjectFile?)
  {
    RowWriters(cfg, db, files, u, pc, ch);
    hide PcOk, FindBlob, FindResource, CommitQuotaOk, ContentIs, CandidateValid, CommittedMetadataOk, Assembled,
      AllReceived, ActMetadataTx, ActPublish, Dispatch;
  }

  lemma ActAdds(cfg: Config, db: Db, files: Files, u: Id, pc: Pc, ch: Choice)
    requires PcOk(cfg, db, files, u, pc) && u in db.uploads && db.uploads[u].account in db.accounts
    ensures EffectAdds(cfg, db, db.uploads[u], Act(cfg, db, files, u, pc, ch))
  {
    hide PcOk, ActMetadataTx, ActPublish, ActLoad, ActBeginTx, ActAssemble, ContentIs;
    if pc.MetadataTx? {
      MetadataAdds(cfg, db, files, u, pc, ch.uuid);
    } else if pc.Publish? {
      PublishAdds(cfg, db, files, u, pc, ch.fault);
    } else {
      OthersAddNothingNew(cfg, db, files, u, pc, ch);
    }
  }

  lemma AdvanceAdds(cfg: Config, s: Sys, u: Id, ch: Choice)
    requires Inv(cfg, s) && u in s.calls && u in s.db.uploads
    ensures Adds(cfg, s, Advance(cfg, s, u, ch), u)
  {
    assert PcOk(cfg, s.db, s.files, u, s.calls[u]) && RowOk(cfg, s.db, s.files, u);
    hide Core;
    assert s.db.uploads[u].account in s.db.accounts;
    ActAdds(cfg, s.db, s.files, u, s.calls[u], ch);
    hide Act, PcOk, RowOk, ContentIs, ObjectKey;
  }

  lemma AddsThen(cfg: Config, a: Sys, b: Sys, c: Sys, u: Id)
    requires Adds(cfg, a, b, u) && Adds(cfg, b, c, u) && OnlyOwn(a, b, u) && OnlyOwn(b, c, u)
    ensures Adds(cfg, a, c, u)
  {
    var row := a.db.uploads[u];
    assert b.db.uploads[u].request == row.request && b.db.uploads[u].account == row.account;
    forall key: Key | key.ObjectFile? && key in c.files && key !in a.files
      ensures key == ObjectKey(a.db, row) && ContentIs(cfg, c.files[key], row.request.size, row.request.blake3)
    {
      if key in b.files {
        assert c.files[key] == b.files[key];
      }
    }
  }

  lemma {:induction false} DriveAdds(cfg: Config, w: World, s: Sys, u: Id, k: nat)
    requires Inv(cfg, s) && u in s.calls && u in s.db.uploads && WorldOk(w)
    ensures Adds(cfg, s, Drive(cfg, w, s, u, k).0, u)
    decreases PcRank(s.calls[u])
  {
    if s.calls[u].Returned? {
      assert RowOk(cfg, s.db, s.files, u);
    } else {
      var ch := Draw(w, s, k);
      RankFalls(cfg, s.db, s.files, u, s.calls[u], ch);
      AdvanceKeepsInv(cfg, s, u, ch);
      AdvanceOnlyOwn(cfg, s, u, ch);
      AdvanceAdds(cfg, s, u, ch);
      DriveOnlyOwn(cfg, w, Advance(cfg, s, u, ch), u, k + 1);
      hide Core, Advance, Adds, OnlyOwn;
      DriveAdds(cfg, w, Advance(cfg, s, u, ch), u, k + 1);
      AddsThen(cfg, s, Advance(cfg, s, u, ch), Drive(cfg, w, s, u, k).0, u);
    }
  }

  /** One upload of the reconciliation loop: complete it, then forget the call. */
  ghost function Settle(cfg: Config, w: World, s: Sys, u: Id, k: nat): (Sys, nat) {
    var (s', k') := Complete(cfg, w, s, u, k);
    (s'.(calls := s'.calls - {u}), k')
  }

  ghost predicate Idle(cfg: Config, w: World, s: Sys) {
    WorldOk(w) && Faultless(w) && Inv(cfg, s) && s.calls == map[]
  }

  lemma SettleIdle(cfg: Config, w: World, s: Sys, u: Id, k: nat)
    requires Idle(cfg, w, s) && u in s.db.uploads
    ensures Idle(cfg, w, Settle(cfg, w, s, u, k).0) && OnlyOwn(s, Settle(cfg, w, s, u, k).0, u)
    ensures Adds(cfg, s, Settle(cfg, w, s, u, k).0, u)
  {
    hide Core, OnlyOwn, Adds, Drive;
    var s0 := Begun(cfg, w, s, u);
    var (s1, k1) := Drive(cfg, w, s0, u, k);
    DriveKeepsInv(cfg, w, s0, u, k);
    DriveOnlyOwn(cfg, w, s0, u, k);
    DriveAdds(cfg, w, s0, u, k);
    hide Inv;
    LastCall(cfg, s1, u);
    CallsIgnored(cfg, s, s0, s1, s1.(calls := map[]), u);
  }

  lemma LastCall(cfg: Config, s: Sys, u: Id)
    requires Inv(cfg, s) && s.calls.Keys == {u}
    ensures s.calls - {u} == map[] && Inv(cfg, s.(calls := map[]))
  {
    CallKeeps(cfg, s, Cancel(u));
  }

  lemma CallsIgnored(cfg: Config, s: Sys, s0: Sys, s1: Sys, s': Sys, u: Id)
    requires s0.db == s.db && s0.files == s.files && s1.db == s'.db && s1.files == s'.files
    requires OnlyOwn(s0, s1, u) && Adds(cfg, s0, s1, u)
    ensures OnlyOwn(s, s', u) && Adds(cfg, s, s', u)
  {
  }

  // ----- what an honest upload comes to ---------------------------------------------------

  /** The parts the client declared really make up the content it declared. */
  ghost predicate Honest(cfg: Config, files: Files, u: Id, request: Request) {
    cfg.hash(PartContents(files, u, request.parts)) == request.blake3
  }

  /** A commit that adopted an existing blob finds that blob's object. */
  ghost predicate Anchored(s: Sys, u: Id) {
    u in s.db.uploads && s.db.uploads[u].account in s.db.accounts
    && (s.db.uploads[u].staged.None? ==> ObjectKey(s.db, s.db.uploads[u]) in s.files)
  }

  /** What is stored under the upload's digest has the size it declares. */
  ghost predicate SizesFit(s: Sys, u: Id)
    requires u in s.db.uploads && s.db.uploads[u].account in s.db.accounts
  {
    var row := s.db.uploads[u];
    SizeRecorded(s.db, row.account, row.request)
    && (ObjectKey(s.db, row) in s.files ==> |s.files[ObjectKey(s.db, row)]| == row.request.size)
  }

  ghost predicate Pending(s: Sys, u: Id) {
    u in s.db.uploads && s.db.uploads[u].commit in {Started, Finalizing}
  }

  /** No other interrupted upload of this digest declares another size. */
  ghost predicate Undisputed(s: Sys, u: Id)
    requires u in s.db.uploads
  {
    var row := s.db.uploads[u];
    forall v :: Pending(s, v) && s.db.uploads[v].account == row.account
                && s.db.uploads[v].request.blake3 == row.request.blake3 ==>
      s.db.uploads[v].request.size == row.request.size
  }

  /** An interrupted commit whose client told the truth, with nothing stored or
      under way that gives its digest another size. */
  ghost predicate Finishable(cfg: Config, s: Sys, u: Id) {
    Anchored(s, u) && Pending(s, u) && Honest(cfg, s.files, u, s.db.uploads[u].request)
    && SizesFit(s, u) && Undisputed(s, u)
  }

  lemma {:induction false} StoredPartsSize(cfg: Config, files: Files, u: Id, parts: seq<PartSpec>)
    requires forall i :: 0 <= i < |parts| ==> PartStored(cfg, files, u, parts[i])
    ensures |PartContents(files, u, parts)| == PartsSize(parts)
  {
    if parts != [] {
      assert PartStored(cfg, files, u, parts[0]);
      forall i | 0 <= i < |parts[1..]| ensures PartStored(cfg, files, u, parts[1..][i]) {
        assert PartStored(cfg, files, u, parts[i + 1]);
      }
      StoredPartsSize(cfg, files, u, parts[1..]);
    }
  }

  lemma {:induction false} SamePartContents(files: Files, files': Files, u: Id, parts: seq<PartSpec>)
    requires forall key: Key :: key.PartFile? ==> SameFile(files, files', key)
    ensures PartContents(files', u, parts) == PartContents(files, u, parts)
  {
    if parts != [] {
      assert SameFile(files, files', PartFile(u, parts[0].index));
      SamePartContents(files, files', u, parts[1..]);
    }
  }

  /** The interrupted commit of an honest upload is decided committed exactly
      when what is stored under its digest has its size. */
  lemma HonestVerdict(cfg: Config, s: Sys, u: Id)
    requires Inv(cfg, s) && Anchored(s, u) && Pending(s, u) && Honest(cfg, s.files, u, s.db.uploads[u].request)
    ensures Verdict(cfg, s, u) == Committed <==> SizesFit(s, u)
  {
    var row := s.db.uploads[u];
    var content := PartContents(s.files, u, row.request.parts);
    assert RowOk(cfg, s.db, s.files, u) && ObjectOk(cfg, s.files, ObjectKey(s.db, row));
    hide Core;
    forall i | 0 <= i < |row.request.parts| ensures PartStored(cfg, s.files, u, row.request.parts[i]) {
      assert row.parts[i].received && row.parts[i].spec == row.request.parts[i];
    }
    StoredPartsSize(cfg, s.files, u, row.request.parts);
    assert Lower(cfg.hash(content)) == cfg.hash(content);
    hide SizeRecorded;
  }

  // ----- the loop over interrupted uploads ------------------------------------------------

  ghost function SettleAll(cfg: Config, w: World, s: Sys, ids: seq<Id>, k: nat): (Sys, nat)
    decreases |ids|
  {
    if ids == [] then (s, k)
    else
      var (s1, k1) := Settle(cfg, w, s, ids[0], k);
      SettleAll(cfg, w, s1, ids[1..], k1)
  }

  lemma {:induction false} SettleOneMore(cfg: Config, w: World, s: Sys, ids: seq<Id>, u: Id, k: nat)
    ensures var (s1, k1) := SettleAll(cfg, w, s, ids, k);
      SettleAll(cfg, w, s, ids + [u], k) == Settle(cfg, w, s1, u, k1)
    decreases |ids|
  {
    if ids == [] {
      assert ([] + [u])[1..] == [];
    } else {
      var (s1, k1) := Settle(cfg, w, s, ids[0], k);
      SettleOneMore(cfg, w, s1, ids[1..], u, k1);
      assert (ids + [u])[1..] == ids[1..] + [u];
    }
  }

  /** The completion of `ids[i]`, at its turn, answers with success. */
  ghost predicate AnswersOk(cfg: Config, w: World, s: Sys, ids: seq<Id>, k: nat, i: nat)
    requires i < |ids|
  {
    var (t, k') := SettleAll(cfg, w, s, ids[..i], k);
    Complete(cfg, w, t, ids[i], k').0.calls[ids[i]].result.Ok?
  }

  /** The uploads whose completion answers with success. */
  ghost function Answered(cfg: Config, w: World, s: Sys, ids: seq<Id>, k: nat): set<Id> {
    set i | 0 <= i < |ids| && AnswersOk(cfg, w, s, ids, k, i) :: ids[i]
  }

  ghost predicate Distinct(ids: seq<Id>) {
    forall i, j :: 0 <= i < j < |ids| ==> ids[i] != ids[j]
  }

  ghost predicate Selectable(s: Sys, u: Id) {
    u in s.db.uploads && s.db.uploads[u].commit in {Started, Finalizing, Committed}
  }

  /** The uploads `reconcile_all` selects, in some order. */
  ghost predicate Selects(s: Sys, ids: seq<Id>) {
    Distinct(ids) && forall u :: u in ids <==> Selectable(s, u)
  }

  /** Everything but the uploads in `ids` is as it was. */
  ghost predicate OnlyThese(s: Sys, s': Sys, ids: seq<Id>) {
    && s'.db.accounts == s.db.accounts && s'.db.assets == s.db.assets
    && s'.db.uploads.Keys == s.db.uploads.Keys
    && (forall v :: v in s.db.uploads && v !in ids ==> s'.db.uploads[v] == s.db.uploads[v])
    && (forall key: Key :: key.PartFile? ==> SameFile(s.files, s'.files, key))
    && (forall key: Key :: key.StageFile? && key.upload !in ids ==> SameFile(s.files, s'.files, key))
    && (forall key: Key :: key.ObjectFile? && key in s.files ==> key in s'.files && s'.files[key] == s.files[key])
  }

  lemma OnlyTheseCons(s: Sys, s1: Sys, s': Sys, ids: seq<Id>)
    requires ids != [] && OnlyOwn(s, s1, ids[0]) && OnlyThese(s1, s', ids[1..])
    ensures OnlyThese(s, s', ids)
  {
    hide Later;
    assert forall v :: v !in ids ==> v != ids[0] && v !in ids[1..];
    forall key: Key | key.PartFile? || (key.StageFile? && key.upload !in ids)
      ensures SameFile(s.files, s'.files, key)
    {
      assert SameFile(s.files, s1.files, key) && SameFile(s1.files, s'.files, key);
    }
  }

  ghost predicate NothingNew(s: Sys, s': Sys) {
    s'.db.blobs == s.db.blobs && forall key: Key :: key.ObjectFile? && key in s'.files ==> key in s.files
  }

  /** What a turn of the loop makes of an upload: a committed one stays so as
      long as its resource is its own. */
  ghost function TurnVerdict(cfg: Config, s: Sys, u: Id): Commit
    requires u in s.db.uploads && s.db.uploads[u].account in s.db.accounts
  {
    if s.db.uploads[u].commit != Committed then Verdict(cfg, s, u)
    else if Current(s.db, s.db.uploads[u]) then Committed
    else Unknown
  }

  /** One turn of the loop: the verdict is reached and the stage is gone. */
  lemma SettleEnds(cfg: Config, w: World, s: Sys, u: Id, k: nat)
    requires Idle(cfg, w, s) && Selectable(s, u)
    ensures var s' := Settle(cfg, w, s, u, k).0;
      && u in s'.db.uploads && Terminal(s'.db.uploads[u].commit) && StageGone(s', u)
      && s.db.uploads[u].account in s.db.accounts && s'.db.uploads[u].commit == TurnVerdict(cfg, s, u)
      && (s.db.uploads[u].commit == Committed ==> NothingNew(s, s'))
  {
    hide Core, Drive, ObjectGood, StageGood, Assembled, SizeRecorded;
    if s.db.uploads[u].commit == Committed {
      RepeatedCompletion(cfg, w, s, u, k);
      var s0 := Begun(cfg, w, s, u);
    } else {
      ResumedCompletion(cfg, w, s, u, k);
      var s0 := Begun(cfg, w, s, u);
    }
  }

  /** What the rest of the loop starts from. */
  lemma RestSelectable(s: Sys, s1: Sys, ids: seq<Id>)
    requires ids != [] && Distinct(ids) && OnlyOwn(s, s1, ids[0]) && forall u :: u in ids ==> Selectable(s, u)
    ensures Distinct(ids[1..]) && ids[0] !in ids[1..]
    ensures forall v :: v in ids[1..] ==> v in ids && Selectable(s1, v)
  {
    hide Later;
    forall v | v in ids[1..] ensures v != ids[0] && v in ids && Selectable(s1, v) {
      var j :| 0 <= j < |ids[1..]| && ids[1..][j] == v;
      assert ids[j + 1] == v && v in ids;
    }
  }

  ghost predicate LoopEnds(cfg: Config, s: Sys, s': Sys, u: Id) {
    u in s'.db.uploads && Terminal(s'.db.uploads[u].commit) && StageGone(s', u)
    && (Finishable(cfg, s, u) ==> s'.db.uploads[u].commit == Committed)
  }

  /** The loop brings every selected upload to an end, and every honest one to
      `committed`. */
  lemma {:induction false} SettleAllEnds(cfg: Config, w: World, s: Sys, ids: seq<Id>, k: nat)
    requires Idle(cfg, w, s) && Distinct(ids) && forall u :: u in ids ==> Selectable(s, u)
    ensures var s' := SettleAll(cfg, w, s, ids, k).0;
      Idle(cfg, w, s') && OnlyThese(s, s', ids) && forall u :: u in ids ==> LoopEnds(cfg, s, s', u)
    decreases |ids|
  {
    hide Core;
    if ids != [] {
      var u := ids[0];
      assert u in ids;
      var (s1, k1) := Settle(cfg, w, s, u, k);
      SettleIdle(cfg, w, s, u, k);
      SettleEnds(cfg, w, s, u, k);
      RestSelectable(s, s1, ids);
      hide Settle, OnlyOwn, Later;
      SettleAllEnds(cfg, w, s1, ids[1..], k1);
      var s' := SettleAll(cfg, w, s, ids, k).0;
      OnlyTheseCons(s, s1, s', ids);
      StageStaysGone(cfg, w, s1, s', u, ids[1..]);
      forall v | v in ids ensures LoopEnds(cfg, s, s', v) {
        if v == u {
          if Finishable(cfg, s, v) {
            HonestVerdict(cfg, s, v);
          }
        } else if Finishable(cfg, s, v) {
          assert v in ids[1..];
          StillFinishable(cfg, s, s1, u, v);
        } else {
          assert v in ids[1..];
        }
      }
    }
  }

  /** The server when the turn of `ids[i]` comes. */
  ghost function AtTurn(cfg: Config, w: World, s: Sys, ids: seq<Id>, k: nat, i: nat): Sys
    requires i <= |ids|
  {
    SettleAll(cfg, w, s, ids[..i], k).0
  }

  /** The upload `ids[i]` ends as what is stored at its turn says. */
  ghost predicate EndsByItsTurn(cfg: Config, w: World, s: Sys, ids: seq<Id>, k: nat, i: nat, s': Sys)
    requires i < |ids|
  {
    var t := AtTurn(cfg, w, s, ids, k, i);
    ids[i] in t.db.uploads && t.db.uploads[ids[i]].account in t.db.accounts
    && ids[i] in s'.db.uploads && s'.db.uploads[ids[i]].commit == TurnVerdict(cfg, t, ids[i])
  }

  lemma NextTurn(cfg: Config, w: World, s: Sys, ids: seq<Id>, k: nat, i: nat)
    requires 0 < i <= |ids|
    ensures var (s1, k1) := Settle(cfg, w, s, ids[0], k);
      AtTurn(cfg, w, s, ids, k, i) == AtTurn(cfg, w, s1, ids[1..], k1, i - 1)
  {
    assert ids[..i][0] == ids[0] && ids[..i][1..] == ids[1..][..i - 1];
  }

  /** Every selected upload gets the verdict of its own turn, and keeps it. */
  lemma {:induction false} SettleAllVerdicts(cfg: Config, w: World, s: Sys, ids: seq<Id>, k: nat, i: nat)
    requires Idle(cfg, w, s) && Distinct(ids) && (forall u :: u in ids ==> Selectable(s, u)) && i < |ids|
    ensures EndsByItsTurn(cfg, w, s, ids, k, i, SettleAll(cfg, w, s, ids, k).0)
    decreases |ids|
  {
    hide Core, TurnVerdict;
    var u := ids[0];
    assert u in ids;
    var (s1, k1) := Settle(cfg, w, s, u, k);
    SettleIdle(cfg, w, s, u, k);
    SettleEnds(cfg, w, s, u, k);
    RestSelectable(s, s1, ids);
    hide Settle, OnlyOwn, Adds, Later, NothingNew, StageGone, Idle, Selectable, LoopEnds;
    if i > 0 {
      NextTurn(cfg, w, s, ids, k, i);
      SettleAllVerdicts(cfg, w, s1, ids[1..], k1, i - 1);
    } else {
      SettleAllEnds(cfg, w, s1, ids[1..], k1);
      assert ids[..0] == [] && AtTurn(cfg, w, s, ids, k, 0) == s;
    }
  }

  lemma StageStaysGone(cfg: Config, w: World, s: Sys, s': Sys, u: Id, others: seq<Id>)
    requires Idle(cfg, w, s) && OnlyThese(s, s', others) && u in s.db.uploads && u !in others
    requires StageGone(s, u)
    ensures StageGone(s', u)
  {
    assert RowOk(cfg, s.db, s.files, u);
    hide Core;
    if s.db.uploads[u].commit == Committed && s.db.uploads[u].staged.Some? {
      assert SameFile(s.files, s'.files, s.db.uploads[u].staged.value);
    }
  }

  /** Completing another upload takes nothing from one that can be finished. */
  lemma StillFinishable(cfg: Config, s: Sys, s1: Sys, u: Id, v: Id)
    requires Inv(cfg, s) && OnlyOwn(s, s1, u) && Adds(cfg, s, s1, u) && v != u && Selectable(s, u)
    requires Finishable(cfg, s, v) && (s.db.uploads[u].commit == Committed ==> NothingNew(s, s1))
    ensures Finishable(cfg, s1, v)
  {
    var row := s.db.uploads[v];
    SamePartContents(s.files, s1.files, v, row.request.parts);
  }

  // ----- reclaiming and sweeping ----------------------------------------------------------

  /** `cleanup_orphan_staging` over every account directory. */
  ghost predicate Swept(s: Sys, key: Key) {
    key.StageFile? && Unreferenced(s.db, key)
    && exists a :: a in s.db.accounts && s.db.accounts[a].path == key.path
  }

  ghost function SweepAll(s: Sys): Sys {
    s.(files := map key | key in s.files && !Swept(s, key) :: s.files[key])
  }

  ghost predicate NonePending(s: Sys) {
    forall u :: u in s.db.uploads ==> s.db.uploads[u].commit !in {Started, Finalizing}
  }

  /** With nothing pending, reclaiming keeps the invariant. */
  lemma {:induction false} ReclaimAllKeepsInv(cfg: Config, w: World, s: Sys, blobs: seq<Id>, k: nat)
    requires Idle(cfg, w, s) && NonePending(s)
    ensures Idle(cfg, w, ReclaimAll(w, s, blobs, k).0)
    decreases |blobs|
  {
    if blobs != [] {
      if Orphan(s.db, blobs[0]) && OwnObject(s.db, blobs[0]) {
        var s1 := Reclaimed(s, blobs[0], false);
        assert s1 == Apply(cfg, s, Reclaim(blobs[0], false));
        ReclaimKeeps(cfg, s, Reclaim(blobs[0], false));
        hide Core, Apply;
        ReclaimAllKeepsInv(cfg, w, s1, blobs[1..], k + 1);
      } else {
        ReclaimAllKeepsInv(cfg, w, s, blobs[1..], k + 1);
      }
    }
  }

  lemma ReclaimAllEnds(cfg: Config, w: World, s: Sys, blobs: seq<Id>, k: nat)
    requires Idle(cfg, w, s) && NonePending(s)
    ensures var (s', _, done) := ReclaimAll(w, s, blobs, k);
      && Idle(cfg, w, s') && done && s' == s.(db := s.db.(blobs := s'.db.blobs), files := s'.files)
      && (forall b :: Orphan(s'.db, b) ==> Orphan(s.db, b) && b !in blobs)
      && (forall key: Key :: !key.ObjectFile? ==> SameFile(s.files, s'.files, key))
  {
    ReclaimAllKeepsInv(cfg, w, s, blobs, k);
    PassTouchesOnlyOrphans(w, s, blobs, k);
    FaultlessPassLeavesNone(w, s, blobs, k);
    BlobsAreOwn(cfg, s);
    var s' := ReclaimAll(w, s, blobs, k).0;
    forall b | Orphan(s.db, b) ensures s.db.blobs[b].key.ObjectFile? {
      assert BlobOk(cfg, s.db, b);
    }
  }

  lemma SweepKeepsInv(cfg: Config, w: World, s: Sys)
    requires Idle(cfg, w, s)
    ensures Idle(cfg, w, SweepAll(s))
  {
    var s' := SweepAll(s);
    forall u ensures Keeps(s.db, s.files, s'.db, s'.files, u) {
      assert RowOk(cfg, s.db, s.files, u);
    }
    forall r ensures ResourceKept(s.db, s.files, s'.db, s'.files, r) {
      if r in s.db.resources && s.db.resources[r].blob in s.db.blobs {
        assert BlobOk(cfg, s.db, s.db.resources[r].blob);
      }
    }
    CalmKeeps(cfg, s, s');
  }

  // ----- the whole pass ---------------------------------------------------------------------

  /** `reconcile_all` on a quiescent server: the completions, then the orphan
      blobs, then, unless that was aborted, the orphan stages. */
  ghost function Pass(cfg: Config, w: World, s: Sys, ids: seq<Id>, blobs: seq<Id>, k: nat): Sys {
    var (s1, k1) := SettleAll(cfg, w, s, ids, k);
    var (s2, _, done) := ReclaimAll(w, s1, blobs, k1);
    if done then SweepAll(s2) else s2
  }

  /** The orphans the pass lists after its first loop. */
  ghost predicate ListsOrphans(s: Sys, blobs: seq<Id>) {
    forall b :: Orphan(s.db, b) ==> b in blobs
  }

  /** Nothing is left to do but re-validate what is committed. */
  ghost predicate Settled(s: Sys) {
    NonePending(s) && (forall b :: !Orphan(s.db, b)) && (forall key :: key in s.files ==> !Swept(s, key))
    && (forall u :: StageGone(s, u))
  }

  lemma LoopLeavesNone(cfg: Config, s: Sys, s1: Sys, ids: seq<Id>)
    requires Selects(s, ids) && OnlyThese(s, s1, ids) && forall u :: u in ids ==> LoopEnds(cfg, s, s1, u)
    ensures NonePending(s1) && (forall u :: StageGone(s1, u)) && s1.db.uploads.Keys == s.db.uploads.Keys
    ensures forall u :: Finishable(cfg, s, u) ==> u in s1.db.uploads && s1.db.uploads[u].commit == Committed
  {
    hide Finishable;
    forall u | u in s1.db.uploads
      ensures s1.db.uploads[u].commit !in {Started, Finalizing} && StageGone(s1, u)
    {
      if u !in ids {
        assert !Selectable(s, u) && s1.db.uploads[u] == s.db.uploads[u];
      }
    }
    forall u | Finishable(cfg, s, u)
      ensures u in s1.db.uploads && s1.db.uploads[u].commit == Committed
    {
      FinishableSelected(cfg, s, u);
      assert LoopEnds(cfg, s, s1, u);
    }
  }

  lemma FinishableSelected(cfg: Config, s: Sys, u: Id)
    requires Finishable(cfg, s, u)
    ensures Selectable(s, u)
  {
  }

  /** Recovery converges: from any state a crash can leave, one pass ends every
      interrupted commit as what is stored at its turn says, commits every honest
      one, and leaves no orphan row, no orphan stage and no stage of a committed
      upload. */
  lemma RecoveryConverges(cfg: Config, w: World, s: Sys, ids: seq<Id>, blobs: seq<Id>, k: nat)
    requires Idle(cfg, w, s) && Selects(s, ids)
    requires ListsOrphans(SettleAll(cfg, w, s, ids, k).0, blobs)
    ensures var s' := Pass(cfg, w, s, ids, blobs, k);
      && Idle(cfg, w, s') && Settled(s') && s'.db.uploads.Keys == s.db.uploads.Keys
      && (forall u :: Finishable(cfg, s, u) ==> s'.db.uploads[u].commit == Committed)
      && (forall i :: 0 <= i < |ids| ==> EndsByItsTurn(cfg, w, s, ids, k, i, s'))
  {
    SettleAllEnds(cfg, w, s, ids, k);
    var s1 := SettleAll(cfg, w, s, ids, k).0;
    hide Core;
    LoopLeavesNone(cfg, s, s1, ids);
    hide OnlyThese, LoopEnds, Finishable;
    var k1 := SettleAll(cfg, w, s, ids, k).1;
    ReclaimAllEnds(cfg, w, s1, blobs, k1);
    var s2 := ReclaimAll(w, s1, blobs, k1).0;
    SweepKeepsInv(cfg, w, s2);
    PassSettled(cfg, w, s1, s2);
    hide SettleAll, ReclaimAll, Settled, Idle, TurnVerdict;
    forall i | 0 <= i < |ids| ensures EndsByItsTurn(cfg, w, s, ids, k, i, SweepAll(s2)) {
      PassKeepsVerdict(cfg, w, s, ids, k, i, s1, s2);
    }
  }

  lemma PassKeepsVerdict(cfg: Config, w: World, s: Sys, ids: seq<Id>, k: nat, i: nat, s1: Sys, s2: Sys)
    requires Idle(cfg, w, s) && Selects(s, ids) && s1 == SettleAll(cfg, w, s, ids, k).0 && i < |ids|
    requires s2.db.uploads == s1.db.uploads
    ensures EndsByItsTurn(cfg, w, s, ids, k, i, SweepAll(s2))
  {
    SettleAllVerdicts(cfg, w, s, ids, k, i);
  }

  lemma PassSettled(cfg: Config, w: World, s1: Sys, s2: Sys)
    requires NonePending(s1) && (forall u :: StageGone(s1, u))
    requires Idle(cfg, w, s1)
    requires s2 == s1.(db := s1.db.(blobs := s2.db.blobs), files := s2.files)
    requires forall b :: !Orphan(s2.db, b)
    requires forall key: Key :: !key.ObjectFile? ==> SameFile(s1.files, s2.files, key)
    ensures Settled(SweepAll(s2))
  {
    var s' := SweepAll(s2);
    forall u ensures StageGone(s', u) {
      assert StageGone(s1, u) && RowOk(cfg, s1.db, s1.files, u);
      if u in s1.db.uploads && s1.db.uploads[u].commit == Committed && s1.db.uploads[u].staged.Some? {
        assert SameFile(s1.files, s2.files, s1.db.uploads[u].staged.value);
      }
    }
    forall key | key in s'.files ensures !Swept(s', key) {
      assert !Swept(s2, key);
    }
    forall b ensures !Orphan(s'.db, b) {
      assert !Orphan(s2.db, b);
    }
  }

  // ----- what the answers tell ----------------------------------------------------------------

  predicate TailPc(pc: Pc) {
    pc.DropStage? || pc.CheckMetadata? || pc.CheckObject? || pc.Returned?
  }

  /** A success comes only from the transaction that commits, or afterwards. */
  lemma ActAnswers(cfg: Config, db: Db, files: Files, u: Id, pc: Pc, ch: Choice)
    requires PcOk(cfg, db, files, u, pc) && u in db.uploads && !TailPc(pc)
    ensures var e := Act(cfg, db, files, u, pc, ch);
      var committed := e.row.Some? && e.row.value.commit == Committed;
      (e.pc.Returned? && e.pc.result.Ok? ==> committed)
      && (committed ==> (e.pc.DropStage? && !e.pc.strict) || (e.pc.Returned? && e.pc.result.Ok?))
  {
    RowWriters(cfg, db, files, u, pc, ch);
    hide FindBlob, FindResource, CommitQuotaOk, ContentIs, Assembled, AllReceived, CandidateValid, CommittedMetadataOk,
      ReadyOk, StageGood, ObjectGood, ApprovedOk, CandidateRow;
    match pc
    case BeginTx(_, _) =>
    case ToFinalizing(_) =>
    case MetadataTx(_, _, _) =>
    case Mark(_) =>
    case _ =>
  }

  lemma TailAnswersOk(cfg: Config, w: World, s: Sys, u: Id, k: nat)
    requires u in s.calls
    requires (s.calls[u].DropStage? && !s.calls[u].strict) || (s.calls[u].Returned? && s.calls[u].result.Ok?)
    ensures Drive(cfg, w, s, u, k).0.calls[u].result.Ok? && Drive(cfg, w, s, u, k).0.db == s.db
  {
    if s.calls[u].DropStage? {
      var s1 := Advance(cfg, s, u, Draw(w, s, k));
      assert s1.db == s.db && s1.calls[u].Returned? && s1.calls[u].result.Ok?;
    }
  }

  lemma PcOfCommitted(cfg: Config, s: Sys, u: Id)
    requires Inv(cfg, s) && u in s.calls && u in s.db.uploads && s.db.uploads[u].commit != Committed
    ensures PcOk(cfg, s.db, s.files, u, s.calls[u]) && (TailPc(s.calls[u]) ==> s.calls[u].Returned?)
  {
    assert PcOk(cfg, s.db, s.files, u, s.calls[u]);
  }

  /** A call that begins on an unfinished upload answers with success exactly
      when it leaves the upload committed. */
  lemma {:induction false} AnswerTellsCommit(cfg: Config, w: World, s: Sys, u: Id, k: nat)
    requires Inv(cfg, s) && WorldOk(w) && u in s.calls && u in s.db.uploads && s.db.uploads[u].commit != Committed
    requires s.calls[u].Returned? ==> s.calls[u].result.Err?
    ensures var s' := Drive(cfg, w, s, u, k).0;
      u in s'.db.uploads && (s'.calls[u].result.Ok? <==> s'.db.uploads[u].commit == Committed)
    decreases PcRank(s.calls[u])
  {
    PcOfCommitted(cfg, s, u);
    if !s.calls[u].Returned? {
      var ch := Draw(w, s, k);
      RankFalls(cfg, s.db, s.files, u, s.calls[u], ch);
      AdvanceKeepsInv(cfg, s, u, ch);
      AdvanceOnlyOwn(cfg, s, u, ch);
      ActAnswers(cfg, s.db, s.files, u, s.calls[u], ch);
      hide Core, Act, PcOk, Later;
      var s1 := Advance(cfg, s, u, ch);
      if s1.db.uploads[u].commit == Committed {
        TailAnswersOk(cfg, w, s1, u, k + 1);
      } else {
        AnswerTellsCommit(cfg, w, s1, u, k + 1);
      }
    }
  }

  // ----- a second pass ------------------------------------------------------------------------

  lemma SettleCommitted(cfg: Config, w: World, s: Sys, u: Id, k: nat)
    requires Idle(cfg, w, s) && u in s.db.uploads && s.db.uploads[u].commit == Committed && StageGone(s, u)
    ensures var s' := Settle(cfg, w, s, u, k).0;
      s'.files == s.files
      && if Current(s.db, s.db.uploads[u]) then s'.db == s.db
         else s'.db == s.db.(uploads := s.db.uploads[u := s.db.uploads[u].(commit := Unknown)])
  {
    hide Core;
    RepeatedCompletion(cfg, w, s, u, k);
  }

  ghost predicate AllCommitted(s: Sys, ids: seq<Id>) {
    forall u :: u in ids ==> u in s.db.uploads && s.db.uploads[u].commit == Committed && StageGone(s, u)
  }

  lemma {:induction false} CurrentUploadsAreLeftAlone(cfg: Config, w: World, s: Sys, ids: seq<Id>, k: nat)
    requires Idle(cfg, w, s) && AllCommitted(s, ids)
    requires forall u :: u in ids ==> Current(s.db, s.db.uploads[u])
    ensures var s' := SettleAll(cfg, w, s, ids, k).0; s'.db == s.db && s'.files == s.files
    decreases |ids|
  {
    hide Core;
    if ids != [] {
      assert ids[0] in ids;
      SettleCommitted(cfg, w, s, ids[0], k);
      SettleIdle(cfg, w, s, ids[0], k);
      var (s1, k1) := Settle(cfg, w, s, ids[0], k);
      CurrentUploadsAreLeftAlone(cfg, w, s1, ids[1..], k1);
    }
  }

  lemma TailSelection(s: Sys, s1: Sys, ids: seq<Id>)
    requires ids != [] && Distinct(ids) && AllCommitted(s, ids) && s1.files == s.files
    requires s1.db == s.db
             || s1.db == s.db.(uploads := s.db.uploads[ids[0] := s.db.uploads[ids[0]].(commit := Unknown)])
    ensures AllCommitted(s1, ids[1..]) && Distinct(ids[1..]) && ids[0] !in ids[1..]
    ensures forall x :: x in ids[1..] ==> Selectable(s1, x)
  {
    forall x | x in ids[1..] ensures x != ids[0] && x in ids {
      var j :| 0 <= j < |ids[1..]| && ids[1..][j] == x;
      assert ids[j + 1] == x;
    }
    forall x | x in ids[1..] ensures StageGone(s1, x) {
      assert StageGone(s, x);
    }
  }

  lemma {:induction false} SupersededUploadIsMarked(cfg: Config, w: World, s: Sys, ids: seq<Id>, k: nat, u: Id)
    requires Idle(cfg, w, s) && AllCommitted(s, ids) && Distinct(ids)
    requires u in ids && !Current(s.db, s.db.uploads[u])
    ensures u in SettleAll(cfg, w, s, ids, k).0.db.uploads
    ensures SettleAll(cfg, w, s, ids, k).0.db.uploads[u].commit == Unknown
    decreases |ids|
  {
    hide Core;
    var v := ids[0];
    assert v in ids;
    var (s1, k1) := Settle(cfg, w, s, v, k);
    SettleCommitted(cfg, w, s, v, k);
    SettleIdle(cfg, w, s, v, k);
    TailSelection(s, s1, ids);
    hide OnlyOwn, Later;
    if u == v {
      SettleAllEnds(cfg, w, s1, ids[1..], k1);
    } else {
      assert u in ids[1..];
      SupersededUploadIsMarked(cfg, w, s1, ids[1..], k1, u);
    }
  }

  lemma {:induction false} NoOrphansNoChange(w: World, s: Sys, blobs: seq<Id>, k: nat)
    requires forall b :: !Orphan(s.db, b)
    ensures ReclaimAll(w, s, blobs, k).0 == s && ReclaimAll(w, s, blobs, k).2
    decreases |blobs|
  {
    if blobs != [] {
      NoOrphansNoChange(w, s, blobs[1..], k + 1);
    }
  }

  /** A second pass over a settled server changes no row and no file exactly
      when every committed upload still owns its resource. */
  lemma SecondPassIdle(cfg: Config, w: World, s: Sys, ids: seq<Id>, blobs: seq<Id>, k: nat)
    requires Idle(cfg, w, s) && Settled(s) && Selects(s, ids)
    ensures var s' := Pass(cfg, w, s, ids, blobs, k);
      (s'.db == s.db && s'.files == s.files)
      <==> forall u :: u in s.db.uploads && s.db.uploads[u].commit == Committed ==> Current(s.db, s.db.uploads[u])
  {
    hide Core;
    var (s1, k1) := SettleAll(cfg, w, s, ids, k);
    assert AllCommitted(s, ids) by {
      forall u | u in ids ensures s.db.uploads[u].commit == Committed && StageGone(s, u) {
        assert Selectable(s, u);
      }
    }
    if u :| u in s.db.uploads && s.db.uploads[u].commit == Committed && !Current(s.db, s.db.uploads[u]) {
      assert Selectable(s, u);
      SupersededUploadIsMarked(cfg, w, s, ids, k, u);
      PassTouchesOnlyOrphans(w, s1, blobs, k1);
    } else {
      forall u | u in ids ensures Current(s.db, s.db.uploads[u]) {
        assert Selectable(s, u);
      }
      CurrentUploadsAreLeftAlone(cfg, w, s, ids, k);
      forall b ensures !Orphan(s1.db, b) {
        assert !Orphan(s.db, b);
      }
      NoOrphansNoChange(w, s1, blobs, k1);
      assert SweepAll(s1).files == s1.files by {
        forall key | key in s1.files ensures !Swept(s1, key) {
          assert !Swept(s, key);
        }
      }
    }
  }

  // ----- who owns a resource after the first pass -------------------------------------------

  /** Uploads that fill the same resource of the same asset carry one content. */
  ghost predicate SlotsAgree(s: Sys) {
    forall u, v :: Selectable(s, u) && Selectable(s, v)
      && s.db.uploads[u].asset == s.db.uploads[v].asset
      && s.db.uploads[u].request.sourceResource == s.db.uploads[v].request.sourceResource
      ==> s.db.uploads[u].request.blake3 == s.db.uploads[v].request.blake3
  }

  ghost predicate AllCurrent(s: Sys) {
    forall u :: u in s.db.uploads && s.db.uploads[u].commit == Committed ==> Current(s.db, s.db.uploads[u])
  }

  /** A completion leaves resources alone, or commits and points its own one at
      its blob. */
  ghost predicate ResourceMove(s: Sys, s': Sys, u: Id) {
    u in s.db.uploads && u in s'.db.uploads
    && var row, row' := s.db.uploads[u], s'.db.uploads[u];
       (s'.db.resources == s.db.resources && (row'.commit == Committed ==> row.commit == Committed))
       || (row.commit != Committed && row'.commit == Committed && row'.blob.Some? && row'.resource.Some?
           && s'.db.resources == s.db.resources[
                row'.resource.value := Resource(row.asset, row'.blob.value, row.request.sourceResource)])
  }

  lemma AdvanceMoves(cfg: Config, s: Sys, u: Id, ch: Choice)
    requires Inv(cfg, s) && u in s.calls && ch.uuid !in s.issued && u in s.db.uploads
    ensures ResourceMove(s, Advance(cfg, s, u, ch), u)
  {
    RowWriters(cfg, s.db, s.files, u, s.calls[u], ch);
    var pc := s.calls[u];
    assert PcOk(cfg, s.db, s.files, u, pc);
    hide Core;
    ActMoves(cfg, s.db, s.files, u, pc, ch);
    hide Act, PcOk;
    var s' := Advance(cfg, s, u, ch);
  }

  lemma ActMoves(cfg: Config, db: Db, files: Files, u: Id, pc: Pc, ch: Choice)
    requires PcOk(cfg, db, files, u, pc) && u in db.uploads
    ensures var e := Act(cfg, db, files, u, pc, ch);
      && (e.row.Some? && e.row.value.commit == Committed ==>
            e.row.value.blob.Some? && e.row.value.resource.Some? && db.uploads[u].commit != Committed
            && e.resource == Some((e.row.value.resource.value,
                                   Resource(db.uploads[u].asset, e.row.value.blob.value,
                                            db.uploads[u].request.sourceResource))))
      && (e.resource.Some? ==> e.row.Some? && e.row.value.commit == Committed)
  {
    RowWriters(cfg, db, files, u, pc, ch);
    match pc
    case BeginTx(_, _) =>
    case ToFinalizing(_) =>
    case MetadataTx(_, _, _) =>
    case Mark(_) =>
    case _ =>
  }

  /** Once the commit is made, the call only drops its stage and returns. */
  lemma DriveTail(cfg: Config, w: World, s: Sys, u: Id, k: nat)
    requires u in s.calls && (s.calls[u].DropStage? || s.calls[u].Returned?)
    ensures Drive(cfg, w, s, u, k).0.db == s.db
  {
    if s.calls[u].DropStage? {
      var s1 := Advance(cfg, s, u, Draw(w, s, k));
      assert s1.db == s.db && s1.calls[u].Returned?;
    }
  }

  lemma MovesThen(a: Sys, b: Sys, c: Sys, u: Id)
    requires ResourceMove(a, b, u) && b.db.resources == a.db.resources && ResourceMove(b, c, u)
    requires Later(a.db.uploads[u], b.db.uploads[u]) && Later(b.db.uploads[u], c.db.uploads[u])
    requires b.db.uploads[u].commit == Committed ==> a.db.uploads[u].commit == Committed
    ensures ResourceMove(a, c, u)
  {
  }

  lemma {:induction false} DriveMoves(cfg: Config, w: World, s: Sys, u: Id, k: nat)
    requires Inv(cfg, s) && u in s.calls && WorldOk(w) && u in s.db.uploads
    ensures ResourceMove(s, Drive(cfg, w, s, u, k).0, u)
    decreases PcRank(s.calls[u])
  {
    if !s.calls[u].Returned? {
      var ch := Draw(w, s, k);
      RankFalls(cfg, s.db, s.files, u, s.calls[u], ch);
      AdvanceKeepsInv(cfg, s, u, ch);
      AdvanceOnlyOwn(cfg, s, u, ch);
      AdvanceMoves(cfg, s, u, ch);
      CommitThenTail(cfg, s, u, ch);
      var s1 := Advance(cfg, s, u, ch);
      DriveOnlyOwn(cfg, w, s1, u, k + 1);
      hide Core, Advance, Later;
      if s1.calls[u].DropStage? || s1.calls[u].Returned? {
        DriveTail(cfg, w, s1, u, k + 1);
      } else {
        DriveMoves(cfg, w, s1, u, k + 1);
        MovesThen(s, s1, Drive(cfg, w, s, u, k).0, u);
      }
    }
  }

  lemma ActThenTail(cfg: Config, db: Db, files: Files, u: Id, pc: Pc, ch: Choice)
    requires PcOk(cfg, db, files, u, pc) && u in db.uploads
    ensures var e := Act(cfg, db, files, u, pc, ch);
      e.row.Some? && e.row.value.commit == Committed ==> e.pc.DropStage? || e.pc.Returned?
  {
    RowWriters(cfg, db, files, u, pc, ch);
    match pc
    case BeginTx(_, _) =>
    case ToFinalizing(_) =>
    case MetadataTx(_, _, _) =>
    case Mark(_) =>
    case _ =>
  }

  lemma CommitThenTail(cfg: Config, s: Sys, u: Id, ch: Choice)
    requires Core(cfg, s) && u in s.calls && u in s.db.uploads
    ensures var s1 := Advance(cfg, s, u, ch);
      s1.db.uploads[u].commit == Committed && s.db.uploads[u].commit != Committed ==>
        s1.calls[u].DropStage? || s1.calls[u].Returned?
  {
    ActThenTail(cfg, s.db, s.files, u, s.calls[u], ch);
    hide Core, PcOk, Act;
  }

  lemma MoveKeepsCurrent(cfg: Config, s: Sys, s': Sys, u: Id)
    requires Inv(cfg, s) && Inv(cfg, s') && OnlyOwn(s, s', u) && ResourceMove(s, s', u)
    requires SlotsAgree(s) && AllCurrent(s) && Selectable(s, u)
    ensures AllCurrent(s')
  {
    hide Core;
    forall v | v in s'.db.uploads && s'.db.uploads[v].commit == Committed
      ensures Current(s'.db, s'.db.uploads[v])
    {
      CommittedFacts(cfg, s', v);
      if v != u && s.db.uploads[u].commit != Committed && s'.db.uploads[u].commit == Committed {
        CommittedFacts(cfg, s', u);
        CommittedFacts(cfg, s, v);
        hide Core, Later;
        assert Selectable(s, v);
      }
    }
  }

  lemma CommittedFacts(cfg: Config, s: Sys, u: Id)
    requires Inv(cfg, s) && u in s.db.uploads && s.db.uploads[u].commit == Committed
    ensures var row := s.db.uploads[u];
      row.resource.Some? && IsSlot(s.db, row.resource.value, row.asset, row.request.sourceResource)
      && row.blob.Some? && IsContent(s.db, row.blob.value, row.account, row.request.blake3)
      && row.asset in s.db.assets && s.db.assets[row.asset].account == row.account && UniqueBlobs(s.db)
  {
    assert RowOk(cfg, s.db, s.files, u);
  }

  lemma SettleKeepsCurrent(cfg: Config, w: World, s: Sys, u: Id, k: nat)
    requires Idle(cfg, w, s) && Selectable(s, u) && SlotsAgree(s) && AllCurrent(s)
    ensures var s' := Settle(cfg, w, s, u, k).0; SlotsAgree(s') && AllCurrent(s')
  {
    hide Core;
    var s0 := Begun(cfg, w, s, u);
    DriveMoves(cfg, w, s0, u, k);
    SettleIdle(cfg, w, s, u, k);
    var s' := Settle(cfg, w, s, u, k).0;
    MoveKeepsCurrent(cfg, s, s', u);
    forall v | Selectable(s', v) ensures Selectable(s, v) && s'.db.uploads[v].request == s.db.uploads[v].request
                                         && s'.db.uploads[v].asset == s.db.uploads[v].asset
    {
    }
  }

  lemma {:induction false} SettleAllKeepsCurrent(cfg: Config, w: World, s: Sys, ids: seq<Id>, k: nat)
    requires Idle(cfg, w, s) && Distinct(ids) && (forall u :: u in ids ==> Selectable(s, u))
    requires SlotsAgree(s) && AllCurrent(s)
    ensures AllCurrent(SettleAll(cfg, w, s, ids, k).0)
    decreases |ids|
  {
    hide Core, SlotsAgree, AllCurrent;
    if ids != [] {
      var u := ids[0];
      assert u in ids;
      var (s1, k1) := Settle(cfg, w, s, u, k);
      SettleIdle(cfg, w, s, u, k);
      SettleKeepsCurrent(cfg, w, s, u, k);
      RestSelectable(s, s1, ids);
      hide Settle, OnlyOwn, Selectable;
      SettleAllKeepsCurrent(cfg, w, s1, ids[1..], k1);
    }
  }

  /** Where uploads of one resource agree on its content, one pass leaves
      nothing for the next: the second changes no row and no file. */
  lemma SecondPassChangesNothing(cfg: Config, w: World, s: Sys, ids: seq<Id>, blobs: seq<Id>, k: nat,
                                 ids': seq<Id>, blobs': seq<Id>, k': nat)
    requires Idle(cfg, w, s) && Selects(s, ids) && SlotsAgree(s) && AllCurrent(s)
    requires ListsOrphans(SettleAll(cfg, w, s, ids, k).0, blobs)
    requires Selects(Pass(cfg, w, s, ids, blobs, k), ids')
    ensures var s1 := Pass(cfg, w, s, ids, blobs, k);
      var s2 := Pass(cfg, w, s1, ids', blobs', k');
      s2.db == s1.db && s2.files == s1.files
  {
    hide Core;
    RecoveryConverges(cfg, w, s, ids, blobs, k);
    SettleAllKeepsCurrent(cfg, w, s, ids, k);
    var (s0, k0) := SettleAll(cfg, w, s, ids, k);
    PassTouchesOnlyOrphans(w, s0, blobs, k0);
    var s1 := Pass(cfg, w, s, ids, blobs, k);
    assert AllCurrent(s1) by {
      forall u | u in s1.db.uploads && s1.db.uploads[u].commit == Committed ensures Current(s1.db, s1.db.uploads[u]) {
        assert Current(s0.db, s0.db.uploads[u]);
      }
    }
    SecondPassIdle(cfg, w, s1, ids', blobs', k');
  }
}
