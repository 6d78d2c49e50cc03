/** What holds along every run of the server, whatever interleaves, fails or
    crashes. */
module CommitSafety {
  import opened Types
  import opened CommitModel
  import opened CommitInvariant
  import opened CommitSteps
  import opened CommitRuns

  // ----- runs ----------------------------------------------------------------------

  /** A fresh installation: accounts with distinct directories, nothing else. */
  ghost predicate Initial(cfg: Config, s: Sys) {
    HashOk(cfg) && AccountsOk(s.db)
    && s.db.assets == map[] && s.db.blobs == map[] && s.db.resources == map[] && s.db.uploads == map[]
    && s.files == map[] && s.calls == map[] && s.puts == map[]
  }

  ghost predicate Run(cfg: Config, states: seq<Sys>, actions: seq<Action>) {
    && |states| == |actions| + 1 && Initial(cfg, states[0])
    && forall i :: 0 <= i < |actions| ==>
         Enabled(cfg, states[i], actions[i]) && states[i + 1] == Apply(cfg, states[i], actions[i])
  }

  lemma {:induction false} RunInv(cfg: Config, states: seq<Sys>, actions: seq<Action>, i: nat)
    requires Run(cfg, states, actions) && i < |states|
    ensures Inv(cfg, states[i])
  {
    if i > 0 {
      RunInv(cfg, states, actions, i - 1);
      ActionKeepsInv(cfg, states[i - 1], actions[i - 1]);
    }
  }

  // ----- a committed upload is really stored -----------------------------------------

  /** The upload's blob row is its account's row of this content and size, and
      the object at the upload's final key holds exactly that content. */
  ghost predicate Stored(cfg: Config, s: Sys, row: Upload) {
    row.final.Some? && row.blob.Some? && row.blob.value in s.db.blobs
    && var blob := s.db.blobs[row.blob.value];
       blob.account == row.account && blob.blake3 == row.request.blake3 && blob.size == row.request.size
       && blob.key == row.final.value && row.account in s.db.accounts
       && blob.key == ObjectFor(s.db.accounts[row.account].path, row.request.blake3)
       && blob.key in s.files && ContentIs(cfg, s.files[blob.key], row.request.size, row.request.blake3)
  }

  lemma CommittedIsStored(cfg: Config, states: seq<Sys>, actions: seq<Action>, i: nat, u: Id)
    requires Run(cfg, states, actions) && i < |states|
    requires u in states[i].db.uploads && states[i].db.uploads[u].commit == Committed
    ensures Stored(cfg, states[i], states[i].db.uploads[u])
  {
    RunInv(cfg, states, actions, i);
    var s := states[i];
    assert RowOk(cfg, s.db, s.files, u) && BlobOk(cfg, s.db, s.db.uploads[u].blob.value);
    assert ObjectOk(cfg, s.files, s.db.blobs[s.db.uploads[u].blob.value].key);
  }

  /** So does every resource a client can download. */
  lemma ResourceIsStored(cfg: Config, states: seq<Sys>, actions: seq<Action>, i: nat, r: Id)
    requires Run(cfg, states, actions) && i < |states| && r in states[i].db.resources
    ensures var s := states[i];
            var resource := s.db.resources[r];
            resource.asset in s.db.assets && resource.blob in s.db.blobs
            && s.db.blobs[resource.blob].account == s.db.assets[resource.asset].account
            && s.db.blobs[resource.blob].key in s.files
            && ContentIs(cfg, s.files[s.db.blobs[resource.blob].key],
                         s.db.blobs[resource.blob].size, s.db.blobs[resource.blob].blake3)
  {
    RunInv(cfg, states, actions, i);
    assert ResourceOk(cfg, states[i].db, states[i].files, r);
  }

  /** Only four kinds of step write rows, and only the last adds metadata. */
  lemma RowWriters(cfg: Config, db: Db, files: Files, u: Id, pc: Pc, ch: Choice)
    ensures var e := Act(cfg, db, files, u, pc, ch);
            && (!pc.BeginTx? && !pc.ToFinalizing? && !pc.MetadataTx? && !pc.Mark? ==> e.row.None?)
            && (!pc.MetadataTx? || ch.fault != Works ==> e.blob.None? && e.resource.None?)
            && ((!pc.MetadataTx? || ch.fault != Works) && e.row.Some? && e.row.value.commit == Committed ==>
                  pc == Mark(Committed))
  {
  }

  ghost predicate MetadataWrites(db: Db, e: Effect) {
    && (e.blob.Some? || e.resource.Some? ==> e.row.Some? && e.row.value.commit == Committed)
    && (e.blob.Some? ==>
          e.blob.value.0 !in db.blobs && e.row.value.blob == Some(e.blob.value.0)
          && IsBlobOf(e.blob.value.1, e.row.value))
    && (e.resource.Some? ==>
          e.row.value.resource == Some(e.resource.value.0) && IsResourceOf(e.resource.value.1, e.row.value)
          && (e.row.value.deduplicated <==> e.blob.None?))
  }

  lemma MetadataRows(db: Db, u: Id, ready: Ready, attempt: nat, approved: Option<Candidate>, uuid: Id)
    requires u in db.uploads ==> ReadyCommit(db.uploads[u], ready.path) == Some(ready)
    requires u in db.uploads && ready.staged.None? ==>
      exists b :: IsContent(db, b, ready.account, ready.request.blake3)
    requires u in db.uploads && ready.staged.Some? ==>
      forall b :: IsContent(db, b, ready.account, ready.request.blake3) ==> b != ready.blob
    ensures MetadataWrites(db, ActMetadataTx(db, u, ready, attempt, approved, uuid))
    ensures var e := ActMetadataTx(db, u, ready, attempt, approved, uuid);
      e.blob.Some? || e.resource.Some? ==> u in db.uploads && db.uploads[u].commit == Finalizing
  {
  }

  lemma MetadataTxAdds(cfg: Config, s: Sys, u: Id, uuid: Id)
    requires Inv(cfg, s) && u in s.calls && s.calls[u].MetadataTx?
    ensures var pc := s.calls[u];
      var e := ActMetadataTx(s.db, u, pc.ready, pc.attempt, pc.approved, uuid);
      MetadataWrites(s.db, e)
      && (e.blob.Some? || e.resource.Some? ==> u in s.db.uploads && s.db.uploads[u].commit == Finalizing)
  {
    assert RowOk(cfg, s.db, s.files, u) && PcOk(cfg, s.db, s.files, u, s.calls[u]);
    hide Core, ActMetadataTx, InspectFile, ContentIs;
    MetadataRows(s.db, u, s.calls[u].ready, s.calls[u].attempt, s.calls[u].approved, uuid);
  }

  /** The blob row is the account's, of the upload's content, at its final key. */
  ghost predicate IsBlobOf(blob: Blob, row: Upload) {
    blob.account == row.account && blob.blake3 == row.request.blake3 && blob.size == row.request.size
    && Some(blob.key) == row.final
  }

  /** The resource row shows the upload's blob under its asset and source. */
  ghost predicate IsResourceOf(resource: Resource, row: Upload) {
    resource.asset == row.asset && Some(resource.blob) == row.blob && resource.source == row.request.sourceResource
  }

  lemma StepAdds(cfg: Config, s: Sys, u: Id, ch: Choice)
    requires Inv(cfg, s) && u in s.calls
    ensures var s' := Advance(cfg, s, u, ch);
      && (forall b :: b in s'.db.blobs && b !in s.db.blobs ==>
            AddedBy(s, s', u) && s'.db.uploads[u].blob == Some(b) && IsBlobOf(s'.db.blobs[b], s'.db.uploads[u]))
      && (forall b :: b in s.db.blobs ==> b in s'.db.blobs && s'.db.blobs[b] == s.db.blobs[b])
      && (forall r :: r in s'.db.resources && (r !in s.db.resources || s'.db.resources[r] != s.db.resources[r]) ==>
            AddedBy(s, s', u) && s'.db.uploads[u].resource == Some(r)
            && IsResourceOf(s'.db.resources[r], s'.db.uploads[u]))
      && (AddedBy(s, s', u) ==> (s'.db.uploads[u].deduplicated <==> s'.db.blobs == s.db.blobs))
  {
    var pc := s.calls[u];
    assert pc != Mark(Committed) by {
      assert PcOk(cfg, s.db, s.files, u, pc);
    }
    RowWriters(cfg, s.db, s.files, u, pc, ch);
    hide Inv, Act;
    if pc.MetadataTx? && ch.fault == Works {
      MetadataTxAdds(cfg, s, u, ch.uuid);
      ActIsMetadata(cfg, s, u, ch);
    }
  }

  lemma ActIsMetadata(cfg: Config, s: Sys, u: Id, ch: Choice)
    requires u in s.calls && s.calls[u].MetadataTx? && ch.fault == Works
    ensures var pc := s.calls[u];
      Act(cfg, s.db, s.files, u, pc, ch) == ActMetadataTx(s.db, u, pc.ready, pc.attempt, pc.approved, ch.uuid)
  {
    hide ActMetadataTx;
  }

  /** This step is the transaction that commits upload `u`. */
  ghost predicate AddedBy(s: Sys, s': Sys, u: Id) {
    u in s.db.uploads && s.db.uploads[u].commit == Finalizing
    && u in s'.db.uploads && s'.db.uploads[u].commit == Committed
  }

  /** A blob row or a resource row appears only in the transaction that commits
      the upload naming it, and says what that upload says, or, for a resource,
      when stored content is attached. A commit counts as deduplicated exactly
      when it adds no blob row. */
  lemma OnlyCommitsAddMetadata(cfg: Config, states: seq<Sys>, actions: seq<Action>, i: nat)
    requires Run(cfg, states, actions) && i < |actions|
    ensures var s, s', a := states[i], states[i + 1], actions[i];
      && (forall b :: b in s'.db.blobs && b !in s.db.blobs ==>
            a.Step? && AddedBy(s, s', a.upload)
            && s'.db.uploads[a.upload].blob == Some(b) && IsBlobOf(s'.db.blobs[b], s'.db.uploads[a.upload]))
      && (forall b :: b in s.db.blobs && b in s'.db.blobs ==> s'.db.blobs[b] == s.db.blobs[b])
      && (forall r :: r in s'.db.resources && (r !in s.db.resources || s'.db.resources[r] != s.db.resources[r]) ==>
            a.Attach?
            || (a.Step? && AddedBy(s, s', a.upload) && s'.db.uploads[a.upload].resource == Some(r)
                && IsResourceOf(s'.db.resources[r], s'.db.uploads[a.upload])))
      && (a.Step? && AddedBy(s, s', a.upload) ==>
            (s'.db.uploads[a.upload].deduplicated <==> s'.db.blobs == s.db.blobs))
  {
    RunInv(cfg, states, actions, i);
    if actions[i].Step? {
      StepAdds(cfg, states[i], actions[i].upload, actions[i].choice);
    } else {
      OthersAddNothing(cfg, states[i], actions[i]);
    }
  }

  lemma OthersAddNothing(cfg: Config, s: Sys, a: Action)
    requires Enabled(cfg, s, a) && !a.Step?
    ensures forall b :: b in Apply(cfg, s, a).db.blobs ==>
      b in s.db.blobs && Apply(cfg, s, a).db.blobs[b] == s.db.blobs[b]
    ensures !a.Attach? ==> forall r :: r in Apply(cfg, s, a).db.resources ==>
      r in s.db.resources && Apply(cfg, s, a).db.resources[r] == s.db.resources[r]
  {
    hide FindBlob, CreateQuotaOk, UploadRequestOk, FindAsset, FindResource;
  }

  // ----- parts and objects -------------------------------------------------------------

  /** Every part marked received is on disk as its manifest entry says, and every
      upload past `receiving` has all of them. */
  lemma ReceivedPartsAreStored(cfg: Config, states: seq<Sys>, actions: seq<Action>, i: nat, u: Id)
    requires Run(cfg, states, actions) && i < |states| && u in states[i].db.uploads
    ensures var row := states[i].db.uploads[u];
      |row.parts| == |row.request.parts|
      && (forall k :: 0 <= k < |row.parts| && row.parts[k].received ==>
            PartStored(cfg, states[i].files, u, row.request.parts[k]))
      && (row.commit != Receiving ==> AllReceived(row))
  {
    RunInv(cfg, states, actions, i);
    assert RowOk(cfg, states[i].db, states[i].files, u);
  }

  ghost predicate Untouched(s: Sys, s': Sys, key: Key) {
    key in s.files && key in s'.files && s'.files[key] == s.files[key]
  }

  lemma StepFiles(cfg: Config, s: Sys, u: Id, ch: Choice, key: Key)
    requires Inv(cfg, s) && u in s.calls && ch.uuid !in s.issued && !key.StageFile? && key in s.files
    ensures Untouched(s, Advance(cfg, s, u, ch), key)
  {
    ActSound(cfg, s.db, s.files, u, s.calls[u], ch);
    var e := Act(cfg, s.db, s.files, u, s.calls[u], ch);
    assert FileEffectOk(cfg, s.files, u, e);
  }

  lemma OthersFiles(cfg: Config, s: Sys, a: Action, key: Key)
    requires Enabled(cfg, s, a) && !a.Step? && !key.StageFile? && key in s.files
    requires a.PartialStage? ==> s.calls[a.upload].ready.staged.value.StageFile?
    ensures Untouched(s, Apply(cfg, s, a), key)
         || (a.Reclaim? && s.db.blobs[a.blob].key == key && key !in Apply(cfg, s, a).files)
  {
  }

  /** No action changes a stored part, and only reclaiming an orphan removes an
      object; nothing ever replaces one. */
  lemma FilesAreStable(cfg: Config, states: seq<Sys>, actions: seq<Action>, i: nat, key: Key)
    requires Run(cfg, states, actions) && i < |actions| && !key.StageFile? && key in states[i].files
    ensures Untouched(states[i], states[i + 1], key)
         || (key.ObjectFile? && key !in states[i + 1].files && actions[i].Reclaim?
             && Orphan(states[i].db, actions[i].blob) && states[i].db.blobs[actions[i].blob].key == key)
  {
    RunInv(cfg, states, actions, i);
    var s, a := states[i], actions[i];
    if a.Step? {
      StepFiles(cfg, s, a.upload, a.choice, key);
    } else {
      if a.PartialStage? {
        assert PcOk(cfg, s.db, s.files, a.upload, s.calls[a.upload]);
      } else if a.Reclaim? {
        assert BlobOk(cfg, s.db, a.blob);
      }
      OthersFiles(cfg, s, a, key);
    }
  }

  // ----- the names of stages -----------------------------------------------------------

  ghost predicate NonceIssued(issued: set<Id>, key: Key) {
    key.StageFile? ==> key.nonce in issued
  }

  ghost predicate StageFilesIssued(s: Sys) {
    forall key :: key in s.files ==> NonceIssued(s.issued, key)
  }

  ghost predicate StagedIssued(issued: set<Id>, staged: Option<Key>) {
    staged.Some? ==> NonceIssued(issued, staged.value)
  }

  predicate HasReady(pc: Pc) {
    pc.InspectStarted? || pc.Assemble? || pc.ToFinalizing? || pc.InspectFinal? || pc.InspectStage? || pc.Publish?
    || pc.LoadCandidate? || pc.CheckCandidate? || pc.MetadataTx? || pc.CheckActual? || pc.CheckMetadata?
    || pc.CheckObject? || pc.DropStage?
  }

  /** No file, row or call names a stage by a UUID that was not drawn before. */
  ghost predicate StagesIssued(s: Sys) {
    StageFilesIssued(s)
    && (forall u :: u in s.db.uploads ==> StagedIssued(s.issued, s.db.uploads[u].staged))
    && (forall u :: u in s.calls && HasReady(s.calls[u]) ==> StagedIssued(s.issued, s.calls[u].ready.staged))
  }

  /** What a step that names only issued stages leaves behind. */
  ghost predicate NamesIssued(issued: set<Id>, e: Effect) {
    && (HasReady(e.pc) ==> StagedIssued(issued, e.pc.ready.staged))
    && (e.row.Some? ==> StagedIssued(issued, e.row.value.staged))
    && (e.write.Some? ==> NonceIssued(issued, e.write.value.0))
  }

  lemma LoadNonces(db: Db, u: Id, required: Option<Id>, issued: set<Id>)
    requires u in db.uploads ==> StagedIssued(issued, db.uploads[u].staged)
    ensures NamesIssued(issued, ActLoad(db, u, required))
  {
  }

  lemma RowNonces(cfg: Config, db: Db, files: Files, u: Id, pc: Pc, ch: Choice, issued: set<Id>)
    requires (pc.BeginTx? || pc.MetadataTx? || pc.ToFinalizing? || pc.Mark?) && ch.fault == Works && ch.uuid in issued
    requires HasReady(pc) ==> StagedIssued(issued, pc.ready.staged)
    requires u in db.uploads ==> StagedIssued(issued, db.uploads[u].staged)
    ensures NamesIssued(issued, Act(cfg, db, files, u, pc, ch))
  {
    hide FindBlob, FindResource, CommitQuotaOk, IsContent, IsBlake3, IsSlot, ActLoad;
    match pc
    case BeginTx(_, _) =>
    case MetadataTx(_, _, _) =>
    case ToFinalizing(_) =>
    case Mark(_) =>
  }

  lemma FileNonces(cfg: Config, db: Db, files: Files, u: Id, pc: Pc, ch: Choice, issued: set<Id>)
    requires PcOk(cfg, db, files, u, pc) && (pc.Assemble? || pc.Publish?)
    requires StagedIssued(issued, pc.ready.staged)
    ensures NamesIssued(issued, Act(cfg, db, files, u, pc, ch))
  {
    hide ContentIs, Assembled, StageGood, ObjectGood, ReadyCommit, RequestOk;
  }

  lemma ReadNonces(cfg: Config, db: Db, files: Files, u: Id, pc: Pc, ch: Choice, issued: set<Id>)
    requires HasReady(pc) ==> StagedIssued(issued, pc.ready.staged)
    requires !(pc.BeginTx? || pc.MetadataTx? || pc.ToFinalizing? || pc.Mark? || pc.Assemble? || pc.Publish?
               || pc.Load? || pc.Reload?)
    ensures NamesIssued(issued, Act(cfg, db, files, u, pc, ch))
  {
    hide FindBlob, ContentIs, CandidateValid, CommittedMetadataOk, ActMetadataTx, ActLoad, ActBeginTx, AllReceived;
    match pc
    case LoadCandidate(_, _, _) =>
    case DropStage(_, _, _) =>
    case _ =>
  }

  lemma ActNonces(cfg: Config, db: Db, files: Files, u: Id, pc: Pc, ch: Choice, issued: set<Id>)
    requires PcOk(cfg, db, files, u, pc) && ch.uuid in issued
    requires HasReady(pc) ==> StagedIssued(issued, pc.ready.staged)
    requires u in db.uploads ==> StagedIssued(issued, db.uploads[u].staged)
    ensures NamesIssued(issued, Act(cfg, db, files, u, pc, ch))
  {
    hide PcOk, StagedIssued, NonceIssued, ActMetadataTx, ActLoad, ActBeginTx, ActToFinalizing, ActMark;
    if pc.Load? {
      LoadNonces(db, u, pc.required, issued);
    } else if pc.Reload? {
      LoadNonces(db, u, Some(pc.account), issued);
    } else if pc.Assemble? || pc.Publish? {
      FileNonces(cfg, db, files, u, pc, ch, issued);
    } else if ch.fault == Works && (pc.BeginTx? || pc.MetadataTx? || pc.ToFinalizing? || pc.Mark?) {
      RowNonces(cfg, db, files, u, pc, ch, issued);
    } else if !(pc.BeginTx? || pc.MetadataTx? || pc.ToFinalizing? || pc.Mark?) {
      ReadNonces(cfg, db, files, u, pc, ch, issued);
    }
  }

  lemma StepNonces(cfg: Config, s: Sys, u: Id, ch: Choice)
    requires Core(cfg, s) && StagesIssued(s) && u in s.calls
    ensures StagesIssued(Advance(cfg, s, u, ch))
  {
    assert PcOk(cfg, s.db, s.files, u, s.calls[u]);
    hide Core, Act, PcOk;
    var e, s' := Act(cfg, s.db, s.files, u, s.calls[u], ch), Advance(cfg, s, u, ch);
    ActNonces(cfg, s.db, s.files, u, s.calls[u], ch, s'.issued);
  }

  lemma RowsKeepNonces(cfg: Config, s: Sys, a: Action)
    requires Enabled(cfg, s, a) && StagesIssued(s)
    requires a.Enable? || a.Create? || a.Attach? || a.PutRecord? || a.Trash? || a.Delete?
    ensures StagesIssued(Apply(cfg, s, a))
  {
    hide FindBlob, CreateQuotaOk, UploadRequestOk, FindAsset, FindResource, ContentIs;
    var s' := Apply(cfg, s, a);
    forall u | u in s'.db.uploads ensures StagedIssued(s'.issued, s'.db.uploads[u].staged) {
      assert u in s.db.uploads ==> StagedIssued(s.issued, s.db.uploads[u].staged);
    }
    assert s'.files == s.files && s'.calls == s.calls && s.issued <= s'.issued;
    hide Apply, Enabled;
    IssuedMore(s, s');
  }

  lemma IssuedMore(s: Sys, s': Sys)
    requires StagesIssued(s) && s'.files == s.files && s'.calls == s.calls && s.issued <= s'.issued
    requires forall u :: u in s'.db.uploads ==> StagedIssued(s'.issued, s'.db.uploads[u].staged)
    ensures StagesIssued(s')
  {
  }

  lemma OthersNonces(cfg: Config, s: Sys, a: Action)
    requires Enabled(cfg, s, a) && !a.Step? && StagesIssued(s)
    ensures StagesIssued(Apply(cfg, s, a))
  {
    if a.Enable? || a.Create? || a.Attach? || a.PutRecord? || a.Trash? || a.Delete? {
      hide Enabled, Apply, StagesIssued;
      RowsKeepNonces(cfg, s, a);
    } else {
      hide FindBlob, CreateTx, FindAsset, FindResource, ContentIs, DeleteAsset, Received;
    }
  }

  lemma ActionNonces(cfg: Config, s: Sys, a: Action)
    requires Inv(cfg, s) && Enabled(cfg, s, a) && StagesIssued(s)
    ensures StagesIssued(Apply(cfg, s, a))
  {
    hide StagesIssued, Core;
    if a.Step? {
      StepNonces(cfg, s, a.upload, a.choice);
    } else {
      OthersNonces(cfg, s, a);
    }
  }

  lemma InitialNamesNothing(cfg: Config, s: Sys)
    requires Initial(cfg, s)
    ensures StagesIssued(s) && NothingBegun(s)
  {
  }

  /** In every run a stage is named by a UUID drawn before: the stage a new
      commit draws is not there yet. */
  lemma {:induction false} StagesAreIssued(cfg: Config, states: seq<Sys>, actions: seq<Action>, i: nat)
    requires Run(cfg, states, actions) && i < |states|
    ensures StagesIssued(states[i])
  {
    hide Initial, StagesIssued, Inv, Enabled, Apply;
    if i == 0 {
      InitialNamesNothing(cfg, states[0]);
    } else {
      StagesAreIssued(cfg, states, actions, i - 1);
      RunInv(cfg, states, actions, i - 1);
      ActionNonces(cfg, states[i - 1], actions[i - 1]);
    }
  }

  // ----- uploads that have not begun ---------------------------------------------------

  /** A receiving upload names no blob. */
  ghost predicate NothingBegun(s: Sys) {
    forall u :: u in s.db.uploads && s.db.uploads[u].commit == Receiving ==> s.db.uploads[u].blob.None?
  }

  lemma WrittenRowHasBegun(cfg: Config, db: Db, files: Files, u: Id, pc: Pc, ch: Choice)
    requires PcOk(cfg, db, files, u, pc)
    ensures var e := Act(cfg, db, files, u, pc, ch); e.row.Some? ==> e.row.value.commit != Receiving
  {
    RowWriters(cfg, db, files, u, pc, ch);
    hide FindBlob, FindResource, CommitQuotaOk, ContentIs, CandidateValid, CommittedMetadataOk, Assembled, IsContent,
      ReadyOk, StageGood, ObjectGood, ApprovedOk, CandidateRow;
    match pc
    case BeginTx(_, _) =>
    case ToFinalizing(_) =>
    case MetadataTx(_, _, _) =>
    case Mark(_) =>
    case _ =>
  }

  lemma OthersBeginNothing(cfg: Config, s: Sys, a: Action)
    requires Inv(cfg, s) && Enabled(cfg, s, a) && !a.Step? && NothingBegun(s)
    ensures NothingBegun(Apply(cfg, s, a))
  {
    hide Core, Inv;
    var s' := Apply(cfg, s, a);
    forall u | u in s'.db.uploads && s'.db.uploads[u].commit == Receiving ensures s'.db.uploads[u].blob.None? {
      if u in s.db.uploads && !(a.Create? && a.uploadId == u) {
        hide Apply, Enabled;
        OthersRows(cfg, s, a, u);
      } else {
        hide FindBlob, CreateQuotaOk, UploadRequestOk, FindAsset, FindResource, ContentIs;
      }
    }
  }

  lemma ActionBeginsNothing(cfg: Config, s: Sys, a: Action)
    requires Inv(cfg, s) && Enabled(cfg, s, a) && NothingBegun(s)
    ensures NothingBegun(Apply(cfg, s, a))
  {
    if a.Step? {
      assert PcOk(cfg, s.db, s.files, a.upload, s.calls[a.upload]);
      hide Core;
      WrittenRowHasBegun(cfg, s.db, s.files, a.upload, s.calls[a.upload], a.choice);
      hide Act, PcOk;
    } else {
      hide Apply, Enabled, Inv, NothingBegun;
      OthersBeginNothing(cfg, s, a);
    }
  }

  /** In every run an upload names a blob only once its commit has begun. */
  lemma {:induction false} ReceivingNamesNoBlob(cfg: Config, states: seq<Sys>, actions: seq<Action>, i: nat)
    requires Run(cfg, states, actions) && i < |states|
    ensures NothingBegun(states[i])
  {
    hide Initial, NothingBegun, Inv, Enabled, Apply;
    if i == 0 {
      InitialNamesNothing(cfg, states[0]);
    } else {
      ReceivingNamesNoBlob(cfg, states, actions, i - 1);
      RunInv(cfg, states, actions, i - 1);
      ActionBeginsNothing(cfg, states[i - 1], actions[i - 1]);
    }
  }

  // ----- requests ------------------------------------------------------------------------

  /** Stored requests are those the server accepts, each for its own asset. */
  ghost predicate RequestsHold(cfg: Config, s: Sys) {
    forall u :: u in s.db.uploads ==>
      var row := s.db.uploads[u];
      UploadRequestOk(row.request, cfg.maxPart)
      && row.asset in s.db.assets && s.db.assets[row.asset].source == row.request.sourceAsset
  }

  lemma StepKeepsRequests(cfg: Config, s: Sys, u: Id, ch: Choice)
    requires Inv(cfg, s) && u in s.calls && ch.uuid !in s.issued && RequestsHold(cfg, s)
    ensures RequestsHold(cfg, Advance(cfg, s, u, ch))
  {
    ActSound(cfg, s.db, s.files, u, s.calls[u], ch);
    hide Core, Act, UploadRequestOk, OwnOk;
  }

  lemma UpsertKeepsSources(db: Db, account: Id, device: Id, source: string, uuid: Id)
    requires uuid !in db.assets
    ensures var (db', asset) := UpsertAsset(db, account, device, source, uuid);
      && db' == db.(assets := db'.assets) && asset in db'.assets && db'.assets[asset].source == source
      && forall a :: a in db.assets ==> a in db'.assets && db'.assets[a].source == db.assets[a].source
  {
  }

  lemma CreateKeepsRequests(cfg: Config, s: Sys, a: Action)
    requires Inv(cfg, s) && Enabled(cfg, s, a) && a.Create? && RequestsHold(cfg, s)
    ensures RequestsHold(cfg, Apply(cfg, s, a))
  {
    assert a.assetId !in s.db.assets;
    hide Inv, Enabled;
    CreationAdds(cfg, s.db, a.account, a.device, a.request, a.assetId, a.uploadId);
    hide CreateTx, UploadRequestOk;
  }

  /** A creation adds at most one row, of a request that passed the check. */
  lemma CreationAdds(cfg: Config, db: Db, account: Id, device: Id, request: Request, assetId: Id, uploadId: Id)
    requires assetId !in db.assets
    ensures var db' := CreateTx(cfg, db, account, device, request, assetId, uploadId);
      && (forall a :: a in db.assets ==> a in db'.assets && db'.assets[a].source == db.assets[a].source)
      && (db'.uploads == db.uploads
          || (UploadRequestOk(request, cfg.maxPart) && uploadId in db'.uploads
              && db'.uploads == db.uploads[uploadId := db'.uploads[uploadId]]
              && var row := db'.uploads[uploadId];
                 row.request == request && row.asset in db'.assets
                 && db'.assets[row.asset].source == request.sourceAsset))
  {
    hide UploadRequestOk, CreateQuotaOk, FindBlob, IsActive, SameTarget, UpsertAsset;
    UpsertKeepsSources(db, account, device, request.sourceAsset, assetId);
  }

  lemma OthersKeepRequests(cfg: Config, s: Sys, a: Action)
    requires Enabled(cfg, s, a) && !a.Step? && !a.Create? && RequestsHold(cfg, s)
    ensures RequestsHold(cfg, Apply(cfg, s, a))
  {
    hide FindResource, UploadRequestOk, ContentIs;
  }

  /** In every run each stored request passes the server's check, and names the
      source of its asset. */
  lemma {:induction false} RequestsStaySound(cfg: Config, states: seq<Sys>, actions: seq<Action>, i: nat)
    requires Run(cfg, states, actions) && i < |states|
    ensures RequestsHold(cfg, states[i])
  {
    if i > 0 {
      RequestsStaySound(cfg, states, actions, i - 1);
      RunInv(cfg, states, actions, i - 1);
      var s, a := states[i - 1], actions[i - 1];
      hide Inv, RequestsHold, Enabled, Apply;
      if a.Step? {
        StepKeeps(cfg, s, a);
      } else if a.Create? {
        CreateKeepsRequests(cfg, s, a);
      } else {
        OthersKeepRequests(cfg, s, a);
      }
    }
  }

  lemma StepKeeps(cfg: Config, s: Sys, a: Action)
    requires Inv(cfg, s) && Enabled(cfg, s, a) && a.Step? && RequestsHold(cfg, s)
    ensures RequestsHold(cfg, Apply(cfg, s, a))
  {
    hide Core, RequestsHold;
    StepKeepsRequests(cfg, s, a.upload, a.choice);
  }

  // ----- the commit state machine --------------------------------------------------------

  function Rank(commit: Commit): nat {
    match commit
    case Receiving => 0
    case Started => 1
    case Finalizing => 2
    case _ => 3
  }

  predicate Terminal(commit: Commit) {
    Rank(commit) == 3
  }

  /** `row` may become `row'` in any number of steps. */
  ghost predicate Later(row: Upload, row': Upload) {
    && row'.account == row.account && row'.device == row.device && row'.asset == row.asset
    && row'.request == row.request && |row'.parts| == |row.parts|
    && (forall k :: 0 <= k < |row.parts| && row.parts[k].received ==> row'.parts[k].received)
    && Rank(row.commit) <= Rank(row'.commit)
    && (row.commit == Unknown || row.commit == Failed ==> row'.commit == row.commit)
    && (row.commit == Committed ==> row'.commit == Committed || row'.commit == Unknown)
    && (Terminal(row.commit) ==>
          row'.resource == row.resource && row'.deduplicated == row.deduplicated
          && row'.blob == row.blob && row'.final == row.final)
  }

  lemma LaterTransitive(a: Upload, b: Upload, c: Upload)
    requires Later(a, b) && Later(b, c)
    ensures Later(a, c)
  {
  }

  lemma ActLater(cfg: Config, db: Db, files: Files, u: Id, pc: Pc, ch: Choice)
    requires u in db.uploads && PcOk(cfg, db, files, u, pc)
    ensures var e := Act(cfg, db, files, u, pc, ch); e.row.Some? ==> Later(db.uploads[u], e.row.value)
  {
    RowWriters(cfg, db, files, u, pc, ch);
    hide FindBlob, FindResource, CommitQuotaOk, ContentIs, CandidateValid, CommittedMetadataOk, Assembled, IsContent,
      ReadyOk, StageGood, ObjectGood, ApprovedOk, CandidateRow;
    match pc
    case BeginTx(_, _) =>
    case ToFinalizing(_) =>
    case MetadataTx(_, _, _) =>
    case Mark(_) =>
    case _ =>
  }

  lemma ActionLater(cfg: Config, s: Sys, a: Action, u: Id)
    requires Inv(cfg, s) && Enabled(cfg, s, a) && u in s.db.uploads
    requires u in Apply(cfg, s, a).db.uploads
    ensures Later(s.db.uploads[u], Apply(cfg, s, a).db.uploads[u])
  {
    if a.Step? && a.upload == u {
      ActLater(cfg, s.db, s.files, u, s.calls[u], a.choice);
    } else {
      OthersRows(cfg, s, a, u);
    }
  }

  lemma OthersRows(cfg: Config, s: Sys, a: Action, u: Id)
    requires Enabled(cfg, s, a) && !(a.Step? && a.upload == u) && u in s.db.uploads
    requires u in Apply(cfg, s, a).db.uploads && (a.Create? ==> a.uploadId != u)
    ensures Apply(cfg, s, a).db.uploads[u] == s.db.uploads[u]
         || (a.PutRecord? && exists index :: Apply(cfg, s, a).db.uploads[u] == Received(s.db.uploads[u], index))
  {
  }

  /** An upload id is never used again once its row is gone. */
  lemma NoRebirth(cfg: Config, s: Sys, a: Action, u: Id)
    requires Inv(cfg, s) && Enabled(cfg, s, a) && u in s.issued && u !in s.db.uploads
    ensures u in Apply(cfg, s, a).issued && u !in Apply(cfg, s, a).db.uploads
  {
    if a.Step? {
      ActSound(cfg, s.db, s.files, a.upload, s.calls[a.upload], a.choice);
      hide Act, Core;
    } else {
      hide Core;
      OthersAddNoUpload(cfg, s, a, u);
    }
  }

  lemma OthersAddNoUpload(cfg: Config, s: Sys, a: Action, u: Id)
    requires Enabled(cfg, s, a) && !a.Step? && u in s.issued && u !in s.db.uploads
    ensures u in Apply(cfg, s, a).issued && u !in Apply(cfg, s, a).db.uploads
  {
    hide FindBlob, CreateQuotaOk, UploadRequestOk, FindAsset, FindResource;
  }

  lemma {:induction false} GoneStaysGone(cfg: Config, states: seq<Sys>, actions: seq<Action>, i: nat, j: nat, u: Id)
    requires Run(cfg, states, actions) && i <= j < |states|
    requires u in states[i].issued && u !in states[i].db.uploads
    ensures u !in states[j].db.uploads
    decreases j - i
  {
    if i < j {
      RunInv(cfg, states, actions, i);
      NoRebirth(cfg, states[i], actions[i], u);
      GoneStaysGone(cfg, states, actions, i + 1, j, u);
    }
  }

  lemma IssuedGrows(cfg: Config, s: Sys, a: Action)
    requires Enabled(cfg, s, a)
    ensures s.issued <= Apply(cfg, s, a).issued
  {
  }

  lemma UploadIssued(cfg: Config, s: Sys, u: Id)
    requires Inv(cfg, s) && u in s.db.uploads
    ensures u in s.issued
  {
  }

  lemma StillThere(cfg: Config, states: seq<Sys>, actions: seq<Action>, i: nat, j: nat, u: Id)
    requires Run(cfg, states, actions) && i <= j < |states| && i > 0
    requires u in states[i - 1].db.uploads && u in states[j].db.uploads
    ensures u in states[i].db.uploads
  {
    hide Inv, Apply, Enabled, Initial;
    RunInv(cfg, states, actions, i - 1);
    UploadIssued(cfg, states[i - 1], u);
    IssuedGrows(cfg, states[i - 1], actions[i - 1]);
    if u !in states[i].db.uploads {
      GoneStaysGone(cfg, states, actions, i, j, u);
    }
  }

  /** Along every run an upload only moves forward, `unknown` and `failed` are
      final, and the outcome of a terminal upload never changes. */
  lemma {:induction false} UploadsMoveForward(cfg: Config, states: seq<Sys>, actions: seq<Action>, i: nat, j: nat,
                                              u: Id)
    requires Run(cfg, states, actions) && i <= j < |states|
    requires u in states[i].db.uploads && u in states[j].db.uploads
    ensures Later(states[i].db.uploads[u], states[j].db.uploads[u])
    decreases j - i
  {
    if i < j {
      hide Inv, Apply, Enabled, Initial, Later;
      StillThere(cfg, states, actions, i + 1, j, u);
      RunInv(cfg, states, actions, i);
      ActionLater(cfg, states[i], actions[i], u);
      UploadsMoveForward(cfg, states, actions, i + 1, j, u);
      LaterTransitive(states[i].db.uploads[u], states[i + 1].db.uploads[u], states[j].db.uploads[u]);
    }
  }

  // ----- uploads of the same content -------------------------------------------------------

  /** However many uploads of one content race in one account, there is one blob
      row, every committed one names it, and one at most was not deduplicated. */
  lemma SameContentSharesOneBlob(cfg: Config, states: seq<Sys>, actions: seq<Action>, i: nat, u: Id, v: Id)
    requires Run(cfg, states, actions) && i < |states|
    requires u in states[i].db.uploads && v in states[i].db.uploads && u != v
    requires var s := states[i];
             s.db.uploads[u].commit == Committed && s.db.uploads[v].commit == Committed
             && s.db.uploads[u].account == s.db.uploads[v].account
             && s.db.uploads[u].request.blake3 == s.db.uploads[v].request.blake3
    ensures var s := states[i];
            s.db.uploads[u].blob == s.db.uploads[v].blob
            && (s.db.uploads[u].deduplicated || s.db.uploads[v].deduplicated)
  {
    RunInv(cfg, states, actions, i);
    var s := states[i];
    assert RowOk(cfg, s.db, s.files, u) && RowOk(cfg, s.db, s.files, v);
  }

  /** The metadata transaction is tried at most twice, of the three tries that
      the loop allows: the row met in the first try is still there in the second. */
  lemma TwoTriesSuffice(cfg: Config, states: seq<Sys>, actions: seq<Action>, i: nat, u: Id)
    requires Run(cfg, states, actions) && i < |states|
    requires u in states[i].calls && u in states[i].db.uploads
    ensures var pc := states[i].calls[u];
      && (pc.LoadCandidate? || pc.CheckCandidate? || pc.MetadataTx? || pc.CheckActual? ==> pc.attempt + 1 < TRIES)
      && (pc.MetadataTx? && pc.attempt == 1 ==>
            forall uuid :: !ActMetadataTx(states[i].db, u, pc.ready, pc.attempt, pc.approved, uuid).pc.CheckActual?)
  {
    RunInv(cfg, states, actions, i);
    var s, pc := states[i], states[i].calls[u];
    assert PcOk(cfg, s.db, s.files, u, pc);
    if pc.MetadataTx? && pc.attempt == 1 {
      var existing := FindBlob(s.db, pc.ready.account, pc.ready.request.blake3);
      assert IsContent(s.db, pc.approved.value.id, pc.ready.account, pc.ready.request.blake3);
    }
  }
}
