/** What the doctor's checks are worth for rows and files of any origin: no run
    is behind the state here, and each check is compared with what the server
    itself makes of the same rows and files. */
module Diagnosis {
  import opened Types
  import opened CommitModel
  import opened CommitRuns
  import opened Solo
  import opened Outcomes
  import opened Doctor
  import StorageKeys

  /** Where names and parts keep to the server's limits, which the doctor does
      not know, it accepts a stored request exactly when the server would and
      its digests are in lower case, for the asset it names. */
  lemma RequestSoundIff(db: Db, row: Upload, maxPart: nat)
    requires NamesFit(row.request)
    requires forall i :: 0 <= i < |row.request.parts| ==> row.request.parts[i].size <= maxPart
    ensures RequestSound(db, row) <==>
      UploadRequestOk(row.request, maxPart) && LowerDigests(row.request)
      && row.asset in db.assets && db.assets[row.asset].source == row.request.sourceAsset
  {
    var request := row.request;
    ValidBlake3Lower(request.blake3);
    forall i | 0 <= i < |request.parts|
      ensures PartSound(request, i) <==>
        request.parts[i].index == i && !(request.parts[i].size == 0 && request.size != 0)
        && IsBlake3(request.parts[i].blake3) && Lower(request.parts[i].blake3) == request.parts[i].blake3
    {
      ValidBlake3Lower(request.parts[i].blake3);
    }
    hide ValidBlake3, IsBlake3, Lower, PartSound;
  }

  /** The doctor accepts a blob exactly when a completion of that content would
      share it, and its digest is in lower case. */
  lemma BlobSoundIsShareable(cfg: Config, db: Db, files: Files, b: Id, ready: Ready)
    requires b in db.blobs && db.blobs[b].account in db.accounts
    requires ready.path == db.accounts[db.blobs[b].account].path
    requires ready.request.size == db.blobs[b].size && ready.request.blake3 == db.blobs[b].blake3
    ensures BlobSound(cfg, db, files, b) <==>
      IsBlake3(db.blobs[b].blake3) && Lower(db.blobs[b].blake3) == db.blobs[b].blake3
      && CandidateValid(cfg, files, ready, CandidateOf(b, db.blobs[b]))
  {
    ValidBlake3Lower(db.blobs[b].blake3);
    hide ValidBlake3, IsBlake3, Lower;
  }

  /** What the row recorded when its commit began is what its request says. The
      doctor does not compare the two. */
  ghost predicate RecordsRequest(db: Db, row: Upload) {
    row.account in db.accounts && row.size == Some(row.request.size) && row.blake3 == Some(row.request.blake3)
  }

  /** The stage of the row, if any, is its own. The doctor does not ask this of a
      completed upload. */
  ghost predicate OwnStage(db: Db, u: Id, row: Upload)
    requires row.account in db.accounts
  {
    row.staged.Some? ==> IsStageOf(db.accounts[row.account].path, u, row.staged.value)
  }

  /** The object of a committed upload is there, in its account's directory. */
  ghost predicate ObjectThere(cfg: Config, db: Db, files: Files, row: Upload)
    requires row.account in db.accounts
  {
    row.final.Some? && InScope(db.accounts[row.account].path, row.final.value)
    && InspectFile(cfg, files, row.final.value, row.request.size, row.request.blake3) == Matches
  }

  /** The doctor asks of a completed upload what `validate_committed` asks. */
  lemma CommittedSoundIff(db: Db, row: Upload)
    requires row.account in db.accounts && row.done
    requires row.size == Some(row.request.size) && row.blake3 == Some(row.request.blake3)
    ensures var ready := ReadyCommit(row, db.accounts[row.account].path);
      CommittedSound(db, row) <==>
        ready.Some? && row.resource.Some? && CommittedMetadataOk(db, ready.value, row.resource.value)
  {
  }

  /** The call is answered with this outcome and no row changes, or else the
      upload becomes unknown. */
  ghost predicate Settles(cfg: Config, w: World, s: Sys, u: Id, k: nat, outcome: Option<Outcome>)
    requires u in s.calls
  {
    var s' := Drive(cfg, w, s, u, k).0;
    if outcome.Some? then s'.db == s.db && s'.calls[u] == Returned(Ok(outcome.value))
    else
      u in s.db.uploads && s'.db == s.db.(uploads := s.db.uploads[u := s.db.uploads[u].(commit := Unknown)])
      && s'.calls[u] == Returned(Err(Conflict))
  }

  lemma UnknownSettles(cfg: Config, w: World, s: Sys, u: Id, k: nat)
    requires Faultless(w) && u in s.db.uploads && s.db.uploads[u].commit != Unknown
    requires u in s.calls && s.calls[u] == Mark(Unknown)
    ensures Settles(cfg, w, s, u, k, None)
  {
    hide Drive;
    var s1, e1 := NextStep(cfg, w, s, u, k);
    DriveReturned(cfg, w, s1, u, k + 1);
  }

  /** The object of this snapshot is there, in its account's directory. */
  ghost predicate FinalThere(cfg: Config, files: Files, ready: Ready) {
    InScope(ready.path, ready.final)
    && InspectFile(cfg, files, ready.final, ready.request.size, ready.request.blake3) == Matches
  }

  lemma ObjectSettles(cfg: Config, w: World, s: Sys, u: Id, k: nat)
    requires Faultless(w) && u in s.db.uploads && s.db.uploads[u].commit != Unknown
    requires u in s.calls && s.calls[u].CheckObject?
    requires var ready := s.calls[u].ready; ready.staged.Some? ==> IsStageOf(ready.path, u, ready.staged.value)
    ensures Settles(cfg, w, s, u, k,
                    if FinalThere(cfg, s.files, s.calls[u].ready) then Some(s.calls[u].outcome) else None)
  {
    hide Drive, InspectFile;
    var s1, e1 := NextStep(cfg, w, s, u, k);
    if s1.calls[u] == Mark(Unknown) {
      UnknownSettles(cfg, w, s1, u, k + 1);
    } else if s1.calls[u].DropStage? {
      var s2, e2 := NextStep(cfg, w, s1, u, k + 1);
      DriveReturned(cfg, w, s2, u, k + 2);
    } else {
      DriveReturned(cfg, w, s1, u, k + 1);
    }
  }

  lemma RowsSettle(cfg: Config, w: World, s: Sys, u: Id, k: nat)
    requires Faultless(w) && u in s.db.uploads && s.db.uploads[u].commit != Unknown
    requires u in s.calls && s.calls[u].CheckMetadata?
    requires var ready := s.calls[u].ready; ready.staged.Some? ==> IsStageOf(ready.path, u, ready.staged.value)
    ensures var pc := s.calls[u];
      var found := CommittedMetadataOk(s.db, pc.ready, pc.resource) && FinalThere(cfg, s.files, pc.ready);
      Settles(cfg, w, s, u, k,
              if found then Some(Outcome(pc.resource, pc.ready.asset, pc.deduplicated)) else None)
  {
    hide Drive, CommittedMetadataOk, Settles, FinalThere;
    var pc := s.calls[u];
    var s1, e1 := NextStep(cfg, w, s, u, k);
    if CommittedMetadataOk(s.db, pc.ready, pc.resource) {
      ObjectSettles(cfg, w, s1, u, k + 1);
    } else {
      UnknownSettles(cfg, w, s1, u, k + 1);
    }
    var found := CommittedMetadataOk(s.db, pc.ready, pc.resource) && FinalThere(cfg, s.files, pc.ready);
    SettlesSooner(cfg, w, s, k, s1, k + 1, u,
                  if found then Some(Outcome(pc.resource, pc.ready.asset, pc.deduplicated)) else None);
  }

  /** A completed upload is answered with its outcome, and kept, exactly when the
      doctor accepts its rows and its object is there; otherwise it becomes
      unknown. */
  lemma CommitAnswersIff(cfg: Config, w: World, s: Sys, u: Id, k: nat)
    requires Faultless(w) && u in s.db.uploads && s.db.uploads[u].commit == Committed && s.db.uploads[u].done
    requires RecordsRequest(s.db, s.db.uploads[u]) && OwnStage(s.db, u, s.db.uploads[u])
    ensures var row := s.db.uploads[u];
      CommittedSound(s.db, row) ==> row.resource.Some?
    ensures var row := s.db.uploads[u];
      Settles(cfg, w, Called(s, u, None), u, k,
              if CommittedSound(s.db, row) && ObjectThere(cfg, s.db, s.files, row) then Some(OutcomeOf(row)) else None)
  {
    var row := s.db.uploads[u];
    var ready := ReadyCommit(row, s.db.accounts[row.account].path);
    CommittedSoundIff(s.db, row);
    hide Drive, InspectFile, CommittedSound, CommittedMetadataOk, Settles, ReadyCommit;
    var s0 := Called(s, u, None);
    var s1, e1 := NextStep(cfg, w, s0, u, k);
    if ready.None? || row.resource.None? {
      UnknownSettles(cfg, w, s1, u, k + 1);
      SettlesSooner(cfg, w, s0, k, s1, k + 1, u, None);
    } else {
      RowsSettle(cfg, w, s1, u, k + 1);
      ReadySays(row, s.db.accounts[row.account].path);
      SettlesSooner(cfg, w, s0, k, s1, k + 1, u,
        if CommittedSound(s.db, row) && ObjectThere(cfg, s.db, s.files, row) then Some(OutcomeOf(row)) else None);
    }
  }

  lemma ReadySays(row: Upload, path: string)
    requires ReadyCommit(row, path).Some?
    ensures var ready := ReadyCommit(row, path).value;
      row.final == Some(ready.final) && ready.path == path && ready.request == row.request && ready.asset == row.asset
      && ready.staged == row.staged
  {
  }

  lemma SettlesSooner(cfg: Config, w: World, s: Sys, k: nat, s': Sys, k': nat, u: Id, outcome: Option<Outcome>)
    requires u in s.calls && u in s'.calls && s'.db == s.db && Drive(cfg, w, s, u, k) == Drive(cfg, w, s', u, k')
    ensures Settles(cfg, w, s, u, k, outcome) <==> Settles(cfg, w, s', u, k', outcome)
  {
    hide Drive;
  }

  /** So what the doctor accepted as completed stays completed. */
  lemma AcceptedCommitAnswers(cfg: Config, w: World, s: Sys, u: Id, k: nat)
    requires Faultless(w) && u in s.db.uploads && s.db.uploads[u].commit == Committed
    requires RecordsRequest(s.db, s.db.uploads[u]) && OwnStage(s.db, u, s.db.uploads[u]) && Healthy(cfg, s.db, s.files)
    ensures s.db.uploads[u].resource.Some?
    ensures var s' := Complete(cfg, w, s, u, k).0;
      s'.db == s.db && s'.calls[u] == Returned(Ok(OutcomeOf(s.db.uploads[u])))
  {
    var row := s.db.uploads[u];
    assert CommittedSound(s.db, row) && BlobSound(cfg, s.db, s.files, row.blob.value);
    hide Healthy;
    CommitAnswersIff(cfg, w, s, u, k);
  }

  /** The call comes, changing no row, to `s'`. */
  ghost predicate Leads(cfg: Config, w: World, s: Sys, u: Id, k: nat, s': Sys, k': nat) {
    u in s.calls && u in s'.calls && Drive(cfg, w, s, u, k) == Drive(cfg, w, s', u, k') && s'.db == s.db
  }

  lemma ReadyOfSound(cfg: Config, db: Db, files: Files, u: Id, row: Upload)
    requires ActiveSound(cfg, db, files, u, row) && RecordsRequest(db, row)
    ensures ReadyCommit(row, db.accounts[row.account].path).Some?
  {
  }

  lemma ActiveLoads(cfg: Config, w: World, s: Sys, u: Id, k: nat) returns (s': Sys)
    requires Faultless(w) && u in s.db.uploads && s.db.uploads[u].commit in {Started, Finalizing}
    requires ActiveSound(cfg, s.db, s.files, u, s.db.uploads[u]) && RecordsRequest(s.db, s.db.uploads[u])
    ensures Leads(cfg, w, Called(s, u, None), u, k, s', k + 1) && s'.files == s.files && u in s'.calls
    ensures var row := s.db.uploads[u];
      var ready := ReadyCommit(row, s.db.accounts[row.account].path);
      ready.Some?
      && s'.calls[u] == if row.commit == Started then InspectStarted(ready.value) else InspectFinal(ready.value)
  {
    ReadyOfSound(cfg, s.db, s.files, u, s.db.uploads[u]);
    hide Drive, ActiveSound, ReadyCommit;
    var e;
    s', e := NextStep(cfg, w, Called(s, u, None), u, k);
  }

  /** An unfinished commit the doctor accepted is taken up where it stood: one
      that had started goes on from its object or from its parts, ... */
  lemma AcceptedStartGoesOn(cfg: Config, w: World, s: Sys, u: Id, k: nat) returns (s': Sys)
    requires Faultless(w) && u in s.db.uploads && s.db.uploads[u].commit == Started
    requires ActiveSound(cfg, s.db, s.files, u, s.db.uploads[u]) && RecordsRequest(s.db, s.db.uploads[u])
    ensures Leads(cfg, w, Called(s, u, None), u, k, s', k + 2) && s'.files == s.files
    ensures var row := s.db.uploads[u];
      var ready := ReadyCommit(row, s.db.accounts[row.account].path);
      ready.Some? && row.final.Some? && row.staged.Some? && OwnStage(s.db, u, row)
      && s'.calls[u] == if row.final.value in s.files then ToFinalizing(ready.value) else Assemble(ready.value)
  {
    var s1 := ActiveLoads(cfg, w, s, u, k);
    hide Drive, ContentIs;
    var e;
    s', e := NextStep(cfg, w, s1, u, k + 1);
  }

  /** ... and one that was being finalized gets its object in place, replacing no
      file, and goes on to its rows. */
  lemma AcceptedFinishGoesOn(cfg: Config, w: World, s: Sys, u: Id, k: nat) returns (s': Sys, k': nat)
    requires Faultless(w) && u in s.db.uploads && s.db.uploads[u].commit == Finalizing
    requires ActiveSound(cfg, s.db, s.files, u, s.db.uploads[u]) && RecordsRequest(s.db, s.db.uploads[u])
    ensures Leads(cfg, w, Called(s, u, None), u, k, s', k')
    ensures var row := s.db.uploads[u];
      var ready := ReadyCommit(row, s.db.accounts[row.account].path);
      ready.Some? && s'.calls[u] == LoadCandidate(ready.value, 0, None)
      && ObjectThere(cfg, s.db, s'.files, row) && Placed(s.files, s'.files, row.final.value)
  {
    var row := s.db.uploads[u];
    var s1 := ActiveLoads(cfg, w, s, u, k);
    SoundFiles(cfg, s.db, s.files, u, row);
    hide Drive, ActiveSound, RecordsRequest, InspectFile, Leads, StageHolds, ReadyCommit, Placed, FinalThere,
      ObjectThere;
    if row.final.value in s.files {
      s' := ObjectIsFound(cfg, w, s1, u, k + 1);
      k' := k + 2;
    } else {
      s' := StageIsPublished(cfg, w, s1, u, k + 1);
      k' := k + 4;
    }
    LeadsOn(cfg, w, Called(s, u, None), k, s1, k + 1, s', k', u);
  }

  lemma LeadsOn(cfg: Config, w: World, a: Sys, k: nat, b: Sys, l: nat, c: Sys, m: nat, u: Id)
    requires Leads(cfg, w, a, u, k, b, l) && Leads(cfg, w, b, u, l, c, m)
    ensures Leads(cfg, w, a, u, k, c, m)
  {
    hide Drive;
  }

  lemma ObjectIsFound(cfg: Config, w: World, s: Sys, u: Id, k: nat) returns (s': Sys)
    requires Faultless(w) && u in s.calls && s.calls[u].InspectFinal? && FinalThere(cfg, s.files, s.calls[u].ready)
    ensures Leads(cfg, w, s, u, k, s', k + 1) && u in s'.calls
    ensures s'.calls[u] == LoadCandidate(s.calls[u].ready, 0, None)
    ensures FinalThere(cfg, s'.files, s.calls[u].ready) && Placed(s.files, s'.files, s.calls[u].ready.final)
  {
    hide Drive, ContentIs;
    var e;
    s', e := NextStep(cfg, w, s, u, k);
  }

  /** What the doctor found of the files of a commit being finalized. */
  lemma SoundFiles(cfg: Config, db: Db, files: Files, u: Id, row: Upload)
    requires row.commit == Finalizing && ActiveSound(cfg, db, files, u, row) && RecordsRequest(db, row)
    ensures ReadyCommit(row, db.accounts[row.account].path).Some?
    ensures var ready := ReadyCommit(row, db.accounts[row.account].path).value;
      row.final == Some(ready.final) && ready.request == row.request && ready.path == db.accounts[row.account].path
      && InScope(ready.path, ready.final)
      && if ready.final in files then FinalThere(cfg, files, ready) else StageHolds(cfg, files, u, ready)
    ensures var ready := ReadyCommit(row, db.accounts[row.account].path).value;
      forall files' :: FinalThere(cfg, files', ready) ==> ObjectThere(cfg, db, files', row)
  {
  }

  /** At most this file is new; none has changed. */
  ghost predicate Placed(files: Files, files': Files, key: Key) {
    key in files' && files' == if key in files then files else files[key := files'[key]]
  }

  ghost predicate StageHolds(cfg: Config, files: Files, u: Id, ready: Ready) {
    ready.staged.Some? && IsStageOf(ready.path, u, ready.staged.value)
    && InspectFile(cfg, files, ready.staged.value, ready.request.size, ready.request.blake3) == Matches
  }

  lemma StageIsPublished(cfg: Config, w: World, s: Sys, u: Id, k: nat) returns (s': Sys)
    requires Faultless(w) && u in s.calls && s.calls[u].InspectFinal? && StageHolds(cfg, s.files, u, s.calls[u].ready)
    requires InScope(s.calls[u].ready.path, s.calls[u].ready.final) && s.calls[u].ready.final !in s.files
    ensures Leads(cfg, w, s, u, k, s', k + 3) && u in s'.calls
    ensures var ready := s.calls[u].ready;
      s'.calls[u] == LoadCandidate(ready, 0, None)
      && FinalThere(cfg, s'.files, ready) && Placed(s.files, s'.files, ready.final)
  {
    hide Drive, ContentIs;
    var s1, e1 := NextStep(cfg, w, s, u, k);
    var s2, e2 := NextStep(cfg, w, s1, u, k + 1);
    var e3;
    s', e3 := NextStep(cfg, w, s2, u, k + 2);
  }

  /** Accepted account directories keep accounts apart: no key lies in the scope
      of two different ones. */
  lemma AcceptedPathsShareNothing(db: Db, a: Id, b: Id, key: string)
    requires PathsSound(db) && a in db.accounts && b in db.accounts && db.accounts[a].path != db.accounts[b].path
    ensures StorageKeys.ScopedBlobKey(db.accounts[a].path, key) ==>
      !StorageKeys.ScopedBlobKey(db.accounts[b].path, key)
    ensures StorageKeys.Split(db.accounts[a].path)[0] != "uploads"
  {
    if StorageKeys.ScopedBlobKey(db.accounts[a].path, key) && StorageKeys.ScopedBlobKey(db.accounts[b].path, key) {
      StorageKeys.BlobKeyHasOneOwner(db.accounts[a].path, db.accounts[b].path, key);
    }
  }
}
