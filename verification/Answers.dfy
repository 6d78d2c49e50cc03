/** What a success of `complete_inner` is worth when nothing else is known: for
    rows and files altered in any way, and whatever fails, a completion that
    answers with success has just seen the object it vouches for. */
module Answers {
  import opened Types
  import opened CommitModel
  import opened CommitInvariant
  import opened CommitSafety
  import opened Solo

  /** The upload's row and the blob rows name objects as final keys; nothing is
      said of the objects. */
  ghost predicate FinalsAreObjects(db: Db, u: Id) {
    (u in db.uploads && Live(db.uploads[u].commit) && db.uploads[u].final.Some? ==>
       db.uploads[u].final.value.ObjectFile?)
    && forall b :: b in db.blobs ==> db.blobs[b].key.ObjectFile?
  }

  ghost predicate Present(cfg: Config, files: Files, key: Key, request: Request) {
    key.ObjectFile? && InspectFile(cfg, files, key, request.size, request.blake3) == Matches
  }

  /** The rows a committed upload names are its own, and describe its content. */
  ghost predicate RowsAgree(db: Db, row: Upload) {
    row.resource.Some? && row.resource.value in db.resources && row.blob.Some? && row.blob.value in db.blobs
    && var resource, blob := db.resources[row.resource.value], db.blobs[row.blob.value];
       resource.asset == row.asset && Some(resource.blob) == row.blob
       && blob.account == row.account && Some(blob.key) == row.final
       && blob.size == row.request.size && blob.blake3 == row.request.blake3
  }

  /** The upload is committed with this outcome, its rows and what it recorded
      agree, and its object is there. */
  ghost predicate Vouched(cfg: Config, db: Db, files: Files, u: Id, outcome: Outcome) {
    u in db.uploads
    && var row := db.uploads[u];
       row.commit == Committed && row.resource.Some? && OutcomeOf(row) == outcome && RowsAgree(db, row)
       && RecordHolds(db, row) && row.final.Some? && Present(cfg, files, row.final.value, row.request)
  }

  /** What was recorded of the content at the start is still the request's, and
      the path is still the account's. */
  ghost predicate RecordHolds(db: Db, row: Upload) {
    row.size == Some(row.request.size) && row.blake3 == Some(row.request.blake3)
    && row.account in db.accounts && row.path == Some(db.accounts[row.account].path)
  }

  /** The snapshot is still the row's own request, bound for an object. */
  ghost predicate SameReady(db: Db, u: Id, ready: Ready) {
    ready.final.ObjectFile? && (u in db.uploads ==>
      db.uploads[u].request == ready.request && db.uploads[u].asset == ready.asset
      && db.uploads[u].account == ready.account && db.uploads[u].path == Some(ready.path)
      && RecordHolds(db, db.uploads[u]))
  }

  /** The account's row of this content, as it is now. */
  ghost function Found(db: Db, ready: Ready): Option<Candidate> {
    var found := FindBlob(db, ready.account, ready.request.blake3);
    if found.Some? then Some(CandidateOf(found.value, db.blobs[found.value])) else None
  }

  /** What a completion has seen so far. */
  ghost predicate Seen(cfg: Config, db: Db, files: Files, u: Id, pc: Pc) {
    match pc
    case InspectStarted(ready) => SameReady(db, u, ready)
    case Assemble(ready) => SameReady(db, u, ready)
    case ToFinalizing(ready) => SameReady(db, u, ready)
    case InspectFinal(ready) => SameReady(db, u, ready)
    case InspectStage(ready) => SameReady(db, u, ready)
    case Publish(ready) => SameReady(db, u, ready)
    case LoadCandidate(ready, _, approved) =>
      SameReady(db, u, ready) && Present(cfg, files, ready.final, ready.request)
      && (approved.Some? && approved.value.key.ObjectFile? ==> Present(cfg, files, approved.value.key, ready.request))
    case CheckCandidate(ready, _, c) =>
      SameReady(db, u, ready) && Present(cfg, files, ready.final, ready.request) && Found(db, ready) == Some(c)
    case MetadataTx(ready, _, approved) =>
      SameReady(db, u, ready) && Present(cfg, files, ready.final, ready.request)
      && (Found(db, ready).Some? ==> approved == Found(db, ready) && approved.value.size == ready.request.size)
      && (approved.Some? && approved.value.key.ObjectFile? ==> Present(cfg, files, approved.value.key, ready.request))
    case CheckActual(_, _, _) => false
    case CheckMetadata(ready, resource, deduplicated) =>
      SameReady(db, u, ready)
      && (u in db.uploads && db.uploads[u].commit == Committed && db.uploads[u].final == Some(ready.final)
          && db.uploads[u].resource == Some(resource) && db.uploads[u].deduplicated == deduplicated
          && db.uploads[u].blob == Some(ready.blob))
    case CheckObject(ready, outcome) =>
      SameReady(db, u, ready)
      && (u in db.uploads && db.uploads[u].commit == Committed && db.uploads[u].final == Some(ready.final)
          && db.uploads[u].resource.Some? && OutcomeOf(db.uploads[u]) == outcome && RowsAgree(db, db.uploads[u])
          && RecordHolds(db, db.uploads[u]))
    case Mark(target) => !Live(target)
    case DropStage(_, outcome, _) => Vouched(cfg, db, files, u, outcome)
    case Returned(result) => result.Ok? ==> Vouched(cfg, db, files, u, result.value)
    case _ => true
  }

  lemma LoadSees(cfg: Config, db: Db, files: Files, u: Id, required: Option<Id>)
    requires FinalsAreObjects(db, u)
    ensures Seen(cfg, db, files, u, ActLoad(db, u, required).pc)
    ensures ActLoad(db, u, required) == Goto(ActLoad(db, u, required).pc)
  {
  }

  lemma MetadataSees(cfg: Config, db: Db, files: Files, u: Id, pc: Pc, uuid: Id)
    requires pc.MetadataTx? && Seen(cfg, db, files, u, pc) && FinalsAreObjects(db, u)
    ensures var e := ActMetadataTx(db, u, pc.ready, pc.attempt, pc.approved, uuid);
      Seen(cfg, ApplyDb(db, u, e), files, u, e.pc) && FinalsAreObjects(ApplyDb(db, u, e), u)
      && e.write.None? && e.remove.None?
  {
    hide InspectFile;
  }

  lemma OpeningSees(cfg: Config, db: Db, files: Files, u: Id, pc: Pc, ch: Choice)
    requires pc.BeginCheck? || pc.BeginTx?
    requires Seen(cfg, db, files, u, pc) && FinalsAreObjects(db, u)
    ensures var e := Act(cfg, db, files, u, pc, ch);
      Seen(cfg, ApplyDb(db, u, e), ApplyFiles(files, e), u, e.pc) && FinalsAreObjects(ApplyDb(db, u, e), u)
  {
    hide ContentIs, FindBlob, CommitQuotaOk, Assembled, ActMetadataTx, ActLoad, InspectFile;
  }

  lemma StartedSees(cfg: Config, db: Db, files: Files, u: Id, pc: Pc, ch: Choice)
    requires pc.InspectStarted? || pc.Assemble? || pc.ToFinalizing?
    requires Seen(cfg, db, files, u, pc) && FinalsAreObjects(db, u)
    ensures var e := Act(cfg, db, files, u, pc, ch);
      Seen(cfg, ApplyDb(db, u, e), ApplyFiles(files, e), u, e.pc) && FinalsAreObjects(ApplyDb(db, u, e), u)
  {
    hide ContentIs, FindBlob, CommitQuotaOk, Assembled, ActMetadataTx, ActLoad, ActBeginTx;
  }

  lemma FinalSees(cfg: Config, db: Db, files: Files, u: Id, pc: Pc, ch: Choice)
    requires pc.InspectFinal? || pc.InspectStage? || pc.Publish?
    requires Seen(cfg, db, files, u, pc) && FinalsAreObjects(db, u)
    ensures var e := Act(cfg, db, files, u, pc, ch);
      Seen(cfg, ApplyDb(db, u, e), ApplyFiles(files, e), u, e.pc) && FinalsAreObjects(ApplyDb(db, u, e), u)
  {
    hide ContentIs, FindBlob, CommitQuotaOk, Assembled, ActMetadataTx, ActLoad, ActBeginTx, ActAssemble;
  }

  lemma CandidateSees(cfg: Config, db: Db, files: Files, u: Id, pc: Pc, ch: Choice)
    requires pc.LoadCandidate? || pc.CheckCandidate? || pc.CheckActual?
    requires Seen(cfg, db, files, u, pc) && FinalsAreObjects(db, u)
    ensures var e := Act(cfg, db, files, u, pc, ch);
      Seen(cfg, ApplyDb(db, u, e), ApplyFiles(files, e), u, e.pc) && FinalsAreObjects(ApplyDb(db, u, e), u)
  {
    hide ContentIs, FindBlob, CommitQuotaOk, Assembled, ActMetadataTx, ActLoad, ActBeginTx, ActAssemble, ActPublish;
  }

  lemma CommittedSees(cfg: Config, db: Db, files: Files, u: Id, pc: Pc, ch: Choice)
    requires pc.CheckMetadata? || pc.CheckObject? || pc.DropStage?
    requires Seen(cfg, db, files, u, pc) && FinalsAreObjects(db, u)
    ensures var e := Act(cfg, db, files, u, pc, ch);
      Seen(cfg, ApplyDb(db, u, e), ApplyFiles(files, e), u, e.pc) && FinalsAreObjects(ApplyDb(db, u, e), u)
  {
    hide ContentIs, FindBlob, CommitQuotaOk, Assembled, ActMetadataTx, ActLoad, ActBeginTx, ActAssemble, ActPublish;
  }

  lemma StepSees(cfg: Config, db: Db, files: Files, u: Id, pc: Pc, ch: Choice)
    requires Seen(cfg, db, files, u, pc) && FinalsAreObjects(db, u)
    ensures var e := Act(cfg, db, files, u, pc, ch);
      Seen(cfg, ApplyDb(db, u, e), ApplyFiles(files, e), u, e.pc) && FinalsAreObjects(ApplyDb(db, u, e), u)
  {
    hide ActMetadataTx, ActLoad, ActBeginCheck, ActBeginTx, ActInspectStarted, ActAssemble, ActToFinalizing,
      ActInspectFinal, ActInspectStage, ActPublish, ActLoadCandidate, ActCheckActual, ActCheckObject, ActDropStage,
      ContentIs, CandidateValid, CommittedMetadataOk, SameReady, Present;
    match pc
    case MetadataTx(_, _, _) => MetadataSees(cfg, db, files, u, pc, ch.uuid);
    case Load(required) => LoadSees(cfg, db, files, u, required);
    case Reload(account) => LoadSees(cfg, db, files, u, Some(account));
    case BeginCheck(_, _) => OpeningSees(cfg, db, files, u, pc, ch);
    case BeginTx(_, _) => OpeningSees(cfg, db, files, u, pc, ch);
    case InspectStarted(_) => StartedSees(cfg, db, files, u, pc, ch);
    case Assemble(_) => StartedSees(cfg, db, files, u, pc, ch);
    case ToFinalizing(_) => StartedSees(cfg, db, files, u, pc, ch);
    case InspectFinal(_) => FinalSees(cfg, db, files, u, pc, ch);
    case InspectStage(_) => FinalSees(cfg, db, files, u, pc, ch);
    case Publish(_) => FinalSees(cfg, db, files, u, pc, ch);
    case LoadCandidate(_, _, _) => CandidateSees(cfg, db, files, u, pc, ch);
    case CheckCandidate(_, _, _) => CandidateSees(cfg, db, files, u, pc, ch);
    case CheckActual(_, _, _) => CandidateSees(cfg, db, files, u, pc, ch);
    case CheckMetadata(_, _, _) => CommittedSees(cfg, db, files, u, pc, ch);
    case CheckObject(_, _) => CommittedSees(cfg, db, files, u, pc, ch);
    case DropStage(_, _, _) => CommittedSees(cfg, db, files, u, pc, ch);
    case Mark(_) =>
    case Returned(_) =>
  }

  lemma {:induction false} DriveSees(cfg: Config, w: World, s: Sys, u: Id, k: nat)
    requires u in s.calls && Seen(cfg, s.db, s.files, u, s.calls[u]) && FinalsAreObjects(s.db, u)
    ensures var s' := Drive(cfg, w, s, u, k).0; Seen(cfg, s'.db, s'.files, u, s'.calls[u])
    decreases PcRank(s.calls[u])
  {
    hide Act, Seen, FinalsAreObjects;
    if !s.calls[u].Returned? {
      RankFalls(cfg, s.db, s.files, u, s.calls[u], Draw(w, s, k));
      StepSees(cfg, s.db, s.files, u, s.calls[u], Draw(w, s, k));
      DriveSees(cfg, w, Advance(cfg, s, u, Draw(w, s, k)), u, k + 1);
    }
  }

  /** A success is never given for bytes that are not there: in any state of
      rows and files, with any failures, if the call answers with an outcome,
      the upload is committed with it, and the object at its final key has the
      size and hash of the request. */
  lemma SuccessIsVerified(cfg: Config, w: World, s: Sys, u: Id, k: nat)
    requires FinalsAreObjects(s.db, u)
    ensures var s' := Complete(cfg, w, s, u, k).0;
      s'.calls[u].result.Ok? ==> Vouched(cfg, s'.db, s'.files, u, s'.calls[u].result.value)
  {
    hide Act, Present, OutcomeOf;
    DriveSees(cfg, w, s.(calls := s.calls[u := Load(None)]), u, k);
  }

  lemma RunsNameObjects(cfg: Config, s: Sys, u: Id)
    requires Core(cfg, s)
    ensures FinalsAreObjects(s.db, u)
  {
    assert RowOk(cfg, s.db, s.files, u);
    forall b | b in s.db.blobs ensures s.db.blobs[b].key.ObjectFile? {
      assert BlobOk(cfg, s.db, b);
    }
  }
}
