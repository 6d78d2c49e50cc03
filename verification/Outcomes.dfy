/** Who may complete an upload, and what every other call is told: the answers
    of a completion read off the rows it finds. */
module Outcomes {
  import opened Types
  import opened CommitModel
  import opened CommitInvariant
  import opened CommitSteps
  import opened CommitRuns
  import opened CommitSafety
  import opened Solo

  /** The call is made by reconciliation, or for the account of the upload. */
  ghost predicate Owned(db: Db, u: Id, required: Option<Id>) {
    u in db.uploads && (required.None? || db.uploads[u].account == required.value)
  }

  ghost function Called(s: Sys, u: Id, required: Option<Id>): Sys {
    s.(calls := s.calls[u := Load(required)])
  }

  /** The call ends with this refusal, and nothing has changed. */
  ghost predicate Turned(cfg: Config, w: World, s: Sys, u: Id, required: Option<Id>, k: nat, reason: Refusal) {
    var s' := Drive(cfg, w, Called(s, u, required), u, k).0;
    s'.db == s.db && s'.files == s.files && s'.calls[u] == Returned(Err(reason))
  }

  // ----- other accounts ------------------------------------------------------------------

  lemma ForeignLoad(cfg: Config, s: Sys, u: Id, required: Option<Id>, ch: Choice)
    requires u in s.calls && s.calls[u] == Load(required) && !Owned(s.db, u, required)
    ensures var s' := Advance(cfg, s, u, ch);
      s'.db == s.db && s'.files == s.files
      && s'.calls[u] == Returned(Err(if ch.fault == Works then NotFound else StorageError))
  {
  }

  /** A call for another account, or for no upload at all, changes nothing and
      is told nothing, whatever rows and files there are and whatever fails. */
  lemma ForeignCall(cfg: Config, w: World, s: Sys, u: Id, required: Option<Id>, k: nat)
    requires !Owned(s.db, u, required)
    ensures Turned(cfg, w, s, u, required, k, if w.fault(k) == Works then NotFound else StorageError)
  {
    var s0 := Called(s, u, required);
    ForeignLoad(cfg, s0, u, required, Draw(w, s0, k));
    hide Act, Advance;
    var s1 := Advance(cfg, s0, u, Draw(w, s0, k));
    RankFalls(cfg, s0.db, s0.files, u, s0.calls[u], Draw(w, s0, k));
    assert u in s1.calls by { StillCalled(cfg, s0, u, Draw(w, s0, k)); }
    assert Drive(cfg, w, s0, u, k) == Drive(cfg, w, s1, u, k + 1);
  }

  lemma StillCalled(cfg: Config, s: Sys, u: Id, ch: Choice)
    requires u in s.calls
    ensures u in Advance(cfg, s, u, ch).calls
  {
  }

  /** A call for the owner is the call of reconciliation. */
  lemma OwnCall(cfg: Config, w: World, s: Sys, u: Id, required: Option<Id>, k: nat)
    requires Owned(s.db, u, required)
    ensures Drive(cfg, w, Called(s, u, required), u, k) == Complete(cfg, w, s, u, k)
  {
    var s0, s1 := Called(s, u, required), Called(s, u, None);
    var ch := Draw(w, s0, k);
    assert ch == Draw(w, s1, k);
    SameLoad(cfg, s.db, s.files, u, required, ch);
    hide Act;
    assert s0.calls[u := Act(cfg, s.db, s.files, u, Load(required), ch).pc]
        == s1.calls[u := Act(cfg, s.db, s.files, u, Load(None), ch).pc];
    assert Advance(cfg, s0, u, ch) == Advance(cfg, s1, u, ch);
  }

  lemma SameLoad(cfg: Config, db: Db, files: Files, u: Id, required: Option<Id>, ch: Choice)
    requires Owned(db, u, required)
    ensures Act(cfg, db, files, u, Load(required), ch) == Act(cfg, db, files, u, Load(None), ch)
  {
  }

  // ----- the account stays ----------------------------------------------------------------

  lemma {:induction false} DriveKeepsIdentity(cfg: Config, w: World, s: Sys, u: Id, k: nat)
    requires Core(cfg, s) && WorldOk(w) && u in s.calls && u in s.db.uploads
    ensures var s' := Drive(cfg, w, s, u, k).0;
      u in s'.db.uploads && SameIdentity(s.db.uploads[u], s'.db.uploads[u])
    decreases PcRank(s.calls[u])
  {
    if !s.calls[u].Returned? {
      var ch := Draw(w, s, k);
      RankFalls(cfg, s.db, s.files, u, s.calls[u], ch);
      ActSound(cfg, s.db, s.files, u, s.calls[u], ch);
      AdvanceKeepsCore(cfg, s, u, ch);
      hide Core, Act, OwnOk;
      DriveKeepsIdentity(cfg, w, Advance(cfg, s, u, ch), u, k + 1);
    }
  }

  /** Only the account of an upload ever has it completed. */
  lemma OnlyOwnersSucceed(cfg: Config, w: World, s: Sys, u: Id, account: Id, k: nat)
    requires Core(cfg, s) && WorldOk(w) && u !in s.calls
    requires Drive(cfg, w, Called(s, u, Some(account)), u, k).0.calls[u].result.Ok?
    ensures var s' := Drive(cfg, w, Called(s, u, Some(account)), u, k).0;
      u in s.db.uploads && s.db.uploads[u].account == account
      && u in s'.db.uploads && s'.db.uploads[u].account == account
  {
    if !Owned(s.db, u, Some(account)) {
      ForeignCall(cfg, w, s, u, Some(account), k);
    } else {
      CalledIsSound(cfg, s, u, Some(account));
      hide Core, Drive;
      DriveKeepsIdentity(cfg, w, Called(s, u, Some(account)), u, k);
    }
  }

  lemma CalledIsSound(cfg: Config, s: Sys, u: Id, required: Option<Id>)
    requires Core(cfg, s) && u in s.db.uploads
    ensures Core(cfg, Called(s, u, required))
  {
  }

  // ----- uploads that cannot be completed ---------------------------------------------------

  /** New content that no longer fits: the quota is set and exceeded. */
  ghost predicate Exceeds(db: Db, account: Id)
    requires account in db.accounts
  {
    var quota := db.accounts[account].quota;
    0 < quota < I64_MAX
    && quota < MapSum(BlobSizes(db, account)) + MapSum(Reservations(db, account, {Receiving, Started, Finalizing}))
  }

  /** Why an upload is refused before anything is done for it. */
  ghost function Barred(db: Db, u: Id): Option<Refusal>
    requires u in db.uploads && db.uploads[u].account in db.accounts
  {
    var row := db.uploads[u];
    if row.commit == Unknown || row.commit == Failed then Some(Conflict)
    else if row.commit != Receiving then None
    else if exists i :: 0 <= i < |row.parts| && !row.parts[i].received then Some(Conflict)
    else if !db.accounts[row.account].enabled then Some(Forbidden)
    else if (forall b :: b in db.blobs ==>
               db.blobs[b].account != row.account || db.blobs[b].blake3 != row.request.blake3)
            && Exceeds(db, row.account)
    then Some(OverQuota)
    else None
  }

  /** An upload that is neither ended nor barred can begin, or has begun. */
  lemma NotBarredBegins(cfg: Config, s: Sys, u: Id)
    requires Core(cfg, s) && u in s.db.uploads
    ensures s.db.uploads[u].account in s.db.accounts
    ensures s.db.uploads[u].commit == Receiving ==> (Barred(s.db, u).None? <==> CanBegin(s.db, u))
  {
    var row := s.db.uploads[u];
    assert RowOk(cfg, s.db, s.files, u);
    hide Core;
    assert forall b :: IsContent(s.db, b, row.account, row.request.blake3) <==>
      b in s.db.blobs && s.db.blobs[b].account == row.account && s.db.blobs[b].blake3 == row.request.blake3;
  }

  lemma EndedCall(cfg: Config, w: World, s: Sys, u: Id, k: nat)
    requires WorldOk(w) && Faultless(w) && Core(cfg, s) && u !in s.calls && u in s.db.uploads
    requires s.db.uploads[u].commit == Unknown || s.db.uploads[u].commit == Failed
    ensures Turned(cfg, w, s, u, None, k, Conflict)
  {
    hide Core;
    var s0 := Begun(cfg, w, s, u);
    var s1, e1 := Tick(cfg, w, s0, u, k);
  }

  lemma ReceivingLoads(cfg: Config, w: World, s: Sys, u: Id, k: nat) returns (s1: Sys)
    requires WorldOk(w) && Faultless(w) && Core(cfg, s) && u !in s.calls && u in s.db.uploads
    requires s.db.uploads[u].commit == Receiving
    ensures Quiet(cfg, w, s1, u) && s1.db == s.db && s1.files == s.files
    ensures s1.calls[u] == BeginCheck(s.db.uploads[u].account, s.db.uploads[u].request)
    ensures Drive(cfg, w, Called(s, u, None), u, k) == Drive(cfg, w, s1, u, k + 1)
    ensures RequestOk(s.db.uploads[u].request) && s.db.uploads[u].account in s.db.accounts
  {
    hide Core;
    var s0 := Begun(cfg, w, s, u);
    var e;
    s1, e := Tick(cfg, w, s0, u, k);
  }

  /** The transaction refuses what it may not open. */
  lemma TxRefuses(db: Db, u: Id, uuid: Id)
    requires u in db.uploads && db.uploads[u].account in db.accounts && db.uploads[u].commit == Receiving
    requires AllReceived(db.uploads[u]) && Barred(db, u).Some?
    ensures ActBeginTx(db, u, db.uploads[u].account, db.uploads[u].request, uuid) == Refuse(Barred(db, u).value)
  {
    var row := db.uploads[u];
    assert forall b :: IsContent(db, b, row.account, row.request.blake3) <==>
      b in db.blobs && db.blobs[b].account == row.account && db.blobs[b].blake3 == row.request.blake3;
    hide MapSum, BlobSizes, Reservations;
  }

  /** The check before it lets through what has all its parts, and nothing else. */
  lemma CheckRefuses(db: Db, u: Id)
    requires u in db.uploads && RequestOk(db.uploads[u].request)
    ensures var row := db.uploads[u];
      ActBeginCheck(db, u, row.account, row.request)
      == if AllReceived(row) then Goto(BeginTx(row.account, row.request)) else Refuse(Conflict)
  {
  }

  lemma DriveReturned(cfg: Config, w: World, s: Sys, u: Id, k: nat)
    requires u in s.calls && s.calls[u].Returned?
    ensures Drive(cfg, w, s, u, k) == (s, k)
  {
  }

  lemma RefusalEnds(cfg: Config, w: World, s: Sys, u: Id, k: nat, reason: Refusal)
    requires Quiet(cfg, w, s, u) && !s.calls[u].Returned?
    requires Act(cfg, s.db, s.files, u, s.calls[u], Choice(w.draw(s.issued), Works)) == Refuse(reason)
    ensures var s' := Drive(cfg, w, s, u, k).0;
      s'.db == s.db && s'.files == s.files && s'.calls[u] == Returned(Err(reason))
  {
    hide Core, Act, Drive;
    var s', e := Tick(cfg, w, s, u, k);
    DriveReturned(cfg, w, s', u, k + 1);
  }

  lemma BarredForParts(db: Db, u: Id)
    requires u in db.uploads && db.uploads[u].account in db.accounts && db.uploads[u].commit == Receiving
    requires !AllReceived(db.uploads[u])
    ensures Barred(db, u) == Some(Conflict)
  {
    hide Exceeds;
  }

  lemma BarredOpening(cfg: Config, w: World, s: Sys, u: Id, k: nat)
    requires Quiet(cfg, w, s, u) && s.db.uploads[u].commit == Receiving && s.db.uploads[u].account in s.db.accounts
    requires s.calls[u] == BeginCheck(s.db.uploads[u].account, s.db.uploads[u].request)
    requires RequestOk(s.db.uploads[u].request) && Barred(s.db, u).Some?
    ensures var s' := Drive(cfg, w, s, u, k).0;
      s'.db == s.db && s'.files == s.files && s'.calls[u] == Returned(Err(Barred(s.db, u).value))
  {
    hide Core, ActBeginTx, ActBeginCheck, RequestOk, Barred, AllReceived, Drive;
    CheckRefuses(s.db, u);
    if AllReceived(s.db.uploads[u]) {
      var s', e := Tick(cfg, w, s, u, k);
      TxRefuses(s.db, u, w.draw(s'.issued));
      RefusalEnds(cfg, w, s', u, k + 1, Barred(s.db, u).value);
    } else {
      BarredForParts(s.db, u);
      RefusalEnds(cfg, w, s, u, k, Conflict);
    }
  }

  lemma BarredReceiving(cfg: Config, w: World, s: Sys, u: Id, k: nat)
    requires WorldOk(w) && Faultless(w) && Core(cfg, s) && u !in s.calls && u in s.db.uploads
    requires s.db.uploads[u].commit == Receiving && s.db.uploads[u].account in s.db.accounts
    requires Barred(s.db, u).Some?
    ensures Turned(cfg, w, s, u, None, k, Barred(s.db, u).value)
  {
    hide Core, RequestOk, Barred, AllReceived, Drive;
    var s1 := ReceivingLoads(cfg, w, s, u, k);
    BarredOpening(cfg, w, s1, u, k + 1);
  }

  /** An upload that is barred is refused for that reason, and nothing else
      happens. */
  lemma BarredCall(cfg: Config, w: World, s: Sys, u: Id, required: Option<Id>, k: nat)
    requires WorldOk(w) && Faultless(w) && Core(cfg, s) && u !in s.calls && Owned(s.db, u, required)
    requires s.db.uploads[u].account in s.db.accounts && Barred(s.db, u).Some?
    ensures Turned(cfg, w, s, u, required, k, Barred(s.db, u).value)
  {
    OwnCall(cfg, w, s, u, required, k);
    if s.db.uploads[u].commit == Receiving {
      BarredReceiving(cfg, w, s, u, k);
    } else {
      EndedCall(cfg, w, s, u, k);
    }
  }

  // ----- every answer -----------------------------------------------------------------------

  /** How an upload ends that is not barred. */
  ghost function Ending(cfg: Config, s: Sys, u: Id): Commit
    requires u in s.db.uploads && s.db.uploads[u].account in s.db.accounts
  {
    var row := s.db.uploads[u];
    if row.commit == Receiving then FirstVerdict(cfg, s, u)
    else if row.commit == Started || row.commit == Finalizing then Verdict(cfg, s, u)
    else if Current(s.db, row) then Committed
    else Unknown
  }

  /** What a completion that nothing fails is told, and leaves: nothing for
      another account; its reason for a barred upload; and otherwise the end
      that rows and files decide, with the outcome exactly when it commits. */
  lemma CompletionAnswers(cfg: Config, w: World, s: Sys, u: Id, required: Option<Id>, k: nat)
    requires WorldOk(w) && Faultless(w) && Core(cfg, s) && StageFilesIssued(s) && u !in s.calls
    ensures u in s.db.uploads ==> s.db.uploads[u].account in s.db.accounts
    ensures if !Owned(s.db, u, required) then Turned(cfg, w, s, u, required, k, NotFound)
            else if Barred(s.db, u).Some? then Turned(cfg, w, s, u, required, k, Barred(s.db, u).value)
            else EndsAs(cfg, w, Called(s, u, required), u, k, Ending(cfg, s, u))
  {
    if !Owned(s.db, u, required) {
      ForeignCall(cfg, w, s, u, required, k);
      OwnersExist(cfg, s, u);
    } else {
      NotBarredBegins(cfg, s, u);
      if Barred(s.db, u).Some? {
        BarredCall(cfg, w, s, u, required, k);
      } else {
        UnbarredCall(cfg, w, s, u, required, k);
      }
    }
  }

  lemma OwnersExist(cfg: Config, s: Sys, u: Id)
    requires Core(cfg, s)
    ensures u in s.db.uploads ==> s.db.uploads[u].account in s.db.accounts
  {
    assert RowOk(cfg, s.db, s.files, u);
  }

  lemma UnbarredCall(cfg: Config, w: World, s: Sys, u: Id, required: Option<Id>, k: nat)
    requires WorldOk(w) && Faultless(w) && Core(cfg, s) && StageFilesIssued(s) && u !in s.calls
    requires Owned(s.db, u, required) && s.db.uploads[u].account in s.db.accounts && Barred(s.db, u).None?
    requires s.db.uploads[u].commit == Receiving ==> CanBegin(s.db, u)
    ensures EndsAs(cfg, w, Called(s, u, required), u, k, Ending(cfg, s, u))
  {
    OwnCall(cfg, w, s, u, required, k);
    SameEnd(cfg, w, Called(s, u, required), k, Called(s, u, None), k, u, Ending(cfg, s, u));
    hide Core, CanBegin, FirstVerdict, Verdict, Drive, Current;
    if s.db.uploads[u].commit == Receiving {
      FirstCompletion(cfg, w, s, u, k);
    } else if s.db.uploads[u].commit == Committed {
      RepeatedEnds(cfg, w, s, u, k);
    } else {
      ResumedCompletion(cfg, w, s, u, k);
    }
  }

  lemma RepeatedEnds(cfg: Config, w: World, s: Sys, u: Id, k: nat)
    requires WorldOk(w) && Faultless(w) && Core(cfg, s) && u !in s.calls
    requires u in s.db.uploads && s.db.uploads[u].commit == Committed
    ensures EndsAs(cfg, w, Called(s, u, None), u, k, if Current(s.db, s.db.uploads[u]) then Committed else Unknown)
  {
    RepeatedCompletion(cfg, w, s, u, k);
    hide Core, Drive, Current;
  }

  // ----- rows of any origin -----------------------------------------------------------------

  /** The steps of a call that look at one row or one file, when they work. */
  ghost function Working(cfg: Config, db: Db, files: Files, u: Id, pc: Pc): Effect
    requires Looks(pc)
  {
    match pc
    case Load(required) => ActLoad(db, u, required)
    case BeginCheck(account, request) => ActBeginCheck(db, u, account, request)
    case InspectStarted(ready) => ActInspectStarted(cfg, files, ready)
    case InspectFinal(ready) => ActInspectFinal(cfg, files, ready)
    case InspectStage(ready) => ActInspectStage(cfg, files, u, ready)
    case Publish(ready) => ActPublish(cfg, files, u, ready, Works)
    case CheckMetadata(ready, resource, deduplicated) =>
      Goto(if CommittedMetadataOk(db, ready, resource)
           then CheckObject(ready, Outcome(resource, ready.asset, deduplicated)) else Mark(Unknown))
    case CheckObject(ready, outcome) => ActCheckObject(cfg, files, ready, outcome)
    case DropStage(ready, outcome, strict) => ActDropStage(files, u, ready, outcome, strict, Works)
    case Mark(target) => ActMark(db, u, target)
  }

  predicate Looks(pc: Pc) {
    pc.Load? || pc.BeginCheck? || pc.InspectStarted? || pc.InspectFinal? || pc.InspectStage? || pc.Publish?
    || pc.CheckMetadata? || pc.CheckObject? || pc.DropStage? || pc.Mark?
  }

  lemma WorkingIsAct(cfg: Config, db: Db, files: Files, u: Id, pc: Pc, ch: Choice)
    requires Looks(pc) && ch.fault == Works
    ensures Act(cfg, db, files, u, pc, ch) == Working(cfg, db, files, u, pc)
  {
    hide ActLoad, ActBeginCheck, ActInspectStarted, ActInspectFinal, ActInspectStage, ActPublish, ActCheckObject,
      ActDropStage, ActMark, CommittedMetadataOk;
  }

  /** One step of a call that nothing fails, whatever the rows and files. */
  lemma NextStep(cfg: Config, w: World, s: Sys, u: Id, k: nat) returns (s': Sys, e: Effect)
    requires Faultless(w) && u in s.calls && Looks(s.calls[u])
    ensures e == Working(cfg, s.db, s.files, u, s.calls[u])
    ensures s'.db == ApplyDb(s.db, u, e) && s'.files == ApplyFiles(s.files, e)
    ensures s'.calls == s.calls[u := e.pc]
    ensures Drive(cfg, w, s, u, k) == Drive(cfg, w, s', u, k + 1)
  {
    e := Working(cfg, s.db, s.files, u, s.calls[u]);
    WorkingIsAct(cfg, s.db, s.files, u, s.calls[u], Draw(w, s, k));
    hide Working;
    var ch := Draw(w, s, k);
    assert ch == Choice(w.draw(s.issued), Works);
    s' := Advance(cfg, s, u, ch);
    StillCalled(cfg, s, u, ch);
    RankFalls(cfg, s.db, s.files, u, s.calls[u], ch);
    hide Act;
  }

  /** A manifest that is empty or does not add up fails its upload for good; one
      that cannot be added up is refused, and nothing changes. */
  lemma BadManifestFails(cfg: Config, w: World, s: Sys, u: Id, k: nat)
    requires Faultless(w) && u in s.db.uploads && s.db.uploads[u].account in s.db.accounts
    requires var row := s.db.uploads[u];
      row.commit == Receiving && (row.request.parts == [] || row.request.size != PartsSize(row.request.parts))
    ensures var s' := Complete(cfg, w, s, u, k).0;
      var row := s.db.uploads[u];
      var fails := row.request.parts == [] || PartsSize(row.request.parts) <= U64_MAX;
      s'.calls[u] == Returned(Err(Conflict)) && s'.files == s.files
      && s'.db == if fails then s.db.(uploads := s.db.uploads[u := row.(commit := Failed)]) else s.db
  {
    hide Drive;
    var s0 := Called(s, u, None);
    var s1, e1 := NextStep(cfg, w, s0, u, k);
    var s2, e2 := NextStep(cfg, w, s1, u, k + 1);
    if s2.calls[u].Mark? {
      var s3, e3 := NextStep(cfg, w, s2, u, k + 2);
      DriveReturned(cfg, w, s3, u, k + 3);
    } else {
      DriveReturned(cfg, w, s2, u, k + 2);
    }
  }

  // ----- failures ---------------------------------------------------------------------------

  /** The storage calls whose failure leaves open whether the content is there. */
  predicate Probes(pc: Pc) {
    pc.InspectStarted? || pc.InspectFinal? || pc.InspectStage? || pc.Publish?
    || pc.CheckCandidate? || pc.CheckActual? || pc.CheckObject?
  }

  /** Every failure during the call is one of the database, or of assembly. */
  ghost predicate ProbesWork(cfg: Config, w: World, s: Sys, u: Id, k: nat)
    requires u in s.calls
    decreases PcRank(s.calls[u])
  {
    s.calls[u].Returned?
    || (&& (w.fault(k) != Works ==> !Probes(s.calls[u]) && !s.calls[u].DropStage?)
        && var ch := Draw(w, s, k);
           RankFalls(cfg, s.db, s.files, u, s.calls[u], ch);
           StillCalled(cfg, s, u, ch);
           ProbesWork(cfg, w, Advance(cfg, s, u, ch), u, k + 1))
  }

  /** Some look at the storage fails during the call, and the database never. */
  ghost predicate ProbeFails(cfg: Config, w: World, s: Sys, u: Id, k: nat)
    requires u in s.calls
    decreases PcRank(s.calls[u])
  {
    && !s.calls[u].Returned?
    && if w.fault(k) != Works && Probes(s.calls[u]) then w.fault(k + 1) == Works
       else
         && w.fault(k) == Works
         && var ch := Draw(w, s, k);
            RankFalls(cfg, s.db, s.files, u, s.calls[u], ch);
            StillCalled(cfg, s, u, ch);
            ProbeFails(cfg, w, Advance(cfg, s, u, ch), u, k + 1)
  }

  ghost function Undisturbed(w: World): World {
    w.(fault := _ => Works)
  }

  predicate Ended(commit: Commit) {
    commit == Unknown || commit == Failed
  }

  lemma FailedStep(cfg: Config, s: Sys, u: Id, ch: Choice)
    requires u in s.calls && !s.calls[u].Returned? && ch.fault != Works
    requires !Probes(s.calls[u]) && !s.calls[u].DropStage?
    ensures Advance(cfg, s, u, ch).db == s.db && Advance(cfg, s, u, ch).files == s.files
    ensures Advance(cfg, s, u, ch).calls[u] == Returned(Err(StorageError))
  {
  }

  lemma EndingReturns(cfg: Config, s: Sys, u: Id, ch: Choice)
    requires u in s.calls && u in s.db.uploads && !Ended(s.db.uploads[u].commit)
    ensures var s' := Advance(cfg, s, u, ch);
      u in s'.db.uploads && (s'.calls[u].Returned? || !Ended(s'.db.uploads[u].commit))
  {
    ActEnds(cfg, s.db, s.files, u, s.calls[u], ch);
    hide Act;
  }

  lemma MetadataEnds(db: Db, u: Id, ready: Ready, attempt: nat, approved: Option<Candidate>, uuid: Id)
    ensures var e := ActMetadataTx(db, u, ready, attempt, approved, uuid);
      e.row.Some? ==> !Ended(e.row.value.commit)
  {
  }

  lemma OpeningEnds(db: Db, u: Id, account: Id, request: Request, uuid: Id)
    ensures var e := ActBeginTx(db, u, account, request, uuid);
      e.row.Some? ==> !Ended(e.row.value.commit)
  {
    hide CommitQuotaOk, FindBlob;
  }

  lemma ActEnds(cfg: Config, db: Db, files: Files, u: Id, pc: Pc, ch: Choice)
    ensures var e := Act(cfg, db, files, u, pc, ch);
      e.row.Some? && Ended(e.row.value.commit) ==> e.pc.Returned?
  {
    hide InspectFile, ContentIs, Assembled, CommitQuotaOk, FindBlob, FindResource, ActMetadataTx, ActBeginTx,
      CandidateValid, ReadyCommit, Dispatch;
    match pc
    case MetadataTx(ready, attempt, approved) => MetadataEnds(db, u, ready, attempt, approved, ch.uuid);
    case BeginTx(account, request) => OpeningEnds(db, u, account, request, ch.uuid);
    case _ =>
  }

  /** Failures of the database, and of assembly, only put a verdict off: a call
      that meets them ends as the undisturbed one, or with a storage error and
      an upload that can be completed again. */
  lemma {:induction false} DatabaseFailuresDecideNothing(cfg: Config, w: World, s: Sys, u: Id, k: nat,
                                                         verdict: Commit)
    requires u in s.calls && u in s.db.uploads && !Ended(s.db.uploads[u].commit)
    requires ProbesWork(cfg, w, s, u, k) && EndsAs(cfg, Undisturbed(w), s, u, k, verdict)
    ensures EndsAs(cfg, w, s, u, k, verdict)
         || var s' := Drive(cfg, w, s, u, k).0;
            s'.calls[u] == Returned(Err(StorageError)) && u in s'.db.uploads && !Ended(s'.db.uploads[u].commit)
    decreases PcRank(s.calls[u])
  {
    var ch := Draw(w, s, k);
    hide Act;
    if s.calls[u].Returned? {
      SameEnd(cfg, w, s, k, s, k, u, verdict);
    } else {
      RankFalls(cfg, s.db, s.files, u, s.calls[u], ch);
      StillCalled(cfg, s, u, ch);
      if ch.fault == Works {
        assert Draw(Undisturbed(w), s, k) == ch;
        var s1 := Advance(cfg, s, u, ch);
        EndingReturns(cfg, s, u, ch);
        assert Drive(cfg, w, s, u, k) == Drive(cfg, w, s1, u, k + 1);
        assert Drive(cfg, Undisturbed(w), s, u, k) == Drive(cfg, Undisturbed(w), s1, u, k + 1);
        assert EndsAs(cfg, Undisturbed(w), s1, u, k + 1, verdict);
        if !s1.calls[u].Returned? {
          DatabaseFailuresDecideNothing(cfg, w, s1, u, k + 1, verdict);
        }
      } else {
        FailedStep(cfg, s, u, ch);
      }
    }
  }

  lemma ProbeBreaks(cfg: Config, s: Sys, u: Id, ch: Choice)
    requires u in s.calls && ch.fault != Works && Probes(s.calls[u])
    ensures var s' := Advance(cfg, s, u, ch);
      s'.calls[u] == Mark(Unknown) && s'.db == s.db && s'.files.Keys >= s.files.Keys
  {
    hide InspectFile;
  }

  lemma MarkedUnknown(cfg: Config, s: Sys, u: Id, ch: Choice)
    requires u in s.calls && s.calls[u] == Mark(Unknown) && u in s.db.uploads && ch.fault == Works
    ensures var s' := Advance(cfg, s, u, ch);
      s'.calls[u] == Returned(Err(Conflict)) && u in s'.db.uploads && s'.db.uploads[u].commit == Unknown
  {
  }

  /** A look at the storage that fails is never taken for an answer: the upload
      is set aside as unknown, and the caller is told of the conflict. */
  lemma {:induction false} FailedProbeSetsAside(cfg: Config, w: World, s: Sys, u: Id, k: nat)
    requires u in s.calls && u in s.db.uploads && ProbeFails(cfg, w, s, u, k)
    ensures var s' := Drive(cfg, w, s, u, k).0;
      s'.calls[u] == Returned(Err(Conflict)) && u in s'.db.uploads && s'.db.uploads[u].commit == Unknown
    decreases PcRank(s.calls[u])
  {
    var ch := Draw(w, s, k);
    hide Act;
    RankFalls(cfg, s.db, s.files, u, s.calls[u], ch);
    StillCalled(cfg, s, u, ch);
    var s1 := Advance(cfg, s, u, ch);
    StaysThere(cfg, s, u, ch);
    if ch.fault != Works {
      var ch1 := Draw(w, s1, k + 1);
      ProbeBreaks(cfg, s, u, ch);
      MarkedUnknown(cfg, s1, u, ch1);
      RankFalls(cfg, s1.db, s1.files, u, s1.calls[u], ch1);
      assert Drive(cfg, w, s, u, k) == Drive(cfg, w, s1, u, k + 1);
      assert Drive(cfg, w, s1, u, k + 1) == Drive(cfg, w, Advance(cfg, s1, u, ch1), u, k + 2);
    } else {
      FailedProbeSetsAside(cfg, w, s1, u, k + 1);
    }
  }

  lemma StaysThere(cfg: Config, s: Sys, u: Id, ch: Choice)
    requires u in s.calls && u in s.db.uploads
    ensures u in Advance(cfg, s, u, ch).db.uploads
  {
    hide Act;
  }

  /** Nothing fails during the call but the removal of its stage. */
  ghost predicate CleanupFails(cfg: Config, w: World, s: Sys, u: Id, k: nat)
    requires u in s.calls
    decreases PcRank(s.calls[u])
  {
    && !s.calls[u].Returned?
    && (s.calls[u].DropStage? <==> w.fault(k) != Works)
    && (s.calls[u].DropStage?
        || var ch := Draw(w, s, k);
           RankFalls(cfg, s.db, s.files, u, s.calls[u], ch);
           StillCalled(cfg, s, u, ch);
           CleanupFails(cfg, w, Advance(cfg, s, u, ch), u, k + 1))
  }

  /** Where a call stands that found its upload completed. */
  predicate Repeats(pc: Pc) {
    pc.CheckMetadata? || pc.CheckObject? || (pc.DropStage? && pc.strict)
  }

  lemma RepeatsOn(cfg: Config, db: Db, files: Files, u: Id, pc: Pc, ch: Choice)
    requires ch.fault == Works && !pc.Load? && !pc.DropStage?
    ensures var e := Act(cfg, db, files, u, pc, ch);
      if Repeats(pc) then
        (e.pc.Returned? || e.pc == Mark(Unknown) || Repeats(e.pc)) && ApplyDb(db, u, e) == db
      else e.pc.Returned? || (!e.pc.Load? && !Repeats(e.pc))
  {
    hide ActMetadataTx, ActBeginTx, InspectFile, Assembled, CandidateValid, CommittedMetadataOk;
    if pc.MetadataTx? {
      MetadataOn(db, u, pc, ch.uuid);
    } else if pc.BeginTx? {
      OpeningOn(db, u, pc, ch.uuid);
    }
  }

  lemma MetadataOn(db: Db, u: Id, pc: Pc, uuid: Id)
    requires pc.MetadataTx?
    ensures var e := ActMetadataTx(db, u, pc.ready, pc.attempt, pc.approved, uuid);
      (e.pc.Returned? || (!e.pc.Load? && !Repeats(e.pc))) && e.pc != Mark(Failed)
  {
  }

  lemma OpeningOn(db: Db, u: Id, pc: Pc, uuid: Id)
    requires pc.BeginTx?
    ensures var e := ActBeginTx(db, u, pc.account, pc.request, uuid);
      (e.pc.Returned? || (!e.pc.Load? && !Repeats(e.pc))) && e.pc != Mark(Failed)
  {
  }

  lemma {:induction false} FailedCleanup(cfg: Config, w: World, s: Sys, u: Id, k: nat)
    requires u in s.calls && !s.calls[u].Load? && CleanupFails(cfg, w, s, u, k)
    ensures var s' := Drive(cfg, w, s, u, k).0;
      if Repeats(s.calls[u]) then s'.calls[u] == Returned(Err(StorageError)) && s'.db == s.db
      else s'.calls[u].result.Ok?
    decreases PcRank(s.calls[u])
  {
    var ch := Draw(w, s, k);
    hide Act;
    RankFalls(cfg, s.db, s.files, u, s.calls[u], ch);
    StillCalled(cfg, s, u, ch);
    var s1 := Advance(cfg, s, u, ch);
    assert Drive(cfg, w, s, u, k) == Drive(cfg, w, s1, u, k + 1);
    if s.calls[u].DropStage? {
      CleanupEnds(cfg, s, u, ch);
      DriveReturned(cfg, w, s1, u, k + 1);
    } else {
      RepeatsOn(cfg, s.db, s.files, u, s.calls[u], ch);
      if s1.calls[u] == Mark(Unknown) {
        MarkCleansNothing(cfg, w, s1, u, k + 1);
      }
      FailedCleanup(cfg, w, s1, u, k + 1);
    }
  }

  lemma CleanupEnds(cfg: Config, s: Sys, u: Id, ch: Choice)
    requires u in s.calls && s.calls[u].DropStage? && ch.fault != Works
    ensures var s' := Advance(cfg, s, u, ch);
      s'.db == s.db
      && s'.calls[u] == Returned(if s.calls[u].strict then Err(StorageError) else Ok(s.calls[u].outcome))
  {
  }

  lemma MarkCleansNothing(cfg: Config, w: World, s: Sys, u: Id, k: nat)
    requires u in s.calls && s.calls[u] == Mark(Unknown)
    ensures !CleanupFails(cfg, w, s, u, k)
  {
  }

  /** A completion that commits succeeds even if its stage cannot be removed; a
      later one reports the failure, and still keeps the commit. */
  lemma FailedCleanupTells(cfg: Config, w: World, s: Sys, u: Id, k: nat)
    requires u in s.db.uploads && CleanupFails(cfg, w, Called(s, u, None), u, k)
    ensures var s' := Complete(cfg, w, s, u, k).0;
      if s.db.uploads[u].commit == Committed then s'.calls[u] == Returned(Err(StorageError)) && s'.db == s.db
      else s'.calls[u].result.Ok?
  {
    var s0 := Called(s, u, None);
    var ch := Draw(w, s0, k);
    FirstStep(cfg, s, u, ch);
    hide Act;
    RankFalls(cfg, s0.db, s0.files, u, s0.calls[u], ch);
    StillCalled(cfg, s0, u, ch);
    var s1 := Advance(cfg, s0, u, ch);
    if s1.calls[u] == Mark(Unknown) {
      MarkCleansNothing(cfg, w, s1, u, k + 1);
    }
    FailedCleanup(cfg, w, s1, u, k + 1);
  }

  lemma FirstStep(cfg: Config, s: Sys, u: Id, ch: Choice)
    requires u in s.db.uploads && ch.fault == Works
    ensures var s1 := Advance(cfg, Called(s, u, None), u, ch);
      u in s1.calls && s1.db == s.db
      && (s1.calls[u].Returned? || s1.calls[u] == Mark(Unknown)
          || (!s1.calls[u].Load? && (Repeats(s1.calls[u]) <==> s.db.uploads[u].commit == Committed)))
  {
  }

  /** An upload that has failed, or is about to, has no file at its stage. */
  ghost predicate CleanFailure(s: Sys, u: Id) {
    u in s.db.uploads && (s.db.uploads[u].commit == Failed || (u in s.calls && s.calls[u] == Mark(Failed))) ==>
      s.db.uploads[u].staged.Some? ==> s.db.uploads[u].staged.value !in s.files
  }

  lemma AssemblyCleansUp(cfg: Config, s: Sys, u: Id, ch: Choice)
    requires Core(cfg, s) && u in s.calls && u in s.db.uploads && s.calls[u].Assemble?
    ensures CleanFailure(Advance(cfg, s, u, ch), u)
  {
    var ready := s.calls[u].ready;
    assert RowOk(cfg, s.db, s.files, u) && PcOk(cfg, s.db, s.files, u, s.calls[u]);
    assert s.db.uploads[u].commit == Started && s.db.uploads[u].staged == ready.staged;
    AssembleRemoves(cfg, s.db, s.files, u, ready, ch);
    hide Core, RowOk, PcOk, Act;
  }

  lemma AssembleRemoves(cfg: Config, db: Db, files: Files, u: Id, ready: Ready, ch: Choice)
    ensures var e := Act(cfg, db, files, u, Assemble(ready), ch);
      e.row.None? && (e.pc == Mark(Failed) ==> e.remove.Some? && e.remove == ready.staged)
  {
    hide InspectFile, Assembled;
  }

  lemma OthersFailNothing(cfg: Config, s: Sys, u: Id, ch: Choice)
    requires Core(cfg, s) && u in s.calls && u in s.db.uploads && !s.calls[u].Assemble?
    requires CleanFailure(s, u) && s.db.uploads[u].commit != Failed
    ensures CleanFailure(Advance(cfg, s, u, ch), u)
  {
    assert PcOk(cfg, s.db, s.files, u, s.calls[u]);
    hide Core;
    if s.calls[u].Mark? {
      MarkLeavesFiles(cfg, s, u, ch);
    } else {
      FailsByAssembly(cfg, s.db, s.files, u, s.calls[u], ch);
      hide Act;
    }
  }

  lemma MarkLeavesFiles(cfg: Config, s: Sys, u: Id, ch: Choice)
    requires u in s.calls && s.calls[u].Mark? && u in s.db.uploads
    ensures var s' := Advance(cfg, s, u, ch);
      s'.files == s.files && s'.calls[u].Returned? && u in s'.db.uploads
      && s'.db.uploads[u].staged == s.db.uploads[u].staged
      && (s'.db.uploads[u].commit == s.calls[u].target || s'.db.uploads[u] == s.db.uploads[u])
  {
  }

  lemma FailsByAssembly(cfg: Config, db: Db, files: Files, u: Id, pc: Pc, ch: Choice)
    requires PcOk(cfg, db, files, u, pc) && !pc.Assemble? && !pc.Mark?
    ensures var e := Act(cfg, db, files, u, pc, ch);
      e.pc != Mark(Failed) && (e.row.Some? ==> e.row.value.commit != Failed)
  {
    hide InspectFile, ContentIs, FindBlob, FindResource, CommitQuotaOk, ActMetadataTx, ActBeginTx, CandidateValid,
      StageGood, ObjectGood, ReadyOk;
    if pc.MetadataTx? {
      MetadataEnds(db, u, pc.ready, pc.attempt, pc.approved, ch.uuid);
      MetadataOn(db, u, pc, ch.uuid);
    } else if pc.BeginTx? {
      OpeningEnds(db, u, pc.account, pc.request, ch.uuid);
      OpeningOn(db, u, pc, ch.uuid);
    }
  }

  lemma {:induction false} DriveCleansUp(cfg: Config, w: World, s: Sys, u: Id, k: nat)
    requires Core(cfg, s) && WorldOk(w) && u in s.calls && u in s.db.uploads && CleanFailure(s, u)
    requires s.db.uploads[u].commit == Failed ==> s.calls[u].Returned?
    ensures CleanFailure(Drive(cfg, w, s, u, k).0, u)
    decreases PcRank(s.calls[u])
  {
    if !s.calls[u].Returned? {
      var ch := Draw(w, s, k);
      RankFalls(cfg, s.db, s.files, u, s.calls[u], ch);
      AdvanceKeepsCore(cfg, s, u, ch);
      ActEnds(cfg, s.db, s.files, u, s.calls[u], ch);
      if s.calls[u].Assemble? {
        AssemblyCleansUp(cfg, s, u, ch);
      } else {
        OthersFailNothing(cfg, s, u, ch);
      }
      hide Core, Act, CleanFailure;
      DriveCleansUp(cfg, w, Advance(cfg, s, u, ch), u, k + 1);
    }
  }

  /** Whatever fails, an upload that a completion gives up as failed has left no
      file at its stage. */
  lemma FailureLeavesNoStage(cfg: Config, w: World, s: Sys, u: Id, k: nat)
    requires Core(cfg, s) && WorldOk(w) && u !in s.calls && u in s.db.uploads && s.db.uploads[u].commit != Failed
    ensures var s' := Complete(cfg, w, s, u, k).0;
      u in s'.db.uploads
      && (s'.db.uploads[u].commit == Failed && s'.db.uploads[u].staged.Some? ==>
            s'.db.uploads[u].staged.value !in s'.files)
  {
    CalledIsSound(cfg, s, u, None);
    hide Core, Drive;
    DriveCleansUp(cfg, w, Called(s, u, None), u, k);
    DriveKeepsIdentity(cfg, w, Called(s, u, None), u, k);
  }

  // ----- the same, of a call from its first to its last state ---------------------------------

  /** What a call leaves and is told, when nothing fails: nothing for another
      account, a reason for a barred upload, and otherwise the end that the
      rows and files it found decide, with the outcome exactly when it commits. */
  ghost predicate AnswersFor(cfg: Config, s: Sys, u: Id, required: Option<Id>, s': Sys, r: Result<Outcome, Refusal>) {
    if !Owned(s.db, u, required) then r == Err(NotFound) && s'.db == s.db && s'.files == s.files
    else if s.db.uploads[u].account !in s.db.accounts then false
    else if Barred(s.db, u).Some? then r == Err(Barred(s.db, u).value) && s'.db == s.db && s'.files == s.files
    else
      && u in s'.db.uploads && s'.db.uploads[u].commit == Ending(cfg, s, u)
      && if Ending(cfg, s, u) == Committed
         then s'.db.uploads[u].resource.Some? && r == Ok(OutcomeOf(s'.db.uploads[u])) && StageGone(s', u)
         else r == Err(Conflict)
  }

  lemma AnswerMeans(cfg: Config, w: World, s: Sys, u: Id, required: Option<Id>, k: nat, s': Sys,
                    r: Result<Outcome, Refusal>)
    requires Core(cfg, s) && WorldOk(w) && u !in s.calls
    requires s' == Drive(cfg, w, Called(s, u, required), u, k).0 && s'.calls[u] == Returned(r)
    ensures !Owned(s.db, u, required) ==>
      s'.db == s.db && s'.files == s.files && r == Err(if w.fault(k) == Works then NotFound else StorageError)
    ensures r.Ok? && required.Some? ==> u in s'.db.uploads && s'.db.uploads[u].account == required.value
    ensures Faultless(w) && StageFilesIssued(s) ==> AnswersFor(cfg, s, u, required, s', r)
  {
    hide Core, Drive, Ending, Barred;
    if !Owned(s.db, u, required) {
      ForeignCall(cfg, w, s, u, required, k);
    }
    if r.Ok? && required.Some? {
      OnlyOwnersSucceed(cfg, w, s, u, required.value, k);
    }
    if Faultless(w) && StageFilesIssued(s) {
      CompletionAnswers(cfg, w, s, u, required, k);
    }
  }

  lemma SameButCalls(cfg: Config, s: Sys, u: Id, required: Option<Id>, s1: Sys, s': Sys, r: Result<Outcome, Refusal>)
    requires s'.db == s1.db && s'.files == s1.files
    ensures AnswersFor(cfg, s, u, required, s1, r) <==> AnswersFor(cfg, s, u, required, s', r)
  {
    hide Ending, Barred;
  }
}
