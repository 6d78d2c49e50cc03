/** What one completion does when it runs alone: `Drive` takes its steps until
    it returns. With no failures its outcome is a function of the rows and
    files it starts from. */
module Solo {
  import opened Types
  import opened CommitModel
  import opened CommitInvariant
  import opened CommitSteps
  import opened CommitRuns
  import opened CommitSafety

  /** The rest of the world: the UUID generator, and the fault met at each tick. */
  datatype World = World(draw: set<Id> -> Id, fault: nat -> Fault)

  ghost predicate WorldOk(w: World) {
    forall issued :: w.draw(issued) !in issued
  }

  ghost predicate Faultless(w: World) {
    forall k :: w.fault(k) == Works
  }

  function Tries(attempt: nat): nat {
    if attempt < 2 then 4 * (2 - attempt) else 0
  }

  /** Every step brings a completion closer to its return. */
  function PcRank(pc: Pc): nat {
    match pc
    case Load(_) => 40
    case BeginCheck(_, _) => 39
    case BeginTx(_, _) => 38
    case Reload(_) => 37
    case CheckMetadata(_, _, _) => 36
    case CheckObject(_, _) => 35
    case InspectStarted(_) => 34
    case Assemble(_) => 33
    case ToFinalizing(_) => 32
    case InspectFinal(_) => 31
    case InspectStage(_) => 30
    case Publish(_) => 29
    case LoadCandidate(_, attempt, _) => 13 + Tries(attempt)
    case CheckCandidate(_, attempt, _) => 12 + Tries(attempt)
    case MetadataTx(_, attempt, _) => 11 + Tries(attempt)
    case CheckActual(_, attempt, _) => 10 + Tries(attempt)
    case DropStage(_, _, _) => 3
    case Mark(_) => 2
    case Returned(_) => 0
  }

  lemma MetadataRank(db: Db, u: Id, pc: Pc, uuid: Id)
    requires pc.MetadataTx?
    ensures PcRank(ActMetadataTx(db, u, pc.ready, pc.attempt, pc.approved, uuid).pc) < PcRank(pc)
  {
  }

  lemma LoadRank(db: Db, u: Id, required: Option<Id>)
    ensures PcRank(ActLoad(db, u, required).pc) < 40
    ensures !(u in db.uploads && db.uploads[u].commit !in {Started, Finalizing}) ==>
      PcRank(ActLoad(db, u, required).pc) < 37
  {
  }

  lemma EarlyRank(cfg: Config, db: Db, files: Files, u: Id, pc: Pc, ch: Choice)
    requires pc.BeginCheck? || pc.BeginTx? || pc.InspectStarted? || pc.Assemble? || pc.ToFinalizing?
             || pc.InspectFinal? || pc.InspectStage? || pc.Publish?
    ensures PcRank(Act(cfg, db, files, u, pc, ch).pc) < PcRank(pc)
  {
    hide ActMetadataTx, ActLoad, ActCheckActual, ActCheckObject, ActDropStage, ActMark, CommitQuotaOk, FindBlob,
      Assembled, ContentIs, CandidateValid, CommittedMetadataOk;
  }

  lemma RankFalls(cfg: Config, db: Db, files: Files, u: Id, pc: Pc, ch: Choice)
    requires !pc.Returned?
    ensures PcRank(Act(cfg, db, files, u, pc, ch).pc) < PcRank(pc)
  {
    hide ActMetadataTx, ActLoad, ActBeginCheck, ActBeginTx, ActInspectStarted, ActAssemble, ActToFinalizing,
      ActInspectFinal, ActInspectStage, ActPublish, FindBlob, ContentIs, CandidateValid, CommittedMetadataOk;
    match pc
    case MetadataTx(_, _, _) => MetadataRank(db, u, pc, ch.uuid);
    case Load(required) => LoadRank(db, u, required);
    case Reload(account) => LoadRank(db, u, Some(account));
    case LoadCandidate(_, _, _) =>
    case CheckCandidate(_, _, _) =>
    case CheckActual(_, _, _) =>
    case CheckMetadata(_, _, _) =>
    case CheckObject(_, _) =>
    case DropStage(_, _, _) =>
    case Mark(_) =>
    case _ => EarlyRank(cfg, db, files, u, pc, ch);
  }

  ghost function Draw(w: World, s: Sys, k: nat): Choice {
    Choice(w.draw(s.issued), w.fault(k))
  }

  /** Run the completion of `u` from tick `k` until it returns. */
  ghost function Drive(cfg: Config, w: World, s: Sys, u: Id, k: nat): (r: (Sys, nat))
    requires u in s.calls
    ensures u in r.0.calls && r.0.calls[u].Returned?
    ensures r.0.calls.Keys == s.calls.Keys && r.0.puts == s.puts
    decreases PcRank(s.calls[u])
  {
    if s.calls[u].Returned? then (s, k)
    else
      RankFalls(cfg, s.db, s.files, u, s.calls[u], Draw(w, s, k));
      Drive(cfg, w, Advance(cfg, s, u, Draw(w, s, k)), u, k + 1)
  }

  /** One whole call of `complete_inner` by reconciliation. */
  ghost function Complete(cfg: Config, w: World, s: Sys, u: Id, k: nat): (Sys, nat) {
    Drive(cfg, w, s.(calls := s.calls[u := Load(None)]), u, k)
  }

  lemma {:induction false} DriveKeepsInv(cfg: Config, w: World, s: Sys, u: Id, k: nat)
    requires Inv(cfg, s) && u in s.calls && WorldOk(w)
    ensures Inv(cfg, Drive(cfg, w, s, u, k).0)
    decreases PcRank(s.calls[u])
  {
    if !s.calls[u].Returned? {
      RankFalls(cfg, s.db, s.files, u, s.calls[u], Draw(w, s, k));
      AdvanceKeepsInv(cfg, s, u, Draw(w, s, k));
      DriveKeepsInv(cfg, w, Advance(cfg, s, u, Draw(w, s, k)), u, k + 1);
    }
  }

  /** A quiet world: every step works, and UUIDs are new. */
  ghost predicate Quiet(cfg: Config, w: World, s: Sys, u: Id) {
    WorldOk(w) && Faultless(w) && Core(cfg, s) && u in s.calls && u in s.db.uploads
  }

  function OutcomeOf(row: Upload): Outcome
    requires row.resource.Some?
  {
    Outcome(row.resource.value, row.asset, row.deduplicated)
  }

  /** A committed upload whose stage has been cleaned up. */
  ghost predicate StageGone(s: Sys, u: Id) {
    u in s.db.uploads && s.db.uploads[u].commit == Committed && s.db.uploads[u].staged.Some? ==>
      s.db.uploads[u].staged.value !in s.files
  }

  /** The call ends with its upload committed, its stage removed, and returns
      that outcome. */
  ghost predicate Commits(cfg: Config, w: World, s: Sys, u: Id, k: nat)
    requires u in s.calls
  {
    var s' := Drive(cfg, w, s, u, k).0;
    u in s'.db.uploads && s'.db.uploads[u].commit == Committed && s'.db.uploads[u].resource.Some?
    && s'.calls[u] == Returned(Ok(OutcomeOf(s'.db.uploads[u]))) && StageGone(s', u)
  }

  /** The call ends refused, with its upload in the given state. */
  ghost predicate Stops(cfg: Config, w: World, s: Sys, u: Id, k: nat, commit: Commit)
    requires u in s.calls
  {
    var s' := Drive(cfg, w, s, u, k).0;
    u in s'.db.uploads && s'.db.uploads[u].commit == commit && s'.calls[u] == Returned(Err(Conflict))
  }

  /** The facts about its own upload that a completion works from. */
  lemma Known(cfg: Config, w: World, s: Sys, u: Id)
    requires Quiet(cfg, w, s, u)
    ensures PcOk(cfg, s.db, s.files, u, s.calls[u]) && RowOk(cfg, s.db, s.files, u) && HashOk(cfg)
  {
  }

  lemma KnownBlob(cfg: Config, s: Sys, b: Id)
    requires Core(cfg, s)
    ensures BlobOk(cfg, s.db, b) && HashOk(cfg)
  {
  }

  /** One step of a quiet drive. */
  lemma Tick(cfg: Config, w: World, s: Sys, u: Id, k: nat) returns (s': Sys, e: Effect)
    requires Quiet(cfg, w, s, u) && !s.calls[u].Returned?
    ensures e == Act(cfg, s.db, s.files, u, s.calls[u], Choice(w.draw(s.issued), Works))
    ensures s' == Advance(cfg, s, u, Choice(w.draw(s.issued), Works)) && Quiet(cfg, w, s', u)
    ensures s'.calls[u] == e.pc
    ensures Drive(cfg, w, s, u, k) == Drive(cfg, w, s', u, k + 1)
  {
    e := Act(cfg, s.db, s.files, u, s.calls[u], Choice(w.draw(s.issued), Works));
    s' := Advance(cfg, s, u, Choice(w.draw(s.issued), Works));
    assert Draw(w, s, k) == Choice(w.draw(s.issued), Works);
    AdvanceKeepsCore(cfg, s, u, Draw(w, s, k));
  }

  lemma MarkStops(cfg: Config, w: World, s: Sys, u: Id, k: nat)
    requires Quiet(cfg, w, s, u) && s.calls[u].Mark?
    ensures Stops(cfg, w, s, u, k, s.calls[u].target)
    ensures Drive(cfg, w, s, u, k).0.files == s.files
    ensures s.db.uploads[u].commit != Unknown ==>
      Drive(cfg, w, s, u, k).0.db
      == s.db.(uploads := s.db.uploads[u := s.db.uploads[u].(commit := s.calls[u].target)])
  {
    hide Core;
    Known(cfg, w, s, u);
    var s', e := Tick(cfg, w, s, u, k);
  }

  lemma DropStageCommits(cfg: Config, w: World, s: Sys, u: Id, k: nat)
    requires Quiet(cfg, w, s, u) && s.calls[u].DropStage? && s.calls[u].ready.staged.Some?
    requires s.db.uploads[u].resource.Some? && s.calls[u].outcome == OutcomeOf(s.db.uploads[u])
    requires s.db.uploads[u].staged == s.calls[u].ready.staged
    ensures Commits(cfg, w, s, u, k)
  {
    hide Core;
    Known(cfg, w, s, u);
    var s', e := Tick(cfg, w, s, u, k);
  }

  lemma MetadataTxWrites(cfg: Config, db: Db, files: Files, u: Id, pc: Pc, uuid: Id)
    requires pc.MetadataTx? && u in db.uploads && PcOk(cfg, db, files, u, pc) && RowOk(cfg, db, files, u)
    requires FindBlob(db, pc.ready.account, pc.ready.request.blake3).Some? ==> pc.approved.Some?
    requires UniqueBlobs(db)
    ensures var e := ActMetadataTx(db, u, pc.ready, pc.attempt, pc.approved, uuid);
      e.row.Some? && e.row.value.commit == Committed && e.row.value.resource.Some?
      && e.row.value.staged == pc.ready.staged
      && e.pc == if pc.ready.staged.Some? then DropStage(pc.ready, OutcomeOf(e.row.value), false)
                 else Returned(Ok(OutcomeOf(e.row.value)))
  {
    var existing := FindBlob(db, pc.ready.account, pc.ready.request.blake3);
    if pc.approved.Some? {
      assert IsContent(db, pc.approved.value.id, pc.ready.account, pc.ready.request.blake3);
    }
  }

  lemma KnownUnique(cfg: Config, s: Sys)
    requires Core(cfg, s)
    ensures UniqueBlobs(s.db)
  {
  }

  /** The metadata transaction commits at once when the content is new, or when
      the candidate it was given is the account's row. */
  lemma MetadataTxCommits(cfg: Config, w: World, s: Sys, u: Id, k: nat)
    requires Quiet(cfg, w, s, u) && s.calls[u].MetadataTx?
    requires var pc := s.calls[u];
             FindBlob(s.db, pc.ready.account, pc.ready.request.blake3).Some? ==> pc.approved.Some?
    ensures Commits(cfg, w, s, u, k)
  {
    hide Core;
    Known(cfg, w, s, u);
    KnownUnique(cfg, s);
    var pc := s.calls[u];
    MetadataTxWrites(cfg, s.db, s.files, u, pc, w.draw(s.issued));
    hide PcOk, RowOk, ActMetadataTx;
    var s', e := Tick(cfg, w, s, u, k);
    if pc.ready.staged.Some? {
      DropStageCommits(cfg, w, s', u, k + 1);
    }
  }

  /** The account's row of this content, if there is one, records the size of
      the request. */
  ghost predicate SizeRecorded(db: Db, account: Id, request: Request) {
    forall b :: IsContent(db, b, account, request.blake3) ==> db.blobs[b].size == request.size
  }

  /** How a commit ends once its object is in place: a row of the same digest
      with another size is not this content. */
  ghost function Closing(db: Db, account: Id, request: Request): Commit {
    if SizeRecorded(db, account, request) then Committed else Unknown
  }

  /** Ends as the verdict says, returning the outcome exactly when it commits. */
  ghost predicate EndsAs(cfg: Config, w: World, s: Sys, u: Id, k: nat, verdict: Commit)
    requires u in s.calls
  {
    if verdict == Committed then Commits(cfg, w, s, u, k) else Stops(cfg, w, s, u, k, verdict)
  }

  /** Sizes disagree only where two contents share a digest. */
  lemma SizesClashByCollision(cfg: Config, s: Sys, key: Key, account: Id, request: Request)
    returns (one: Bytes, other: Bytes)
    requires Core(cfg, s) && ObjectGood(cfg, s.files, key, request) && !SizeRecorded(s.db, account, request)
    ensures one != other && cfg.hash(one) == cfg.hash(other) == request.blake3
  {
    var b :| IsContent(s.db, b, account, request.blake3) && s.db.blobs[b].size != request.size;
    KnownBlob(cfg, s, b);
    one := s.files[key];
    other :| ContentIs(cfg, other, s.db.blobs[b].size, s.db.blobs[b].blake3);
  }

  /** The account's row of this content passes `validate_blob_candidate` exactly
      when it records the size of the request. */
  lemma CandidatePasses(cfg: Config, s: Sys, u: Id, ready: Ready, b: Id)
    requires Core(cfg, s) && ReadyOk(s.db, u, ready)
    requires IsContent(s.db, b, ready.account, ready.request.blake3)
    requires ObjectGood(cfg, s.files, ready.final, ready.request)
    ensures CandidateValid(cfg, s.files, ready, CandidateOf(b, s.db.blobs[b]))
            <==> SizeRecorded(s.db, ready.account, ready.request)
  {
    KnownBlob(cfg, s, b);
    KnownUnique(cfg, s);
    hide Core;
  }

  /** The first step of a try: the row found, if any, or straight on. */
  lemma TryBegins(cfg: Config, w: World, s: Sys, u: Id, k: nat) returns (s1: Sys)
    requires Quiet(cfg, w, s, u) && s.calls[u].LoadCandidate?
    ensures Quiet(cfg, w, s1, u) && s1.db == s.db && s1.files == s.files
    ensures Drive(cfg, w, s, u, k) == Drive(cfg, w, s1, u, k + 1)
    ensures var pc := s.calls[u];
      var found := FindBlob(s.db, pc.ready.account, pc.ready.request.blake3);
      s1.calls[u] == if found.Some?
        then CheckCandidate(pc.ready, pc.attempt, CandidateOf(found.value, s.db.blobs[found.value]))
        else MetadataTx(pc.ready, pc.attempt, pc.approved)
  {
    hide Core, ActMetadataTx;
    var e;
    s1, e := Tick(cfg, w, s, u, k);
  }

  lemma CandidateChecked(cfg: Config, w: World, s: Sys, u: Id, k: nat) returns (s1: Sys)
    requires Quiet(cfg, w, s, u) && s.calls[u].CheckCandidate?
    ensures Quiet(cfg, w, s1, u) && s1.db == s.db && s1.files == s.files
    ensures Drive(cfg, w, s, u, k) == Drive(cfg, w, s1, u, k + 1)
    ensures var pc := s.calls[u];
      s1.calls[u] == if CandidateValid(cfg, s.files, pc.ready, pc.candidate)
        then MetadataTx(pc.ready, pc.attempt, Some(pc.candidate)) else Mark(Unknown)
  {
    hide Core, ActMetadataTx, CandidateValid;
    var e;
    s1, e := Tick(cfg, w, s, u, k);
  }

  lemma LoadCandidateEnds(cfg: Config, w: World, s: Sys, u: Id, k: nat)
    requires Quiet(cfg, w, s, u) && s.calls[u].LoadCandidate?
    ensures EndsAs(cfg, w, s, u, k, Closing(s.db, s.calls[u].ready.account, s.calls[u].ready.request))
  {
    hide Core, Drive, CandidateValid, SizeRecorded;
    Known(cfg, w, s, u);
    var ready := s.calls[u].ready;
    var found := FindBlob(s.db, ready.account, ready.request.blake3);
    var s1 := TryBegins(cfg, w, s, u, k);
    if found.Some? {
      CandidatePasses(cfg, s, u, ready, found.value);
      var s2 := CandidateChecked(cfg, w, s1, u, k + 1);
      if s2.calls[u].Mark? {
        MarkStops(cfg, w, s2, u, k + 2);
      } else {
        MetadataTxCommits(cfg, w, s2, u, k + 2);
      }
    } else {
      NewContentFits(s.db, ready.account, ready.request);
      MetadataTxCommits(cfg, w, s1, u, k + 1);
    }
  }

  lemma NewContentFits(db: Db, account: Id, request: Request)
    requires FindBlob(db, account, request.blake3).None?
    ensures SizeRecorded(db, account, request)
  {
  }

  lemma PublishEnds(cfg: Config, w: World, s: Sys, u: Id, k: nat)
    requires Quiet(cfg, w, s, u) && s.calls[u].Publish? && s.calls[u].ready.final !in s.files
    ensures EndsAs(cfg, w, s, u, k, Closing(s.db, s.calls[u].ready.account, s.calls[u].ready.request))
  {
    hide Core, SizeRecorded;
    Known(cfg, w, s, u);
    var s', e := Tick(cfg, w, s, u, k);
    LoadCandidateEnds(cfg, w, s', u, k + 1);
  }

  /** What the finalizing half of a completion finds. */
  lemma InspectFinalEnds(cfg: Config, w: World, s: Sys, u: Id, k: nat)
    requires Quiet(cfg, w, s, u) && s.calls[u].InspectFinal?
    ensures var ready := s.calls[u].ready;
      EndsAs(cfg, w, s, u, k,
             if ready.final in s.files && !ObjectGood(cfg, s.files, ready.final, ready.request) then Unknown
             else if ready.final !in s.files && ready.staged.None? then Unknown
             else Closing(s.db, ready.account, ready.request))
  {
    hide Core, SizeRecorded, ActMetadataTx, ActBeginTx, ActAssemble, ActLoad, ActDropStage, ActCheckObject, RowOk,
      ContentIs, ReadyCommit, FindBlob, CandidateValid;
    Known(cfg, w, s, u);
    var ready := s.calls[u].ready;
    var s1, e1 := Tick(cfg, w, s, u, k);
    if s1.calls[u].LoadCandidate? {
      LoadCandidateEnds(cfg, w, s1, u, k + 1);
    } else if s1.calls[u].Mark? {
      MarkStops(cfg, w, s1, u, k + 1);
    } else {
      Known(cfg, w, s1, u);
      var s2, e2 := Tick(cfg, w, s1, u, k + 1);
      PublishEnds(cfg, w, s2, u, k + 2);
    }
  }

  lemma ToFinalizingEnds(cfg: Config, w: World, s: Sys, u: Id, k: nat)
    requires Quiet(cfg, w, s, u) && s.calls[u].ToFinalizing? && s.calls[u].ready.staged.Some?
    requires s.calls[u].ready.final in s.files ==>
      ObjectGood(cfg, s.files, s.calls[u].ready.final, s.calls[u].ready.request)
    ensures EndsAs(cfg, w, s, u, k, Closing(s.db, s.calls[u].ready.account, s.calls[u].ready.request))
  {
    hide Core, SizeRecorded;
    Known(cfg, w, s, u);
    var s', e := Tick(cfg, w, s, u, k);
    InspectFinalEnds(cfg, w, s', u, k + 1);
    SameBlobsSameSizes(s.db, s'.db, s.calls[u].ready.account, s.calls[u].ready.request);
  }

  lemma SameBlobsSameSizes(db: Db, db': Db, account: Id, request: Request)
    requires db'.blobs == db.blobs
    ensures SizeRecorded(db', account, request) <==> SizeRecorded(db, account, request)
  {
    assert forall b :: IsContent(db', b, account, request.blake3) <==> IsContent(db, b, account, request.blake3);
  }

  /** The stage holds the content, or the stored parts make it up. */
  ghost predicate Rebuildable(cfg: Config, files: Files, u: Id, ready: Ready) {
    StageGood(cfg, files, ready.staged, ready.request)
    || Assembled(cfg, files, u, ready.request.parts, ready.request.size, ready.request.blake3).Some?
  }

  lemma AssembleTick(cfg: Config, w: World, s: Sys, u: Id, k: nat) returns (s': Sys)
    requires Quiet(cfg, w, s, u) && s.calls[u].Assemble? && s.calls[u].ready.final !in s.files
    ensures Quiet(cfg, w, s', u) && s'.db == s.db && Drive(cfg, w, s, u, k) == Drive(cfg, w, s', u, k + 1)
    ensures s.calls[u].ready.staged.Some? && s.calls[u].ready.final !in s'.files
    ensures s'.calls[u] == if Rebuildable(cfg, s.files, u, s.calls[u].ready) then ToFinalizing(s.calls[u].ready)
                           else Mark(Failed)
  {
    hide Core, Drive, ActMetadataTx, ActBeginTx, ActLoad, ActDropStage, ActCheckObject, ActPublish, ContentIs, FindBlob,
      CandidateValid, RowOk, Assembled, SnapshotOf;
    Known(cfg, w, s, u);
    var e;
    s', e := Tick(cfg, w, s, u, k);
  }

  lemma AssembleEnds(cfg: Config, w: World, s: Sys, u: Id, k: nat)
    requires Quiet(cfg, w, s, u) && s.calls[u].Assemble? && s.calls[u].ready.final !in s.files
    ensures var ready := s.calls[u].ready;
      EndsAs(cfg, w, s, u, k,
             if Rebuildable(cfg, s.files, u, ready) then Closing(s.db, ready.account, ready.request) else Failed)
  {
    hide Core, SizeRecorded, Rebuildable, ObjectGood;
    var s' := AssembleTick(cfg, w, s, u, k);
    if Rebuildable(cfg, s.files, u, s.calls[u].ready) {
      ToFinalizingEnds(cfg, w, s', u, k + 1);
    } else {
      MarkStops(cfg, w, s', u, k + 1);
    }
  }

  lemma StartedHasStage(cfg: Config, w: World, s: Sys, u: Id)
    requires Quiet(cfg, w, s, u) && s.calls[u].InspectStarted?
    ensures s.calls[u].ready.staged.Some? && InScope(s.calls[u].ready.path, s.calls[u].ready.final)
  {
    hide Core;
    Known(cfg, w, s, u);
  }

  lemma InspectStartedEnds(cfg: Config, w: World, s: Sys, u: Id, k: nat)
    requires Quiet(cfg, w, s, u) && s.calls[u].InspectStarted?
    ensures var ready := s.calls[u].ready;
      EndsAs(cfg, w, s, u, k,
             if ready.final in s.files && !ObjectGood(cfg, s.files, ready.final, ready.request) then Unknown
             else if ready.final !in s.files && !Rebuildable(cfg, s.files, u, ready) then Failed
             else Closing(s.db, ready.account, ready.request))
  {
    hide Core, SizeRecorded, ActMetadataTx, ActBeginTx, ActAssemble, ActLoad, ActDropStage, ActCheckObject, ContentIs,
      FindBlob, CandidateValid, Assembled, PcOk;
    StartedHasStage(cfg, w, s, u);
    var ready := s.calls[u].ready;
    var s', e := Tick(cfg, w, s, u, k);
    if s'.calls[u].ToFinalizing? {
      ToFinalizingEnds(cfg, w, s', u, k + 1);
    } else if s'.calls[u].Mark? {
      MarkStops(cfg, w, s', u, k + 1);
    } else {
      AssembleEnds(cfg, w, s', u, k + 1);
    }
  }

  // ----- the outcome, read off the state --------------------------------------------------

  /** How an interrupted commit ends: its object decides if there is one;
      otherwise the stage, or the parts it can still be assembled from; and
      last, whether a row of the same digest records the same size. */
  ghost function Verdict(cfg: Config, s: Sys, u: Id): Commit
    requires u in s.db.uploads && s.db.uploads[u].account in s.db.accounts
  {
    var row := s.db.uploads[u];
    var key := ObjectKey(s.db, row);
    if key in s.files then
      if ObjectGood(cfg, s.files, key, row.request) then Closing(s.db, row.account, row.request) else Unknown
    else if row.staged.None? then Unknown
    else if row.commit == Finalizing
            || StageGood(cfg, s.files, row.staged, row.request)
            || Assembled(cfg, s.files, u, row.request.parts, row.request.size, row.request.blake3).Some?
    then Closing(s.db, row.account, row.request) else Failed
  }

  lemma Begun(cfg: Config, w: World, s: Sys, u: Id) returns (s0: Sys)
    requires WorldOk(w) && Faultless(w) && Core(cfg, s) && u !in s.calls
    requires u in s.db.uploads
    ensures s0 == s.(calls := s.calls[u := Load(None)]) && Quiet(cfg, w, s0, u)
    ensures RowOk(cfg, s.db, s.files, u) && HashOk(cfg)
  {
    s0 := s.(calls := s.calls[u := Load(None)]);
  }

  /** A completion resumed after a crash, alone and with no failure, ends
      exactly as the rows and files it starts from say. */
  lemma ResumedCompletion(cfg: Config, w: World, s: Sys, u: Id, k: nat)
    requires WorldOk(w) && Faultless(w) && Core(cfg, s) && u !in s.calls
    requires u in s.db.uploads && s.db.uploads[u].commit in {Started, Finalizing}
    ensures s.db.uploads[u].account in s.db.accounts
    ensures EndsAs(cfg, w, s.(calls := s.calls[u := Load(None)]), u, k, Verdict(cfg, s, u))
  {
    hide Core;
    var s0 := Begun(cfg, w, s, u);
    var s1, e1 := Tick(cfg, w, s0, u, k);
    if s.db.uploads[u].commit == Started {
      InspectStartedEnds(cfg, w, s1, u, k + 1);
    } else {
      InspectFinalEnds(cfg, w, s1, u, k + 1);
    }
  }

  // ----- a first completion ----------------------------------------------------------------

  /** The row the opening transaction writes. */
  ghost function OpenedRow(db: Db, u: Id, uuid: Id): Upload
    requires u in db.uploads && db.uploads[u].account in db.accounts
  {
    var row := db.uploads[u];
    var found := FindBlob(db, row.account, row.request.blake3);
    var path := db.accounts[row.account].path;
    if found.Some? then BeginRow(row, Finalizing, None, db.blobs[found.value].key, path, found.value)
    else BeginRow(row, Started, Some(StageFile(path, u, uuid)), ObjectFor(path, row.request.blake3), path, uuid)
  }

  /** The transaction that opens the commit, when nothing forbids it. */
  lemma BeginTxOpens(cfg: Config, w: World, s: Sys, u: Id, k: nat) returns (s': Sys)
    requires Quiet(cfg, w, s, u) && s.calls[u].BeginTx? && s.calls[u].account == s.db.uploads[u].account
    requires CanBegin(s.db, u)
    ensures Quiet(cfg, w, s', u) && s'.files == s.files && Drive(cfg, w, s, u, k) == Drive(cfg, w, s', u, k + 1)
    ensures s'.calls[u] == Reload(s.db.uploads[u].account)
    ensures s'.db == s.db.(uploads := s.db.uploads[u := OpenedRow(s.db, u, w.draw(s.issued))])
    ensures s'.calls.Keys == s.calls.Keys && s'.puts == s.puts
  {
    hide Core, CommitQuotaOk, FindBlob, IsContent;
    Known(cfg, w, s, u);
    var e;
    s', e := Tick(cfg, w, s, u, k);
  }

  /** The account accepts uploads, and new content fits its quota. */
  ghost predicate CanBegin(db: Db, u: Id)
    requires u in db.uploads
  {
    var row := db.uploads[u];
    row.commit == Receiving && AllReceived(row)
    && row.account in db.accounts && db.accounts[row.account].enabled
    && (FindBlob(db, row.account, row.request.blake3).None? ==> CommitQuotaOk(db, row.account, u))
  }

  lemma FirstTicks(cfg: Config, w: World, s: Sys, u: Id, k: nat) returns (s': Sys)
    requires WorldOk(w) && Faultless(w) && Core(cfg, s) && u !in s.calls
    requires u in s.db.uploads && CanBegin(s.db, u)
    ensures Quiet(cfg, w, s', u) && s'.db == s.db && s'.files == s.files && s.issued <= s'.issued
    ensures s'.calls.Keys == s.calls.Keys + {u} && s'.puts == s.puts
    ensures Complete(cfg, w, s, u, k) == Drive(cfg, w, s', u, k + 2)
    ensures s'.calls[u] == BeginTx(s.db.uploads[u].account, s.db.uploads[u].request)
  {
    hide Core, CommitQuotaOk, FindBlob, ActMetadataTx, ActBeginTx;
    var s0 := Begun(cfg, w, s, u);
    var s1, e1 := Tick(cfg, w, s0, u, k);
    var e2;
    s', e2 := Tick(cfg, w, s1, u, k + 1);
  }

  lemma ReloadTick(cfg: Config, w: World, s: Sys, u: Id, k: nat) returns (s': Sys)
    requires Quiet(cfg, w, s, u) && s.calls[u] == Reload(s.db.uploads[u].account)
    ensures Quiet(cfg, w, s', u) && s'.db == s.db && s'.files == s.files
    ensures Drive(cfg, w, s, u, k) == Drive(cfg, w, s', u, k + 1)
    ensures var row := s.db.uploads[u];
      row.account in s.db.accounts && s'.calls[u] == Dispatch(row, s.db.accounts[row.account].path)
      && row.commit in {Started, Finalizing}
  {
    hide Core, ActMetadataTx, ActBeginTx, Dispatch;
    Known(cfg, w, s, u);
    var e;
    s', e := Tick(cfg, w, s, u, k);
  }

  /** Where the opened commit goes on from: the object of an adopted blob, or
      the start of its own, under a stage of this name. */
  ghost predicate Opened(s: Sys, u: Id, uuid: Id, pc: Pc)
    requires u in s.db.uploads && s.db.uploads[u].account in s.db.accounts
  {
    var row := s.db.uploads[u];
    (pc.InspectFinal? || pc.InspectStarted?)
    && pc.ready.final == ObjectKey(s.db, row) && pc.ready.request == row.request && pc.ready.account == row.account
    && if FindBlob(s.db, row.account, row.request.blake3).Some? then pc.InspectFinal? && pc.ready.staged.None?
       else pc.InspectStarted? && pc.ready.staged == Some(StageFile(s.db.accounts[row.account].path, u, uuid))
  }

  lemma OpenedDispatch(cfg: Config, s: Sys, u: Id, uuid: Id)
    requires Core(cfg, s) && u in s.db.uploads && s.db.uploads[u].account in s.db.accounts
    ensures var row := s.db.uploads[u];
      Opened(s, u, uuid, Dispatch(OpenedRow(s.db, u, uuid), s.db.accounts[row.account].path))
      && OpenedRow(s.db, u, uuid).account == row.account
  {
    var row := s.db.uploads[u];
    var found := FindBlob(s.db, row.account, row.request.blake3);
    if found.Some? {
      KnownBlob(cfg, s, found.value);
    }
    hide Core;
  }

  lemma OpeningTicks(cfg: Config, w: World, s: Sys, u: Id, k: nat) returns (s': Sys, uuid: Id)
    requires WorldOk(w) && Faultless(w) && Core(cfg, s) && u !in s.calls
    requires u in s.db.uploads && CanBegin(s.db, u)
    ensures Quiet(cfg, w, s', u) && s'.files == s.files && s'.db.blobs == s.db.blobs && uuid !in s.issued
    ensures Complete(cfg, w, s, u, k) == Drive(cfg, w, s', u, k + 4) && Opened(s, u, uuid, s'.calls[u])
  {
    hide Core, CommitQuotaOk, FindBlob, Drive, Complete, IsContent, WorldOk, Faultless, OpenedRow, Dispatch, Opened;
    var s1 := FirstTicks(cfg, w, s, u, k);
    uuid := DrawIsNew(w, s1);
    OpenedDispatch(cfg, s, u, uuid);
    var s2 := BeginTxOpens(cfg, w, s1, u, k + 2);
    s' := ReloadTick(cfg, w, s2, u, k + 3);
  }

  lemma DrawIsNew(w: World, s: Sys) returns (uuid: Id)
    requires WorldOk(w)
    ensures uuid == w.draw(s.issued) && uuid !in s.issued
  {
    uuid := w.draw(s.issued);
  }

  lemma QuietKnows(cfg: Config, w: World, s: Sys, u: Id)
    ensures Quiet(cfg, w, s, u) ==> u in s.calls && u in s.db.uploads
  {
  }

  /** How a first completion ends: what is stored already decides; otherwise
      the received parts are the content, or they are not. */
  ghost function FirstVerdict(cfg: Config, s: Sys, u: Id): Commit
    requires u in s.db.uploads && s.db.uploads[u].account in s.db.accounts
  {
    var row := s.db.uploads[u];
    var key := ObjectKey(s.db, row);
    if key in s.files then
      if ObjectGood(cfg, s.files, key, row.request) then Closing(s.db, row.account, row.request) else Unknown
    else if FindBlob(s.db, row.account, row.request.blake3).Some? then Unknown
    else if Assembled(cfg, s.files, u, row.request.parts, row.request.size, row.request.blake3).Some? then Committed
    else Failed
  }

  /** No file bears the name of a stage the server has yet to draw. */
  lemma NewStageIsAbsent(cfg: Config, s: Sys, path: string, u: Id, uuid: Id, request: Request)
    requires StageFilesIssued(s) && uuid !in s.issued
    ensures !StageGood(cfg, s.files, Some(StageFile(path, u, uuid)), request)
  {
    assert StageFile(path, u, uuid).nonce == uuid;
  }

  /** A first completion, alone and with no failure, ends exactly as the rows and
      files it starts from say. */
  lemma FirstCompletion(cfg: Config, w: World, s: Sys, u: Id, k: nat)
    requires WorldOk(w) && Faultless(w) && Core(cfg, s) && StageFilesIssued(s) && u !in s.calls
    requires u in s.db.uploads && CanBegin(s.db, u)
    ensures EndsAs(cfg, w, s.(calls := s.calls[u := Load(None)]), u, k, FirstVerdict(cfg, s, u))
  {
    var row := s.db.uploads[u];
    assert row.account in s.db.accounts;
    hide Core, CanBegin, FindBlob, Drive, Assembled, ObjectGood, Quiet, StageGood, SizeRecorded, EndsAs;
    var s', uuid := OpeningTicks(cfg, w, s, u, k);
    QuietKnows(cfg, w, s', u);
    SameBlobsSameSizes(s.db, s'.db, row.account, row.request);
    var s0 := s.(calls := s.calls[u := Load(None)]);
    SameEnd(cfg, w, s0, k, s', k + 4, u, FirstVerdict(cfg, s, u));
    if s'.calls[u].InspectFinal? {
      InspectFinalEnds(cfg, w, s', u, k + 4);
    } else {
      NewStageIsAbsent(cfg, s, s.db.accounts[row.account].path, u, uuid, row.request);
      NewContentFits(s.db, row.account, row.request);
      InspectStartedEnds(cfg, w, s', u, k + 4);
    }
  }

  lemma SameEnd(cfg: Config, w: World, s: Sys, k: nat, s': Sys, k': nat, u: Id, verdict: Commit)
    requires u in s.calls && u in s'.calls && Drive(cfg, w, s, u, k) == Drive(cfg, w, s', u, k')
    ensures EndsAs(cfg, w, s, u, k, verdict) <==> EndsAs(cfg, w, s', u, k', verdict)
  {
    hide Drive;
  }

  /** The resource of a committed upload still points at the upload's blob. */
  ghost predicate Current(db: Db, row: Upload) {
    row.resource.Some? && row.resource.value in db.resources
    && Some(db.resources[row.resource.value].blob) == row.blob
  }

  lemma CheckedObjectEnds(cfg: Config, w: World, s: Sys, u: Id, k: nat)
    requires Quiet(cfg, w, s, u) && s.calls[u].CheckObject?
    requires ObjectGood(cfg, s.files, s.calls[u].ready.final, s.calls[u].ready.request)
    ensures var (s', _) := Drive(cfg, w, s, u, k);
      s'.calls[u] == Returned(Ok(s.calls[u].outcome)) && s'.db == s.db
      && s'.files == (if s.calls[u].ready.staged.Some? then s.files - {s.calls[u].ready.staged.value} else s.files)
  {
    hide Core, ActMetadataTx, ActBeginTx, ActAssemble, ActLoad, ActPublish, RowOk, ContentIs, ReadyCommit, FindBlob,
      CandidateValid, CommittedMetadataOk;
    Known(cfg, w, s, u);
    var s1, e1 := Tick(cfg, w, s, u, k);
    assert s1.db == s.db && s1.files == s.files;
    if s.calls[u].ready.staged.Some? {
      var s2, e2 := Tick(cfg, w, s1, u, k + 1);
      assert s2.db == s.db;
    }
  }

  lemma RepeatedBegins(cfg: Config, w: World, s: Sys, u: Id, k: nat) returns (s1: Sys)
    requires WorldOk(w) && Faultless(w) && Core(cfg, s) && u !in s.calls
    requires u in s.db.uploads && s.db.uploads[u].commit == Committed
    ensures Quiet(cfg, w, s1, u) && s1.db == s.db && s1.files == s.files
    ensures Complete(cfg, w, s, u, k) == Drive(cfg, w, s1, u, k + 1)
    ensures var row := s.db.uploads[u];
      row.account in s.db.accounts && row.resource.Some?
      && ReadyCommit(row, s.db.accounts[row.account].path).Some?
      && s1.calls[u] == CheckMetadata(ReadyCommit(row, s.db.accounts[row.account].path).value,
                                      row.resource.value, row.deduplicated)
  {
    hide Core;
    var s0 := Begun(cfg, w, s, u);
    var e;
    s1, e := Tick(cfg, w, s0, u, k);
  }

  lemma MetadataChecked(cfg: Config, w: World, s: Sys, u: Id, k: nat) returns (s1: Sys)
    requires Quiet(cfg, w, s, u) && s.calls[u].CheckMetadata?
    ensures Quiet(cfg, w, s1, u) && s1.db == s.db && s1.files == s.files
    ensures Drive(cfg, w, s, u, k) == Drive(cfg, w, s1, u, k + 1)
    ensures var pc := s.calls[u];
      s1.calls[u] == if CommittedMetadataOk(s.db, pc.ready, pc.resource)
        then CheckObject(pc.ready, Outcome(pc.resource, pc.ready.asset, pc.deduplicated)) else Mark(Unknown)
  {
    hide Core, ActMetadataTx, CommittedMetadataOk, ContentIs, ActLoad, ActBeginTx, ActAssemble, FindBlob,
      CandidateValid;
    var e;
    s1, e := Tick(cfg, w, s, u, k);
  }

  /** The metadata query of a committed upload succeeds exactly when the
      resource is still its own. */
  lemma MetadataOkIffCurrent(cfg: Config, db: Db, files: Files, u: Id, ready: Ready)
    requires u in db.uploads && db.uploads[u].commit == Committed && RowOk(cfg, db, files, u)
    requires db.uploads[u].blob.Some? ==> BlobOk(cfg, db, db.uploads[u].blob.value)
    requires HashOk(cfg)
    requires ReadyCommit(db.uploads[u], db.accounts[db.uploads[u].account].path) == Some(ready)
    ensures CommittedMetadataOk(db, ready, db.uploads[u].resource.value) <==> Current(db, db.uploads[u])
    ensures ObjectGood(cfg, files, ready.final, ready.request) && ready.staged == db.uploads[u].staged
  {
  }

  /** A repeated completion returns the recorded outcome, and the upload stays
      committed, exactly when no later upload took over its resource. */
  lemma RepeatedCompletion(cfg: Config, w: World, s: Sys, u: Id, k: nat)
    requires WorldOk(w) && Faultless(w) && Core(cfg, s) && u !in s.calls
    requires u in s.db.uploads && s.db.uploads[u].commit == Committed
    ensures s.db.uploads[u].resource.Some?
    ensures var (s', _) := Complete(cfg, w, s, u, k);
      if Current(s.db, s.db.uploads[u]) then
        s'.calls[u] == Returned(Ok(OutcomeOf(s.db.uploads[u]))) && s'.db == s.db
        && s'.files == (if s.db.uploads[u].staged.Some? then s.files - {s.db.uploads[u].staged.value} else s.files)
      else s'.calls[u] == Returned(Err(Conflict)) && s'.files == s.files
           && s'.db == s.db.(uploads := s.db.uploads[u := s.db.uploads[u].(commit := Unknown)])
  {
    hide Core, Drive, Complete, CommittedMetadataOk, Current, ObjectGood;
    var s1 := RepeatedBegins(cfg, w, s, u, k);
    Known(cfg, w, s1, u);
    KnownBlob(cfg, s, s.db.uploads[u].blob.value);
    MetadataOkIffCurrent(cfg, s.db, s.files, u, s1.calls[u].ready);
    var s2 := MetadataChecked(cfg, w, s1, u, k + 1);
    hide RowOk, PcOk, ReadyCommit;
    if Current(s.db, s.db.uploads[u]) {
      CheckedObjectEnds(cfg, w, s2, u, k + 2);
    } else {
      MarkStops(cfg, w, s2, u, k + 2);
    }
  }
}
