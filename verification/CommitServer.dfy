/** The server's own code for completing and reconciling uploads, statement by
    statement over its tables and its object store. Every method is proved to
    take exactly the protocol's steps, in order, whatever fails on the way. */
module CommitServer {
  import opened Types
  import opened CommitModel
  import opened CommitInvariant
  import opened CommitSteps
  import opened CommitRuns
  import opened CommitSafety
  import opened Solo
  import opened Outcomes
  import opened Answers
  import opened Reclamation
  import opened Reconcile
  import opened Storage
  import opened Quota

  /** One unfolding of a drive. */
  lemma Follow(cfg: Config, w: World, s: Sys, u: Id, k: nat, s': Sys)
    requires u in s.calls && !s.calls[u].Returned? && s' == Advance(cfg, s, u, Draw(w, s, k))
    ensures u in s'.calls && Drive(cfg, w, s, u, k) == Drive(cfg, w, s', u, k + 1)
  {
  }

  /** What one step leaves, given its effect. */
  lemma Stepped(cfg: Config, w: World, s: Sys, u: Id, k: nat, pc: Pc, e: Effect, s': Sys)
    requires s.calls == map[u := pc] && e == Act(cfg, s.db, s.files, u, pc, Draw(w, s, k))
    requires s'.db == ApplyDb(s.db, u, e) && s'.files == ApplyFiles(s.files, e) && s'.calls == map[u := e.pc]
    requires s'.puts == s.puts && s'.issued == s.issued + {w.draw(s.issued)}
    ensures s' == Advance(cfg, s, u, Draw(w, s, k))
  {
    hide Act;
    assert s.calls[u := e.pc] == map[u := e.pc];
  }

  /** The step just taken, on the way from one method state to the next. */
  lemma Took(cfg: Config, w: World, s: Sys, u: Id, k: nat, pc: Pc, e: Effect, s': Sys)
    requires s.calls == map[u := pc] && e == Act(cfg, s.db, s.files, u, pc, Draw(w, s, k)) && !pc.Returned?
    requires s'.db == ApplyDb(s.db, u, e) && s'.files == ApplyFiles(s.files, e) && s'.calls == map[u := e.pc]
    requires s'.puts == s.puts && s'.issued == s.issued + {w.draw(s.issued)}
    requires WorldOk(w) && Core(cfg, s)
    ensures Drive(cfg, w, s, u, k) == Drive(cfg, w, s', u, k + 1) && Core(cfg, s')
  {
    hide Act, Core;
    Stepped(cfg, w, s, u, k, pc, e, s');
    AdvanceKeepsCore(cfg, s, u, Draw(w, s, k));
    Follow(cfg, w, s, u, k, s');
  }

  /** The same for a step that only moves the call on. */
  lemma Moved(cfg: Config, w: World, s: Sys, u: Id, k: nat, pc: Pc, pc': Pc, s': Sys)
    requires s.calls == map[u := pc] && Act(cfg, s.db, s.files, u, pc, Draw(w, s, k)) == Goto(pc') && !pc.Returned?
    requires s'.db == s.db && s'.files == s.files && s'.calls == map[u := pc']
    requires s'.puts == s.puts && s'.issued == s.issued + {w.draw(s.issued)}
    requires WorldOk(w) && Core(cfg, s)
    ensures Drive(cfg, w, s, u, k) == Drive(cfg, w, s', u, k + 1) && Core(cfg, s')
  {
    hide Act, Core;
    Took(cfg, w, s, u, k, pc, Goto(pc'), s');
  }

  lemma ActOfCandidate(cfg: Config, db: Db, files: Files, u: Id, pc: Pc, ch: Choice)
    requires pc.LoadCandidate? || pc.CheckCandidate? || pc.CheckActual?
    ensures pc.LoadCandidate? ==>
      Act(cfg, db, files, u, pc, ch) == Goto(
        if ch.fault != Works then Returned(Err(StorageError))
        else var found := FindBlob(db, pc.ready.account, pc.ready.request.blake3);
             if found.Some? then CheckCandidate(pc.ready, pc.attempt, CandidateOf(found.value, db.blobs[found.value]))
             else MetadataTx(pc.ready, pc.attempt, pc.approved))
    ensures pc.CheckCandidate? ==>
      Act(cfg, db, files, u, pc, ch) == Goto(
        if ch.fault == Works && CandidateValid(cfg, files, pc.ready, pc.candidate)
        then MetadataTx(pc.ready, pc.attempt, Some(pc.candidate)) else Mark(Unknown))
    ensures pc.CheckActual? ==>
      Act(cfg, db, files, u, pc, ch) == Goto(
        if ch.fault == Works && CandidateValid(cfg, files, pc.ready, pc.candidate)
        then NextTry(pc.ready, pc.attempt + 1, Some(pc.candidate)) else Mark(Unknown))
  {
    hide ActMetadataTx, ActLoad, ActBeginTx;
  }

  /** Where the loop of `commit_metadata_with_race_retry` stands. */
  function NextTry(ready: Ready, attempt: nat, approved: Option<Candidate>): Pc {
    if attempt < TRIES then LoadCandidate(ready, attempt, approved) else Returned(Err(Conflict))
  }

  /** Where the call stands once that loop has ended. */
  function AfterRace(ready: Ready, r: Result<Outcome, Refusal>): Pc {
    if r.Ok? && ready.staged.Some? then DropStage(ready, r.value, false) else Returned(r)
  }

  lemma ActOfInspect(cfg: Config, db: Db, files: Files, u: Id, pc: Pc, ch: Choice)
    requires pc.InspectStarted? || pc.InspectFinal? || pc.InspectStage?
    ensures pc.InspectStarted? ==>
      Act(cfg, db, files, u, pc, ch)
      == if ch.fault != Works then Goto(Mark(Unknown)) else ActInspectStarted(cfg, files, pc.ready)
    ensures pc.InspectFinal? ==>
      Act(cfg, db, files, u, pc, ch)
      == if ch.fault != Works then Goto(Mark(Unknown)) else ActInspectFinal(cfg, files, pc.ready)
    ensures pc.InspectStage? ==>
      Act(cfg, db, files, u, pc, ch)
      == if ch.fault != Works then Goto(Mark(Unknown)) else ActInspectStage(cfg, files, u, pc.ready)
  {
  }

  lemma ActOfStorage(cfg: Config, db: Db, files: Files, u: Id, pc: Pc, ch: Choice)
    requires pc.Publish? || pc.Assemble? || pc.DropStage?
    ensures pc.Publish? ==> Act(cfg, db, files, u, pc, ch) == ActPublish(cfg, files, u, pc.ready, ch.fault)
    ensures pc.Assemble? ==>
      Act(cfg, db, files, u, pc, ch)
      == if ch.fault != Works then Refuse(StorageError) else ActAssemble(cfg, files, u, pc.ready)
    ensures pc.DropStage? ==>
      Act(cfg, db, files, u, pc, ch) == ActDropStage(files, u, pc.ready, pc.outcome, pc.strict, ch.fault)
  {
  }

  lemma ActOfMark(cfg: Config, db: Db, files: Files, u: Id, pc: Pc, ch: Choice)
    requires pc.Mark?
    ensures Act(cfg, db, files, u, pc, ch)
         == if ch.fault != Works then Refuse(StorageError) else ActMark(db, u, pc.target)
  {
  }

  lemma ActOfMetadataTx(cfg: Config, db: Db, files: Files, u: Id, pc: Pc, ch: Choice)
    requires pc.MetadataTx?
    ensures Act(cfg, db, files, u, pc, ch)
         == if ch.fault != Works then Refuse(StorageError)
            else ActMetadataTx(db, u, pc.ready, pc.attempt, pc.approved, ch.uuid)
  {
  }

  datatype MetadataResult =
    | Done(outcome: Outcome)
    | ValidateCandidate(candidate: Candidate)
    | AccountPathChanged
    | Refused(reason: Refusal)

  /** Where a call stands after its metadata transaction. */
  function AfterMetadata(ready: Ready, attempt: nat, m: MetadataResult): Pc {
    match m
    case Done(outcome) =>
      if ready.staged.Some? then DropStage(ready, outcome, false) else Returned(Ok(outcome))
    case ValidateCandidate(c) => CheckActual(ready, attempt, c)
    case AccountPathChanged => Mark(Unknown)
    case Refused(reason) => Returned(Err(reason))
  }

  lemma ActOfToFinalizing(cfg: Config, db: Db, files: Files, u: Id, pc: Pc, ch: Choice)
    requires pc.ToFinalizing?
    ensures Act(cfg, db, files, u, pc, ch)
         == if ch.fault != Works then Refuse(StorageError) else ActToFinalizing(db, u, pc.ready)
  {
  }

  /** The files and the answer `publish_commit` gives are those of its step. */
  lemma PublishEffect(cfg: Config, files: Files, u: Id, ready: Ready, fault: Fault, files': Files, ok: bool)
    requires ready.staged.Some?
    requires var valid := IsStageOf(ready.path, u, ready.staged.value) && InScope(ready.path, ready.final)
        && InspectFile(cfg, files, ready.staged.value, ready.request.size, ready.request.blake3) == Matches;
      && files' == (if valid && fault != Fails && ready.final !in files
                    then files[ready.final := files[ready.staged.value]] else files)
      && (ok <==> valid && fault == Works
                  && InspectFile(cfg, files', ready.final, ready.request.size, ready.request.blake3) == Matches)
    ensures var e := ActPublish(cfg, files, u, ready, fault);
      && e.row.None? && e.blob.None? && e.resource.None? && ApplyFiles(files, e) == files'
      && e.pc == if ok then LoadCandidate(ready, 0, None) else Mark(Unknown)
  {
  }

  lemma MetadataTouchesNoFile(db: Db, u: Id, ready: Ready, attempt: nat, approved: Option<Candidate>, uuid: Id)
    ensures var e := ActMetadataTx(db, u, ready, attempt, approved, uuid); e.write.None? && e.remove.None?
  {
  }

  /** Where a call stands with the record it loaded, or without one. */
  function AfterLoad(r: Result<(Upload, string), Refusal>): Pc {
    match r
    case Ok((row, path)) => Dispatch(row, path)
    case Err(reason) => Returned(Err(reason))
  }

  lemma ActOfBegin(cfg: Config, db: Db, files: Files, u: Id, pc: Pc, ch: Choice)
    requires pc.Load? || pc.BeginCheck? || pc.BeginTx? || pc.Reload?
    ensures ch.fault != Works ==> Act(cfg, db, files, u, pc, ch) == Goto(Returned(Err(StorageError)))
    ensures ch.fault == Works && pc.Load? ==>
      Act(cfg, db, files, u, pc, ch) == Goto(ActLoad(db, u, pc.required).pc)
    ensures ch.fault == Works && pc.BeginCheck? ==>
      Act(cfg, db, files, u, pc, ch) == Goto(
        if pc.request.parts == [] then Mark(Failed)
        else if PartsSize(pc.request.parts) > U64_MAX then Returned(Err(Conflict))
        else if pc.request.size != PartsSize(pc.request.parts) then Mark(Failed)
        else if u in db.uploads && !AllReceived(db.uploads[u]) then Returned(Err(Conflict))
        else BeginTx(pc.account, pc.request))
    ensures ch.fault == Works && pc.BeginTx? ==>
      Act(cfg, db, files, u, pc, ch) == ActBeginTx(db, u, pc.account, pc.request, ch.uuid)
    ensures ch.fault == Works && pc.Reload? ==>
      Act(cfg, db, files, u, pc, ch) == Goto(
        if u in db.uploads && db.uploads[u].commit !in {Started, Finalizing} then Returned(Err(Conflict))
        else ActLoad(db, u, Some(pc.account)).pc)
  {
    hide ActMetadataTx, ActBeginTx;
  }

  lemma BeginTouchesNoFile(db: Db, u: Id, account: Id, request: Request, uuid: Id)
    ensures var e := ActBeginTx(db, u, account, request, uuid);
      e.write.None? && e.remove.None? && e.blob.None? && e.resource.None?
  {
  }

  lemma ActOfCommitted(cfg: Config, db: Db, files: Files, u: Id, pc: Pc, ch: Choice)
    requires pc.CheckMetadata? || pc.CheckObject?
    ensures pc.CheckMetadata? ==>
      Act(cfg, db, files, u, pc, ch) == Goto(
        if ch.fault != Works then Returned(Err(StorageError))
        else if CommittedMetadataOk(db, pc.ready, pc.resource)
        then CheckObject(pc.ready, Outcome(pc.resource, pc.ready.asset, pc.deduplicated)) else Mark(Unknown))
    ensures pc.CheckObject? ==>
      Act(cfg, db, files, u, pc, ch)
      == if ch.fault != Works then Goto(Mark(Unknown)) else ActCheckObject(cfg, files, pc.ready, pc.outcome)
  {
    hide ActMetadataTx, CommittedMetadataOk;
  }

  /** How one turn of a reclamation pass ends. */
  datatype Turn = NoOrphan | Gone | Kept | Aborted

  /** One unfolding of a reclamation pass. */
  lemma ReclaimNext(w: World, s: Sys, blobs: seq<Id>, k: nat)
    requires blobs != []
    ensures ReclaimAll(w, s, blobs, k)
         == if !Orphan(s.db, blobs[0]) || !OwnObject(s.db, blobs[0]) || w.fault(k) == Fails
            then ReclaimAll(w, s, blobs[1..], k + 1)
            else if w.fault(k) == Works then ReclaimAll(w, Reclaimed(s, blobs[0], false), blobs[1..], k + 1)
            else (Reclaimed(s, blobs[0], true), k + 1, false)
  {
  }

  /** Without one blob row, the others are orphans as before. */
  lemma OtherOrphansStay(db: Db, db': Db, b: Id)
    requires db' == db.(blobs := db.blobs - {b})
    ensures !Orphan(db', b) && forall c :: c != b ==> (Orphan(db, c) <==> Orphan(db', c))
  {
  }

  /** The listed blobs that are still orphans. */
  ghost function Leftover(db: Db, listed: seq<Id>): set<Id> {
    set b | b in listed && Orphan(db, b)
  }

  lemma LeftoverStep(db: Db, db': Db, listed: seq<Id>, i: nat, outcome: Turn)
    requires i < |listed| && Distinct(listed)
    requires forall c :: c != listed[i] ==> (Orphan(db, c) <==> Orphan(db', c))
    requires Orphan(db', listed[i]) <==> outcome == Kept
    ensures |Leftover(db', listed[..i + 1])| == |Leftover(db, listed[..i])| + (if outcome == Kept then 1 else 0)
  {
    hide Orphan;
    var b := listed[i];
    var before, after := Leftover(db, listed[..i]), Leftover(db', listed[..i + 1]);
    assert listed[..i + 1] == listed[..i] + [b] && b !in listed[..i];
    hide Distinct;
    forall c ensures c in after <==> c in before || (c == b && outcome == Kept) {
      if c != b {
        assert c in listed[..i] + [b] <==> c in listed[..i];
      }
    }
    assert after == before + (if outcome == Kept then {b} else {}) && b !in before;
  }

  lemma NoneLeftover(db: Db, listed: seq<Id>)
    ensures |Leftover(db, listed)| == 0 <==> forall b :: b in listed ==> !Orphan(db, b)
  {
    hide Orphan;
    if forall b :: b in listed ==> !Orphan(db, b) {
      assert Leftover(db, listed) == {};
    } else {
      var b :| b in listed && Orphan(db, b);
      assert b in Leftover(db, listed);
    }
  }

  lemma NothingLeftover(db: Db, listed: seq<Id>)
    requires |Leftover(db, listed)| == 0
    ensures forall b :: b in listed ==> !Orphan(db, b)
  {
    forall b | b in listed ensures !Orphan(db, b) {
      assert b !in Leftover(db, listed);
    }
  }

  /** How the uploads of a pass fared: those recovered, those now unknown, and
      those refused otherwise. */
  datatype Tally = Tally(recovered: nat, unknown: nat, errors: nat)

  function TallyOf(t: Tally, before: Commit, ok: bool, unknown: bool): Tally {
    if ok then (if before != Committed then t.(recovered := t.recovered + 1) else t)
    else if unknown then t.(unknown := t.unknown + 1) else t.(errors := t.errors + 1)
  }

  ghost function Recovered(before: map<Id, Upload>, after: map<Id, Upload>, ids: seq<Id>): set<Id> {
    set u | u in ids && u in before && u in after && before[u].commit != Committed && after[u].commit == Committed
  }

  ghost function Unresolved(after: map<Id, Upload>, ids: seq<Id>): set<Id> {
    set u | u in ids && u in after && after[u].commit == Unknown
  }

  /** Refused, for another reason than an upload that is now unknown. */
  ghost function Refused(after: map<Id, Upload>, ids: seq<Id>, answered: set<Id>): set<Id> {
    set u | u in ids && u !in answered && u !in Unresolved(after, ids)
  }

  /** The counters count what they say, row by row. */
  ghost predicate Tallied(t: Tally, before: map<Id, Upload>, after: map<Id, Upload>, ids: seq<Id>, answered: set<Id>) {
    t.recovered == |Recovered(before, after, ids)| && t.unknown == |Unresolved(after, ids)|
    && t.errors == |Refused(after, ids, answered)|
  }

  /** Only the uploads of `ids` have changed. */
  ghost predicate AsBefore(before: map<Id, Upload>, after: map<Id, Upload>, ids: seq<Id>) {
    after.Keys == before.Keys && forall v :: v in before && v !in ids ==> after[v] == before[v]
  }

  lemma NothingTallied(uploads: map<Id, Upload>, ids: seq<Id>)
    ensures Tallied(Tally(0, 0, 0), uploads, uploads, ids[..0], {}) && AsBefore(uploads, uploads, ids[..0])
  {
    assert Recovered(uploads, uploads, []) == {} && Unresolved(uploads, []) == {} && Refused(uploads, [], {}) == {};
    assert ids[..0] == [];
  }

  /** What the answer of one completion tells of its upload. */
  lemma CompletionTells(cfg: Config, w: World, s: Sys, u: Id, k: nat)
    requires Inv(cfg, s) && WorldOk(w) && s.calls == map[] && u in s.db.uploads
    ensures var s' := Complete(cfg, w, s, u, k).0;
      && Inv(cfg, s'.(calls := map[])) && AsBefore(s.db.uploads, s'.db.uploads, [u])
      && (s'.calls[u].result.Ok? ==> s'.db.uploads[u].commit == Committed)
      && (s'.calls[u].result.Err? && s.db.uploads[u].commit != Committed ==> s'.db.uploads[u].commit != Committed)
  {
    var s0 := s.(calls := s.calls[u := Load(None)]);
    assert Enabled(cfg, s, Begin(u, None));
    CallKeeps(cfg, s, Begin(u, None));
    DriveKeepsInv(cfg, w, s0, u, k);
    DriveOnlyOwn(cfg, w, s0, u, k);
    RunsNameObjects(cfg, s, u);
    SuccessIsVerified(cfg, w, s, u, k);
    if s.db.uploads[u].commit != Committed {
      AnswerTellsCommit(cfg, w, s0, u, k);
    }
    hide Core, Drive, Later;
    var s' := Complete(cfg, w, s, u, k).0;
    CallKeeps(cfg, s', Crash);
    NoPutsLeft(cfg, s');
  }

  lemma SettleNone(cfg: Config, w: World, s: Sys, ids: seq<Id>, k: nat)
    ensures SettleAll(cfg, w, s, ids[..0], k) == (s, k)
    ensures AnsweredUpTo(cfg, w, s, ids, k, 0, {})
  {
  }

  /** How far the loop over the uploads has come. */
  ghost predicate PassSoFar(cfg: Config, w: World, s: Sys, ids: seq<Id>, k: nat, i: nat, s': Sys, k': nat, t: Tally,
                            answered: set<Id>)
    requires i <= |ids|
  {
    && SettleAll(cfg, w, s, ids[..i], k) == (s', k')
    && AsBefore(s.db.uploads, s'.db.uploads, ids[..i])
    && Tallied(t, s.db.uploads, s'.db.uploads, ids[..i], answered)
    && AnsweredUpTo(cfg, w, s, ids, k, i, answered)
  }

  lemma PassBegins(cfg: Config, w: World, s: Sys, ids: seq<Id>, k: nat)
    ensures PassSoFar(cfg, w, s, ids, k, 0, s, k, Tally(0, 0, 0), {})
  {
    NothingTallied(s.db.uploads, ids);
    SettleNone(cfg, w, s, ids, k);
  }

  /** One turn of the loop. */
  lemma PassGoesOn(cfg: Config, w: World, s: Sys, ids: seq<Id>, k: nat, i: nat, s1: Sys, k1: nat, t: Tally,
                   answered: set<Id>, s': Sys, k': nat, ok: bool)
    requires i < |ids| && Distinct(ids) && ids[i] in s.db.uploads && ids[i] in s1.db.uploads
    requires PassSoFar(cfg, w, s, ids, k, i, s1, k1, t, answered)
    requires Settle(cfg, w, s1, ids[i], k1) == (s', k') && AsBefore(s1.db.uploads, s'.db.uploads, [ids[i]])
    requires ok <==> Complete(cfg, w, s1, ids[i], k1).0.calls[ids[i]].result.Ok?
    requires ok ==> s'.db.uploads[ids[i]].commit == Committed
    requires !ok && s1.db.uploads[ids[i]].commit != Committed ==> s'.db.uploads[ids[i]].commit != Committed
    ensures var u := ids[i];
      PassSoFar(cfg, w, s, ids, k, i + 1, s', k',
                TallyOf(t, s1.db.uploads[u].commit, ok, s'.db.uploads[u].commit == Unknown),
                if ok then answered + {u} else answered)
  {
    hide Tallied, Settle, SettleAll, AnsweredUpTo, AsBefore, Complete;
    NotYetAnswered(cfg, w, s, ids, k, i, answered);
    SettleOneMore(cfg, w, s, ids[..i], ids[i], k);
    assert ids[..i] + [ids[i]] == ids[..i + 1];
    TallyStep(t, s.db.uploads, s1.db.uploads, s'.db.uploads, ids, i, answered, ok);
    OneMoreAnswer(cfg, w, s, ids, k, i, answered, ok);
  }

  /** Of the first `n` uploads, exactly these completions answered with success. */
  ghost predicate AnsweredUpTo(cfg: Config, w: World, s: Sys, ids: seq<Id>, k: nat, n: nat, answered: set<Id>)
    requires n <= |ids|
  {
    (forall j :: 0 <= j < n ==> (ids[j] in answered <==> AnswersOk(cfg, w, s, ids, k, j)))
    && forall u :: u in answered ==> u in ids[..n]
  }

  lemma NotYetAnswered(cfg: Config, w: World, s: Sys, ids: seq<Id>, k: nat, i: nat, answered: set<Id>)
    requires i < |ids| && Distinct(ids) && AnsweredUpTo(cfg, w, s, ids, k, i, answered)
    ensures ids[i] !in answered
  {
  }

  lemma OneMoreAnswer(cfg: Config, w: World, s: Sys, ids: seq<Id>, k: nat, i: nat, answered: set<Id>, ok: bool)
    requires i < |ids| && Distinct(ids) && AnsweredUpTo(cfg, w, s, ids, k, i, answered)
    requires ok <==> var (t, k') := SettleAll(cfg, w, s, ids[..i], k);
                     Complete(cfg, w, t, ids[i], k').0.calls[ids[i]].result.Ok?
    ensures AnsweredUpTo(cfg, w, s, ids, k, i + 1, if ok then answered + {ids[i]} else answered)
  {
    hide SettleAll, Complete;
    assert ids[..i + 1] == ids[..i] + [ids[i]];
  }

  lemma AllAnswered(cfg: Config, w: World, s: Sys, ids: seq<Id>, k: nat, answered: set<Id>)
    requires AnsweredUpTo(cfg, w, s, ids, k, |ids|, answered)
    ensures answered == Answered(cfg, w, s, ids, k)
  {
    hide AnswersOk;
    forall u | u in answered ensures u in Answered(cfg, w, s, ids, k) {
      var j :| 0 <= j < |ids| && ids[j] == u;
      assert AnswersOk(cfg, w, s, ids, k, j);
    }
  }

  lemma PassEnds(cfg: Config, w: World, s: Sys, ids: seq<Id>, k: nat, s': Sys, k': nat, t: Tally, answered: set<Id>)
    requires PassSoFar(cfg, w, s, ids, k, |ids|, s', k', t, answered)
    ensures SettleAll(cfg, w, s, ids, k) == (s', k')
    ensures Tallied(t, s.db.uploads, s'.db.uploads, ids, Answered(cfg, w, s, ids, k))
  {
    hide Tallied, SettleAll, Answered, AsBefore;
    assert ids[..|ids|] == ids;
    AllAnswered(cfg, w, s, ids, k, answered);
  }

  lemma NoPutsLeft(cfg: Config, s: Sys)
    requires Inv(cfg, s)
    ensures Inv(cfg, s.(calls := map[]))
  {
  }

  /** One more upload: its own row alone may have changed. */
  lemma TallyStep(t: Tally, before: map<Id, Upload>, mid: map<Id, Upload>, after: map<Id, Upload>, ids: seq<Id>, i: nat,
                  answered: set<Id>, ok: bool)
    requires i < |ids| && Distinct(ids) && ids[i] in before && ids[i] !in answered
    requires AsBefore(before, mid, ids[..i]) && AsBefore(mid, after, [ids[i]])
    requires Tallied(t, before, mid, ids[..i], answered)
    requires ok ==> after[ids[i]].commit == Committed
    requires !ok && mid[ids[i]].commit != Committed ==> after[ids[i]].commit != Committed
    ensures AsBefore(before, after, ids[..i + 1])
    ensures Tallied(TallyOf(t, mid[ids[i]].commit, ok, after[ids[i]].commit == Unknown), before, after, ids[..i + 1],
                    if ok then answered + {ids[i]} else answered)
  {
    var u := ids[i];
    assert ids[..i + 1] == ids[..i] + [u] && u !in ids[..i];
    RecoveredStep(before, mid, after, ids[..i], u);
    UnresolvedStep(mid, after, ids[..i], u);
    RefusedStep(mid, after, ids[..i], u, answered, ok);
    hide Recovered, Unresolved, Refused;
  }

  lemma RefusedStep(mid: map<Id, Upload>, after: map<Id, Upload>, seen: seq<Id>, u: Id, answered: set<Id>, ok: bool)
    requires AsBefore(mid, after, [u]) && u !in seen && u in mid && u !in answered
    ensures |Refused(after, seen + [u], if ok then answered + {u} else answered)|
         == |Refused(mid, seen, answered)| + (if !ok && after[u].commit != Unknown then 1 else 0)
  {
    var answered' := if ok then answered + {u} else answered;
    forall v ensures v in Refused(after, seen + [u], answered') <==>
      v in Refused(mid, seen, answered) || (v == u && !ok && after[u].commit != Unknown)
    {
      if v != u {
        assert v in seen + [u] <==> v in seen;
      }
    }
    assert Refused(after, seen + [u], answered')
        == Refused(mid, seen, answered) + (if !ok && after[u].commit != Unknown then {u} else {});
  }

  lemma RecoveredStep(before: map<Id, Upload>, mid: map<Id, Upload>, after: map<Id, Upload>, seen: seq<Id>, u: Id)
    requires AsBefore(before, mid, seen) && AsBefore(mid, after, [u]) && u !in seen && u in before
    ensures |Recovered(before, after, seen + [u])|
         == |Recovered(before, mid, seen)|
            + (if before[u].commit != Committed && after[u].commit == Committed then 1 else 0)
  {
    forall v ensures v in Recovered(before, after, seen + [u]) <==>
      v in Recovered(before, mid, seen) || (v == u && before[u].commit != Committed && after[u].commit == Committed)
    {
      if v != u {
        assert v in seen + [u] <==> v in seen;
      }
    }
    assert Recovered(before, after, seen + [u])
        == Recovered(before, mid, seen)
           + (if before[u].commit != Committed && after[u].commit == Committed then {u} else {});
  }

  lemma UnresolvedStep(mid: map<Id, Upload>, after: map<Id, Upload>, seen: seq<Id>, u: Id)
    requires AsBefore(mid, after, [u]) && u !in seen && u in mid
    ensures |Unresolved(after, seen + [u])| == |Unresolved(mid, seen)| + (if after[u].commit == Unknown then 1 else 0)
  {
    forall v ensures v in Unresolved(after, seen + [u]) <==>
      v in Unresolved(mid, seen) || (v == u && after[u].commit == Unknown)
    {
      if v != u {
        assert v in seen + [u] <==> v in seen;
      }
    }
    assert Unresolved(after, seen + [u]) == Unresolved(mid, seen) + (if after[u].commit == Unknown then {u} else {});
  }

  /** What a reconciliation pass did; `tally.errors` counts the orphans it could
      not remove, too. */
  datatype ReconcileReport = ReconcileReport(tally: Tally, orphanBlobsRemoved: nat, orphanStagesRemoved: nat)

  /** The report of a whole pass: the counters of the uploads, of the blob rows
      and of the files that are gone. */
  ghost predicate Reported(report: ReconcileReport, t: Tally, s1: Sys, s2: Sys, s': Sys, listed: seq<Id>) {
    && report.tally == t.(errors := t.errors + |Leftover(s'.db, listed)|)
    && report.orphanBlobsRemoved == |s1.db.blobs| - |s'.db.blobs|
    && report.orphanStagesRemoved == |s2.files| - |s'.files|
  }

  class Server {
    const cfg: Config
    const world: World
    const storage: LocalStorage
    var accounts: map<Id, Account>
    var assets: map<Id, Asset>
    var blobs: map<Id, Blob>
    var resources: map<Id, Resource>
    var uploads: map<Id, Upload>
    var issued: set<Id>
    var clock: nat

    /** A fresh installation for the given accounts. */
    constructor (cfg: Config, world: World, storage: LocalStorage, accounts: map<Id, Account>)
      requires storage.cfg == cfg && storage.files == map[] && WorldOk(world) && HashOk(cfg)
      requires forall a, b :: a in accounts && b in accounts && accounts[a].path == accounts[b].path ==> a == b
      ensures Valid() && Initial(cfg, View())
      ensures this.cfg == cfg && this.world == world && this.storage == storage && this.accounts == accounts
    {
      this.cfg, this.world, this.storage := cfg, world, storage;
      this.accounts := accounts;
      assets, blobs, resources, uploads := map[], map[], map[], map[];
      issued := {};
      clock := 0;
    }

    ghost function Rows(): Db
      reads this
    {
      Db(accounts, assets, blobs, resources, uploads)
    }

    /** The server with the completion of `u` standing at `pc`. */
    ghost function At(u: Id, pc: Pc): Sys
      reads this, storage
    {
      Sys(Rows(), storage.files, map[u := pc], map[], issued)
    }

    /** The server with no request running. */
    ghost function View(): Sys
      reads this, storage
    {
      Sys(Rows(), storage.files, map[], map[], issued)
    }

    ghost predicate Valid()
      reads this, storage
    {
      storage.cfg == cfg && WorldOk(world) && Core(cfg, View())
    }

    ghost predicate ValidAt(u: Id, pc: Pc)
      reads this, storage
    {
      storage.cfg == cfg && WorldOk(world) && Core(cfg, At(u, pc))
    }

    /** Draw a UUID and meet the next fault. */
    method Tick() returns (ch: Choice)
      modifies this`issued, this`clock
      ensures ch == Choice(world.draw(old(issued)), world.fault(old(clock)))
      ensures issued == old(issued) + {ch.uuid} && clock == old(clock) + 1
    {
      ch := Choice(world.draw(issued), world.fault(clock));
      issued := issued + {ch.uuid};
      clock := clock + 1;
    }

    // ----- queries ---------------------------------------------------------------------

    /** `load_blob_candidate`. */
    method LoadBlobCandidate(account: Id, blake3: string) returns (found: Option<Id>)
      requires UniqueBlobs(Rows())
      ensures found == FindBlob(Rows(), account, blake3)
      ensures found.Some? ==> found.value in blobs
    {
      if b :| b in blobs && blobs[b].account == account && blobs[b].blake3 == blake3 {
        assert IsContent(Rows(), b, account, blake3);
        found := Some(b);
      } else {
        assert forall b :: !IsContent(Rows(), b, account, blake3);
        found := None;
      }
    }

    method FindSlot(asset: Id, source: string) returns (found: Option<Id>)
      requires UniqueSlots(Rows())
      ensures found == FindResource(Rows(), asset, source)
    {
      if r :| r in resources && resources[r].asset == asset && resources[r].source == source {
        assert IsSlot(Rows(), r, asset, source);
        found := Some(r);
      } else {
        assert forall r :: !IsSlot(Rows(), r, asset, source);
        found := None;
      }
    }

    /** SELECT SUM(stored_size) FROM blobs. */
    method UsedBytes(account: Id) returns (sum: nat)
      ensures sum == MapSum(BlobSizes(Rows(), account))
    {
      var sizes := map b | b in blobs :: if blobs[b].account == account then blobs[b].size else 0;
      assert sizes == BlobSizes(Rows(), account);
      sum := SumOf(sizes);
    }

    /** SELECT SUM(expected_size) over the parts of unfinished uploads. */
    method ReservedBytes(account: Id, states: set<Commit>) returns (sum: nat)
      ensures sum == MapSum(Reservations(Rows(), account, states))
    {
      var sizes := map u | u in uploads ::
        if Reserves(uploads[u], account, states) then RowsSize(uploads[u].parts) else 0;
      assert sizes == Reservations(Rows(), account, states);
      sum := SumOf(sizes);
    }

    method SumOf(sizes: map<Id, nat>) returns (sum: nat)
      ensures sum == MapSum(sizes)
    {
      sum := 0;
      var rest := sizes;
      while rest != map[]
        invariant rest.Keys <= sizes.Keys && forall k :: k in rest ==> rest[k] == sizes[k]
        invariant sum + MapSum(rest) == MapSum(sizes)
        decreases |rest|
      {
        var k :| k in rest;
        MapSumRemove(rest, k);
        sum := sum + rest[k];
        rest := rest - {k};
      }
    }

    // ----- marks -------------------------------------------------------------------------

    /** `mark_unknown_message` and `mark_failed_message`: always a refusal. */
    method MarkCommit(u: Id, target: Commit) returns (r: Result<Outcome, Refusal>)
      requires ValidAt(u, Mark(target))
      modifies this
      ensures r.Err? && ValidAt(u, Returned(r))
      ensures Drive(cfg, world, old(At(u, Mark(target))), u, old(clock))
           == Drive(cfg, world, At(u, Returned(r)), u, clock)
    {
      hide Core, Act;
      ghost var s0, k0 := At(u, Mark(target)), clock;
      ActOfMark(cfg, s0.db, s0.files, u, Mark(target), Draw(world, s0, k0));
      var ch := Tick();
      if ch.fault != Works {
        r := Err(StorageError);
      } else {
        if u in uploads && !(target == Unknown && uploads[u].commit == Unknown) {
          uploads := uploads[u := uploads[u].(commit := target)];
        }
        r := Err(Conflict);
      }
      Took(cfg, world, s0, u, k0, Mark(target), Act(cfg, s0.db, s0.files, u, Mark(target), Draw(world, s0, k0)),
           At(u, Returned(r)));
    }

    /** `mark_unknown`. */
    method MarkUnknown(u: Id) returns (r: Result<Outcome, Refusal>)
      requires ValidAt(u, Mark(Unknown))
      modifies this
      ensures r.Err? && ValidAt(u, Returned(r))
      ensures Drive(cfg, world, old(At(u, Mark(Unknown))), u, old(clock))
           == Drive(cfg, world, At(u, Returned(r)), u, clock)
    {
      r := MarkCommit(u, Unknown);
    }

    // ----- the metadata transaction --------------------------------------------------------

    /** `validate_blob_candidate`, without its mark. */
    method ValidateBlobCandidate(ready: Ready, c: Candidate) returns (valid: bool)
      requires storage.cfg == cfg
      modifies this`issued, this`clock
      ensures valid <==> world.fault(old(clock)) == Works && CandidateValid(cfg, storage.files, ready, c)
      ensures issued == old(issued) + {world.draw(old(issued))} && clock == old(clock) + 1
    {
      var ch := Tick();
      if c.size != ready.request.size || c.blake3 != ready.request.blake3 {
        return false;
      }
      var seen := storage.InspectObject(ready.path, c.key, ready.request.size, ready.request.blake3, ch.fault);
      return seen == Ok(Matches);
    }

    /** Validate a candidate before the transaction, or `again` after it. */
    method ApproveCandidate(u: Id, ready: Ready, attempt: nat, c: Candidate, again: bool) returns (valid: bool)
      requires ValidAt(u, if again then CheckActual(ready, attempt, c) else CheckCandidate(ready, attempt, c))
      modifies this`issued, this`clock
      ensures var pc := if again then CheckActual(ready, attempt, c) else CheckCandidate(ready, attempt, c);
        var pc' := if !valid then Mark(Unknown)
          else if again then NextTry(ready, attempt + 1, Some(c)) else MetadataTx(ready, attempt, Some(c));
        ValidAt(u, pc')
        && Drive(cfg, world, old(At(u, pc)), u, old(clock)) == Drive(cfg, world, At(u, pc'), u, clock)
    {
      hide Core, Act, ActMetadataTx, Advance, Drive, CandidateValid;
      ghost var pc := if again then CheckActual(ready, attempt, c) else CheckCandidate(ready, attempt, c);
      ghost var s0, k0 := At(u, pc), clock;
      ActOfCandidate(cfg, s0.db, s0.files, u, pc, Draw(world, s0, k0));
      valid := ValidateBlobCandidate(ready, c);
      ghost var pc' := if !valid then Mark(Unknown)
        else if again then NextTry(ready, attempt + 1, Some(c)) else MetadataTx(ready, attempt, Some(c));
      Moved(cfg, world, s0, u, k0, pc, pc', At(u, pc'));
    }

    /** The body of `commit_metadata`: committed whole or not at all. */
    method MetadataTransaction(u: Id, ready: Ready, attempt: nat, approved: Option<Candidate>, uuid: Id)
      returns (m: MetadataResult)
      requires UniqueBlobs(Rows()) && UniqueSlots(Rows())
      modifies this`blobs, this`resources, this`uploads
      ensures var e := ActMetadataTx(old(Rows()), u, ready, attempt, approved, uuid);
        Rows() == ApplyDb(old(Rows()), u, e) && e.pc == AfterMetadata(ready, attempt, m)
    {
      hide FindBlob, FindResource, IsContent, IsSlot;
      if ready.account !in accounts || accounts[ready.account].path != ready.path {
        return AccountPathChanged;
      }
      var existing := LoadBlobCandidate(ready.account, ready.request.blake3);
      var inserts := ready.blob !in blobs && existing.None?;
      if !inserts && existing.None? {
        return Refused(Conflict);
      }
      var proposed := Blob(ready.account, ready.request.blake3, ready.request.size, ready.final);
      var id := if inserts then ready.blob else existing.value;
      var actual := if inserts then proposed else blobs[existing.value];
      var isApproved := (id == ready.blob && actual.key == ready.final)
        || (approved.Some? && approved.value.id == id && approved.value.key == actual.key);
      if !isApproved {
        return ValidateCandidate(CandidateOf(id, actual));
      }
      if ready.asset !in assets {
        return Refused(StorageError);
      }
      if u !in uploads || uploads[u].commit != Finalizing {
        return Refused(Conflict);
      }
      var outcome := AttachAndCommit(u, ready, id, actual, inserts, uuid);
      return Done(outcome);
    }

    /** The writes of a metadata transaction that goes through: the blob row if
        it is new, the resource, and the upload's own row. */
    method AttachAndCommit(u: Id, ready: Ready, id: Id, actual: Blob, inserts: bool, uuid: Id)
      returns (outcome: Outcome)
      requires UniqueSlots(Rows()) && u in uploads
      modifies this`blobs, this`resources, this`uploads
      ensures var slot := FindResource(old(Rows()), ready.asset, ready.request.sourceResource);
        outcome == Outcome(if slot.Some? then slot.value else uuid, ready.asset,
                           ready.staged.None? || id != ready.blob)
      ensures blobs == if inserts then old(blobs)[id := actual] else old(blobs)
      ensures resources == old(resources)[
        outcome.resource := Resource(ready.asset, id, ready.request.sourceResource)]
      ensures uploads == old(uploads)[
        u := old(uploads[u]).(done := true, commit := Committed, blob := Some(id), resource := Some(outcome.resource),
                              final := Some(actual.key), deduplicated := outcome.deduplicated)]
    {
      var slot := FindSlot(ready.asset, ready.request.sourceResource);
      outcome := Outcome(if slot.Some? then slot.value else uuid, ready.asset, ready.staged.None? || id != ready.blob);
      if inserts {
        blobs := blobs[id := actual];
      }
      resources := resources[outcome.resource := Resource(ready.asset, id, ready.request.sourceResource)];
      uploads := uploads[u := uploads[u].(done := true, commit := Committed, blob := Some(id),
                                          resource := Some(outcome.resource), final := Some(actual.key),
                                          deduplicated := outcome.deduplicated)];
    }

    /** `commit_metadata`. */
    method CommitMetadata(u: Id, ready: Ready, attempt: nat, approved: Option<Candidate>)
      returns (m: MetadataResult)
      requires ValidAt(u, MetadataTx(ready, attempt, approved))
      modifies this
      ensures clock == old(clock) + 1
      ensures At(u, AfterMetadata(ready, attempt, m))
           == Advance(cfg, old(At(u, MetadataTx(ready, attempt, approved))), u,
                      Draw(world, old(At(u, MetadataTx(ready, attempt, approved))), old(clock)))
    {
      hide Core, Act, ActMetadataTx, Advance;
      ghost var pc := MetadataTx(ready, attempt, approved);
      ghost var s0, k0 := At(u, pc), clock;
      TablesUnique(u, pc);
      MetadataTouchesNoFile(Rows(), u, ready, attempt, approved, world.draw(issued));
      ActOfMetadataTx(cfg, s0.db, s0.files, u, pc, Draw(world, s0, k0));
      var ch := Tick();
      if ch.fault != Works {
        m := Refused(StorageError);
      } else {
        m := MetadataTransaction(u, ready, attempt, approved, ch.uuid);
      }
      ghost var e := Act(cfg, s0.db, s0.files, u, pc, Draw(world, s0, k0));
      Stepped(cfg, world, s0, u, k0, pc, e, At(u, AfterMetadata(ready, attempt, m)));
    }

    /** `commit_metadata_with_race_retry`. */
    method CommitMetadataWithRaceRetry(u: Id, ready: Ready) returns (r: Result<Outcome, Refusal>)
      requires ValidAt(u, LoadCandidate(ready, 0, None))
      modifies this
      ensures ValidAt(u, AfterRace(ready, r))
      ensures Drive(cfg, world, old(At(u, LoadCandidate(ready, 0, None))), u, old(clock))
           == Drive(cfg, world, At(u, AfterRace(ready, r)), u, clock)
    {
      hide Core, Act, ActMetadataTx, Advance, Drive, CandidateValid;
      var approved: Option<Candidate> := None;
      for attempt := 0 to TRIES
        invariant ValidAt(u, NextTry(ready, attempt, approved))
        invariant Drive(cfg, world, old(At(u, LoadCandidate(ready, 0, None))), u, old(clock))
               == Drive(cfg, world, At(u, NextTry(ready, attempt, approved)), u, clock)
      {
        var tried, next := OneTry(u, ready, attempt, approved);
        if tried.Some? {
          return tried.value;
        }
        approved := Some(next);
      }
      return Err(Conflict);
    }

    /** One turn of the loop: an answer, or a candidate to try again with. */
    method OneTry(u: Id, ready: Ready, attempt: nat, approved: Option<Candidate>)
      returns (r: Option<Result<Outcome, Refusal>>, next: Candidate)
      requires attempt < TRIES && ValidAt(u, LoadCandidate(ready, attempt, approved))
      modifies this
      ensures var pc' := if r.Some? then AfterRace(ready, r.value) else NextTry(ready, attempt + 1, Some(next));
        ValidAt(u, pc')
        && Drive(cfg, world, old(At(u, LoadCandidate(ready, attempt, approved))), u, old(clock))
           == Drive(cfg, world, At(u, pc'), u, clock)
    {
      hide Core, Act, ActMetadataTx, Advance, Drive, CandidateValid;
      next := Candidate(0, PartFile(0, 0), 0, "");
      var candidate := approved;
      ghost var pc0 := LoadCandidate(ready, attempt, approved);
      ghost var s0, k0 := At(u, pc0), clock;
      TablesUnique(u, pc0);
      ActOfCandidate(cfg, s0.db, s0.files, u, pc0, Draw(world, s0, k0));
      var ch := Tick();
      if ch.fault != Works {
        r := Some(Err(StorageError));
        Moved(cfg, world, s0, u, k0, pc0, Returned(Err(StorageError)), At(u, Returned(Err(StorageError))));
        return;
      }
      var found := LoadBlobCandidate(ready.account, ready.request.blake3);
      if found.Some? {
        var c := CandidateOf(found.value, blobs[found.value]);
        ghost var pc1 := CheckCandidate(ready, attempt, c);
        Moved(cfg, world, s0, u, k0, pc0, pc1, At(u, pc1));
        var valid := ApproveCandidate(u, ready, attempt, c, false);
        if !valid {
          var refused := MarkUnknown(u);
          r := Some(refused);
          return;
        }
        candidate := Some(c);
      } else {
        Moved(cfg, world, s0, u, k0, pc0, MetadataTx(ready, attempt, candidate),
              At(u, MetadataTx(ready, attempt, candidate)));
      }
      r, next := FinishTry(u, ready, attempt, candidate);
    }

    /** The transaction of one turn, and what its result calls for. */
    method FinishTry(u: Id, ready: Ready, attempt: nat, approved: Option<Candidate>)
      returns (r: Option<Result<Outcome, Refusal>>, next: Candidate)
      requires attempt < TRIES && ValidAt(u, MetadataTx(ready, attempt, approved))
      modifies this
      ensures var pc' := if r.Some? then AfterRace(ready, r.value) else NextTry(ready, attempt + 1, Some(next));
        ValidAt(u, pc')
        && Drive(cfg, world, old(At(u, MetadataTx(ready, attempt, approved))), u, old(clock))
           == Drive(cfg, world, At(u, pc'), u, clock)
    {
      hide Core, Act, ActMetadataTx, Advance, Drive, CandidateValid;
      next := Candidate(0, PartFile(0, 0), 0, "");
      ghost var s0, k0 := At(u, MetadataTx(ready, attempt, approved)), clock;
      var m := CommitMetadata(u, ready, attempt, approved);
      ghost var s1 := At(u, AfterMetadata(ready, attempt, m));
      AdvanceKeepsCore(cfg, s0, u, Draw(world, s0, k0));
      Follow(cfg, world, s0, u, k0, s1);
      match m {
        case Done(outcome) =>
          r := Some(Ok(outcome));
        case Refused(reason) =>
          r := Some(Err(reason));
        case AccountPathChanged =>
          var refused := MarkUnknown(u);
          r := Some(refused);
        case ValidateCandidate(c) =>
          var valid := ApproveCandidate(u, ready, attempt, c, true);
          if valid {
            r, next := None, c;
          } else {
            var refused := MarkUnknown(u);
            r := Some(refused);
          }
      }
    }

    // ----- the finalizing half ----------------------------------------------------------------

    /** Make sure the object is published, or say that it cannot be proved. */
    method ProvePublished(u: Id, ready: Ready) returns (ok: bool)
      requires ValidAt(u, InspectFinal(ready))
      modifies this, storage
      ensures var pc' := if ok then LoadCandidate(ready, 0, None) else Mark(Unknown);
        ValidAt(u, pc')
        && Drive(cfg, world, old(At(u, InspectFinal(ready))), u, old(clock)) == Drive(cfg, world, At(u, pc'), u, clock)
    {
      hide Core, Act, Advance, Drive, ContentIs;
      var size, blake3 := ready.request.size, ready.request.blake3;
      ghost var s0, k0 := At(u, InspectFinal(ready)), clock;
      ActOfInspect(cfg, s0.db, s0.files, u, InspectFinal(ready), Draw(world, s0, k0));
      var ch := Tick();
      var seen := storage.InspectObject(ready.path, ready.final, size, blake3, ch.fault);
      if seen != Ok(Missing) || ready.staged.None? {
        ok := seen == Ok(Matches);
        ghost var pc' := if ok then LoadCandidate(ready, 0, None) else Mark(Unknown);
        Moved(cfg, world, s0, u, k0, InspectFinal(ready), pc', At(u, pc'));
        return;
      }
      Moved(cfg, world, s0, u, k0, InspectFinal(ready), InspectStage(ready), At(u, InspectStage(ready)));
      ok := PublishStaged(u, ready);
    }

    /** Publish from the stage, which must hold the content. */
    method PublishStaged(u: Id, ready: Ready) returns (ok: bool)
      requires ValidAt(u, InspectStage(ready)) && ready.staged.Some?
      modifies this, storage
      ensures var pc' := if ok then LoadCandidate(ready, 0, None) else Mark(Unknown);
        ValidAt(u, pc')
        && Drive(cfg, world, old(At(u, InspectStage(ready))), u, old(clock)) == Drive(cfg, world, At(u, pc'), u, clock)
    {
      hide Core, Act, Advance, Drive, ContentIs;
      var size, blake3 := ready.request.size, ready.request.blake3;
      ghost var s0, k0 := At(u, InspectStage(ready)), clock;
      ActOfInspect(cfg, s0.db, s0.files, u, InspectStage(ready), Draw(world, s0, k0));
      var ch := Tick();
      var seen := storage.InspectCommitStage(ready.path, u, ready.staged.value, size, blake3, ch.fault);
      if seen != Ok(Matches) {
        Moved(cfg, world, s0, u, k0, InspectStage(ready), Mark(Unknown), At(u, Mark(Unknown)));
        return false;
      }
      Moved(cfg, world, s0, u, k0, InspectStage(ready), Publish(ready), At(u, Publish(ready)));
      ok := PublishObject(u, ready);
    }

    /** Publish, and say whether the object is proved to be there. */
    method PublishObject(u: Id, ready: Ready) returns (ok: bool)
      requires ValidAt(u, Publish(ready)) && ready.staged.Some?
      modifies this, storage
      ensures var pc' := if ok then LoadCandidate(ready, 0, None) else Mark(Unknown);
        ValidAt(u, pc')
        && Drive(cfg, world, old(At(u, Publish(ready))), u, old(clock)) == Drive(cfg, world, At(u, pc'), u, clock)
    {
      hide Core, Act, Advance, Drive, ContentIs;
      ghost var s0, k0 := At(u, Publish(ready)), clock;
      ActOfStorage(cfg, s0.db, s0.files, u, Publish(ready), Draw(world, s0, k0));
      ghost var e := Act(cfg, s0.db, s0.files, u, Publish(ready), Draw(world, s0, k0));
      var ch := Tick();
      ok := storage.PublishCommit(ready.path, u, ready.staged.value, ready.final, ready.request.size,
                                  ready.request.blake3, ch.fault);
      ghost var pc' := if ok then LoadCandidate(ready, 0, None) else Mark(Unknown);
      PublishEffect(cfg, s0.files, u, ready, ch.fault, storage.files, ok);
      Took(cfg, world, s0, u, k0, Publish(ready), e, At(u, pc'));
    }

    /** `remove_commit_stage`, and what its failure means for the caller. */
    method RemoveStage(u: Id, ready: Ready, outcome: Outcome, strict: bool) returns (r: Result<Outcome, Refusal>)
      requires ValidAt(u, DropStage(ready, outcome, strict)) && ready.staged.Some?
      modifies this, storage
      ensures ValidAt(u, Returned(r))
      ensures Drive(cfg, world, old(At(u, DropStage(ready, outcome, strict))), u, old(clock))
           == Drive(cfg, world, At(u, Returned(r)), u, clock)
    {
      hide Core, Act, Advance, Drive;
      ghost var pc := DropStage(ready, outcome, strict);
      ghost var s0, k0 := At(u, pc), clock;
      ActOfStorage(cfg, s0.db, s0.files, u, pc, Draw(world, s0, k0));
      var ch := Tick();
      var removed := storage.RemoveCommitStage(ready.path, u, ready.staged.value, ch.fault);
      r := if strict && !removed then Err(StorageError) else Ok(outcome);
      Took(cfg, world, s0, u, k0, pc, Act(cfg, s0.db, s0.files, u, pc, Draw(world, s0, k0)), At(u, Returned(r)));
    }

    /** The rest of `complete_inner` once the upload is finalizing. */
    method FinalizeCommit(u: Id, ready: Ready) returns (r: Result<Outcome, Refusal>)
      requires ValidAt(u, InspectFinal(ready))
      modifies this, storage
      ensures ValidAt(u, Returned(r))
      ensures Drive(cfg, world, old(At(u, InspectFinal(ready))), u, old(clock))
           == Drive(cfg, world, At(u, Returned(r)), u, clock)
    {
      hide Core, Act, Advance, Drive;
      var published := ProvePublished(u, ready);
      if !published {
        r := MarkUnknown(u);
        return;
      }
      r := CommitMetadataWithRaceRetry(u, ready);
      if r.Ok? && ready.staged.Some? {
        r := RemoveStage(u, ready, r.value, false);
      }
    }

    // ----- the assembling half ------------------------------------------------------------------

    /** `transition_to_finalizing`. */
    method TransitionToFinalizing(u: Id, ready: Ready) returns (r: Result<(), Refusal>)
      requires ValidAt(u, ToFinalizing(ready))
      modifies this
      ensures var pc' := if r.Ok? then InspectFinal(ready) else Returned(Err(r.error));
        ValidAt(u, pc')
        && Drive(cfg, world, old(At(u, ToFinalizing(ready))), u, old(clock)) == Drive(cfg, world, At(u, pc'), u, clock)
    {
      hide Core, Act, Advance, Drive;
      ghost var s0, k0 := At(u, ToFinalizing(ready)), clock;
      ghost var e := Act(cfg, s0.db, s0.files, u, ToFinalizing(ready), Draw(world, s0, k0));
      ActOfToFinalizing(cfg, s0.db, s0.files, u, ToFinalizing(ready), Draw(world, s0, k0));
      var ch := Tick();
      if ch.fault != Works {
        r := Err(StorageError);
      } else if u in uploads && uploads[u].commit == Started {
        uploads := uploads[u := uploads[u].(commit := Finalizing)];
        r := Ok(());
      } else {
        r := Err(Conflict);
      }
      ghost var pc' := if r.Ok? then InspectFinal(ready) else Returned(Err(r.error));
      Took(cfg, world, s0, u, k0, ToFinalizing(ready), e, At(u, pc'));
    }

    /** The half of `complete_inner` that runs while the upload is started. */
    method StartCommit(u: Id, ready: Ready) returns (r: Result<Outcome, Refusal>)
      requires ValidAt(u, InspectStarted(ready))
      modifies this, storage
      ensures ValidAt(u, Returned(r))
      ensures Drive(cfg, world, old(At(u, InspectStarted(ready))), u, old(clock))
           == Drive(cfg, world, At(u, Returned(r)), u, clock)
    {
      hide Core, Act, Advance, Drive, ContentIs;
      ghost var pc := InspectStarted(ready);
      ghost var s0, k0 := At(u, pc), clock;
      ActOfInspect(cfg, s0.db, s0.files, u, pc, Draw(world, s0, k0));
      var ch := Tick();
      var seen := storage.InspectObject(ready.path, ready.final, ready.request.size, ready.request.blake3, ch.fault);
      if seen == Ok(Missing) && ready.staged.Some? {
        Moved(cfg, world, s0, u, k0, pc, Assemble(ready), At(u, Assemble(ready)));
        var assembled := AssembleStage(u, ready);
        if assembled.Err? {
          r := assembled;
          return;
        }
      } else if seen == Ok(Matches) {
        Moved(cfg, world, s0, u, k0, pc, ToFinalizing(ready), At(u, ToFinalizing(ready)));
      } else {
        Moved(cfg, world, s0, u, k0, pc, Mark(Unknown), At(u, Mark(Unknown)));
        r := MarkUnknown(u);
        return;
      }
      var moved := TransitionToFinalizing(u, ready);
      if moved.Err? {
        return Err(moved.error);
      }
      r := FinalizeCommit(u, ready);
    }

    /** Assemble the stage; parts that no longer match fail the upload. The
        value carried by success is never used. */
    method AssembleStage(u: Id, ready: Ready) returns (r: Result<Outcome, Refusal>)
      requires ValidAt(u, Assemble(ready)) && ready.staged.Some?
      modifies this, storage
      ensures var pc' := if r.Ok? then ToFinalizing(ready) else Returned(r);
        ValidAt(u, pc')
        && Drive(cfg, world, old(At(u, Assemble(ready))), u, old(clock)) == Drive(cfg, world, At(u, pc'), u, clock)
    {
      hide Core, Act, Advance, Drive, ContentIs, Assembled;
      ghost var s0, k0 := At(u, Assemble(ready)), clock;
      ghost var e := Act(cfg, s0.db, s0.files, u, Assemble(ready), Draw(world, s0, k0));
      ActOfStorage(cfg, s0.db, s0.files, u, Assemble(ready), Draw(world, s0, k0));
      var ch := Tick();
      var built := storage.AssembleCommit(ready.path, u, ready.request.parts, ready.staged.value,
                                          ready.request.size, ready.request.blake3, ch.fault);
      Took(cfg, world, s0, u, k0, Assemble(ready), e, At(u, e.pc));
      if built.Ok? {
        return Ok(Outcome(0, 0, false));
      }
      if built.error == Conflict {
        r := MarkCommit(u, Failed);
      } else {
        r := Err(built.error);
      }
    }

    // ----- the receiving half ---------------------------------------------------------------------

    /** `load_commit`. */
    method LoadCommit(u: Id, required: Option<Id>, fault: Fault) returns (r: Result<(Upload, string), Refusal>)
      ensures AfterLoad(r) == if fault != Works then Returned(Err(StorageError)) else ActLoad(Rows(), u, required).pc
      ensures r.Ok? <==>
        fault == Works && u in uploads && (required.None? || uploads[u].account == required.value)
        && uploads[u].account in accounts
      ensures r.Ok? ==> r.value == (uploads[u], accounts[uploads[u].account].path)
      ensures r.Err? ==> r.error == if fault == Works then NotFound else StorageError
    {
      if fault != Works {
        return Err(StorageError);
      }
      if u !in uploads || (required.Some? && uploads[u].account != required.value)
         || uploads[u].account !in accounts {
        return Err(NotFound);
      }
      return Ok((uploads[u], accounts[uploads[u].account].path));
    }

    /** `ensure_commit_quota`; the sums saturate at the largest 64-bit integer. */
    method EnsureCommitQuota(account: Id, u: Id) returns (ok: bool)
      requires account in accounts
      ensures ok <==> CommitQuotaOk(Rows(), account, u)
    {
      var quota := accounts[account].quota;
      if quota == 0 {
        return true;
      }
      var used := UsedBytes(account);
      var reserved := ReservedBytes(account, ACTIVE);
      return u in uploads && uploads[u].account == account && Saturate(used + reserved) <= quota;
    }

    /** The transaction of `begin_commit`. */
    method BeginTransaction(u: Id, account: Id, request: Request, uuid: Id) returns (r: Result<(), Refusal>)
      requires UniqueBlobs(Rows())
      modifies this`uploads
      ensures var e := ActBeginTx(old(Rows()), u, account, request, uuid);
        Rows() == ApplyDb(old(Rows()), u, e)
        && e.pc == if r.Ok? then Reload(account) else Returned(Err(r.error))
    {
      hide FindBlob, IsContent, CommitQuotaOk;
      if account !in accounts {
        return Err(Unauthorized);
      }
      if !accounts[account].enabled {
        return Err(Forbidden);
      }
      var path := accounts[account].path;
      var existing := LoadBlobCandidate(account, request.blake3);
      if existing.None? {
        var enough := EnsureCommitQuota(account, u);
        if !enough {
          return Err(OverQuota);
        }
        if !IsBlake3(request.blake3) {
          return Err(BadRequest);
        }
      }
      if request.size > I64_MAX {
        return Err(Conflict);
      }
      if u !in uploads || uploads[u].commit != Receiving {
        return Err(Conflict);
      }
      var next :=
        if existing.Some? then
          BeginRow(uploads[u], Finalizing, None, blobs[existing.value].key, path, existing.value)
        else
          BeginRow(uploads[u], Started, Some(StageFile(path, u, uuid)),
                   ObjectFor(path, request.blake3), path, uuid);
      uploads := uploads[u := next];
      return Ok(());
    }

    /** The sum of the manifest, checked for overflow part by part. */
    method ManifestSize(parts: seq<PartSpec>) returns (sum: Option<nat>)
      ensures sum == if PartsSize(parts) <= U64_MAX then Some(PartsSize(parts)) else None
    {
      var total := 0;
      for i := 0 to |parts|
        invariant total == PartsSize(parts[..i]) <= U64_MAX
      {
        assert parts[..i + 1] == parts[..i] + [parts[i]];
        PartsSizeAppend(parts[..i], parts[i]);
        PartsSizePrefix(parts, i + 1);
        if total + parts[i].size > U64_MAX {
          return None;
        }
        total := total + parts[i].size;
      }
      assert parts[..|parts|] == parts;
      return Some(total);
    }

    /** `begin_commit`: check the manifest and the parts, open the commit, and
        load the record it left. */
    method BeginCommit(u: Id, account: Id, request: Request) returns (r: Result<(Upload, string), Refusal>)
      requires ValidAt(u, BeginCheck(account, request))
      modifies this
      ensures ValidAt(u, AfterLoad(r)) && (r.Ok? ==> r.value.0.commit in {Started, Finalizing})
      ensures Drive(cfg, world, old(At(u, BeginCheck(account, request))), u, old(clock))
           == Drive(cfg, world, At(u, AfterLoad(r)), u, clock)
    {
      hide Core, Act, ActLoad, ActBeginTx, Advance, Drive;
      ghost var pc := BeginCheck(account, request);
      ghost var s0, k0 := At(u, pc), clock;
      ActOfBegin(cfg, s0.db, s0.files, u, pc, Draw(world, s0, k0));
      var ch := Tick();
      var sum := ManifestSize(request.parts);
      if ch.fault == Works && (request.parts == [] || (sum.Some? && request.size != sum.value)) {
        Moved(cfg, world, s0, u, k0, pc, Mark(Failed), At(u, Mark(Failed)));
        var refused := MarkCommit(u, Failed);
        return Err(refused.error);
      }
      var reason :=
        if ch.fault != Works then Some(StorageError)
        else if sum.None? || (u in uploads && !AllReceived(uploads[u])) then Some(Conflict)
        else None;
      if reason.Some? {
        Moved(cfg, world, s0, u, k0, pc, Returned(Err(reason.value)), At(u, Returned(Err(reason.value))));
        return Err(reason.value);
      }
      Moved(cfg, world, s0, u, k0, pc, BeginTx(account, request), At(u, BeginTx(account, request)));
      var begun := OpenCommit(u, account, request);
      if begun.Err? {
        return Err(begun.error);
      }
      r := ReloadCommit(u, account);
    }

    /** The transaction of `begin_commit`, or its failure. */
    method OpenCommit(u: Id, account: Id, request: Request) returns (r: Result<(), Refusal>)
      requires ValidAt(u, BeginTx(account, request))
      modifies this
      ensures var pc' := if r.Ok? then Reload(account) else Returned(Err(r.error));
        ValidAt(u, pc')
        && Drive(cfg, world, old(At(u, BeginTx(account, request))), u, old(clock))
           == Drive(cfg, world, At(u, pc'), u, clock)
    {
      hide Core, Act, ActLoad, ActBeginTx, Advance, Drive;
      ghost var pc := BeginTx(account, request);
      ghost var s0, k0 := At(u, pc), clock;
      TablesUnique(u, pc);
      BeginTouchesNoFile(s0.db, u, account, request, world.draw(issued));
      ActOfBegin(cfg, s0.db, s0.files, u, pc, Draw(world, s0, k0));
      var ch := Tick();
      if ch.fault != Works {
        r := Err(StorageError);
      } else {
        r := BeginTransaction(u, account, request, ch.uuid);
      }
      ghost var pc' := if r.Ok? then Reload(account) else Returned(Err(r.error));
      Took(cfg, world, s0, u, k0, pc, Act(cfg, s0.db, s0.files, u, pc, Draw(world, s0, k0)), At(u, pc'));
    }

    /** The `load_commit` that ends `begin_commit`. */
    method ReloadCommit(u: Id, account: Id) returns (r: Result<(Upload, string), Refusal>)
      requires ValidAt(u, Reload(account))
      modifies this
      ensures ValidAt(u, AfterLoad(r)) && (r.Ok? ==> r.value.0.commit in {Started, Finalizing})
      ensures Drive(cfg, world, old(At(u, Reload(account))), u, old(clock))
           == Drive(cfg, world, At(u, AfterLoad(r)), u, clock)
    {
      ReloadState(u, account);
      hide Core, Inv, RowOk, PcOk, Act, ActLoad, ActBeginTx, Advance, Drive;
      ghost var s0, k0 := At(u, Reload(account)), clock;
      ActOfBegin(cfg, s0.db, s0.files, u, Reload(account), Draw(world, s0, k0));
      var ch := Tick();
      r := LoadCommit(u, Some(account), ch.fault);
      Moved(cfg, world, s0, u, k0, Reload(account), AfterLoad(r), At(u, AfterLoad(r)));
    }

    lemma ReloadState(u: Id, account: Id)
      requires ValidAt(u, Reload(account))
      ensures u in uploads ==> uploads[u].commit in {Started, Finalizing}
    {
      assert PcOk(cfg, Rows(), storage.files, u, At(u, Reload(account)).calls[u]);
    }

    // ----- the whole call ---------------------------------------------------------------------------

    /** `validate_committed`: the rows, then the object, then the stage. */
    method ValidateCommitted(u: Id, ready: Ready, resource: Id, deduplicated: bool)
      returns (r: Result<Outcome, Refusal>)
      requires ValidAt(u, CheckMetadata(ready, resource, deduplicated))
      modifies this, storage
      ensures ValidAt(u, Returned(r))
      ensures Drive(cfg, world, old(At(u, CheckMetadata(ready, resource, deduplicated))), u, old(clock))
           == Drive(cfg, world, At(u, Returned(r)), u, clock)
    {
      hide Core, Act, Advance, Drive, ContentIs;
      ghost var pc := CheckMetadata(ready, resource, deduplicated);
      ghost var s0, k0 := At(u, pc), clock;
      ActOfCommitted(cfg, s0.db, s0.files, u, pc, Draw(world, s0, k0));
      var ch := Tick();
      if ch.fault != Works {
        Moved(cfg, world, s0, u, k0, pc, Returned(Err(StorageError)), At(u, Returned(Err(StorageError))));
        return Err(StorageError);
      }
      var found := resource in resources && resources[resource].asset == ready.asset
        && resources[resource].blob == ready.blob && ready.blob in blobs && blobs[ready.blob].account == ready.account;
      if !found || blobs[ready.blob].key != ready.final || blobs[ready.blob].size != ready.request.size
         || blobs[ready.blob].blake3 != ready.request.blake3 {
        Moved(cfg, world, s0, u, k0, pc, Mark(Unknown), At(u, Mark(Unknown)));
        r := MarkUnknown(u);
        return;
      }
      var outcome := Outcome(resource, ready.asset, deduplicated);
      Moved(cfg, world, s0, u, k0, pc, CheckObject(ready, outcome), At(u, CheckObject(ready, outcome)));
      r := ValidateObject(u, ready, outcome);
    }

    /** The half of `validate_committed` that looks at files. */
    method ValidateObject(u: Id, ready: Ready, outcome: Outcome) returns (r: Result<Outcome, Refusal>)
      requires ValidAt(u, CheckObject(ready, outcome))
      modifies this, storage
      ensures ValidAt(u, Returned(r))
      ensures Drive(cfg, world, old(At(u, CheckObject(ready, outcome))), u, old(clock))
           == Drive(cfg, world, At(u, Returned(r)), u, clock)
    {
      hide Core, Act, Advance, Drive, ContentIs;
      ghost var pc := CheckObject(ready, outcome);
      ghost var s0, k0 := At(u, pc), clock;
      ActOfCommitted(cfg, s0.db, s0.files, u, pc, Draw(world, s0, k0));
      var ch := Tick();
      var seen := storage.InspectObject(ready.path, ready.final, ready.request.size, ready.request.blake3, ch.fault);
      if seen != Ok(Matches) {
        Moved(cfg, world, s0, u, k0, pc, Mark(Unknown), At(u, Mark(Unknown)));
        r := MarkUnknown(u);
      } else if ready.staged.Some? {
        Moved(cfg, world, s0, u, k0, pc, DropStage(ready, outcome, true), At(u, DropStage(ready, outcome, true)));
        r := RemoveStage(u, ready, outcome, true);
      } else {
        Moved(cfg, world, s0, u, k0, pc, Returned(Ok(outcome)), At(u, Returned(Ok(outcome))));
        r := Ok(outcome);
      }
    }

    /** `complete_inner` from the record it loaded. */
    method CompleteRecord(u: Id, record: Upload, path: string) returns (r: Result<Outcome, Refusal>)
      requires ValidAt(u, Dispatch(record, path))
      modifies this, storage
      ensures ValidAt(u, Returned(r))
      ensures Drive(cfg, world, old(At(u, Dispatch(record, path))), u, old(clock))
           == Drive(cfg, world, At(u, Returned(r)), u, clock)
    {
      hide Core, Act, Advance, Drive;
      var row, current := record, path;
      match record.commit {
        case Unknown => return Err(Conflict);
        case Failed => return Err(Conflict);
        case Committed =>
          var done := ReadyCommit(record, path);
          if done.None? || record.resource.None? {
            r := MarkUnknown(u);
          } else {
            r := ValidateCommitted(u, done.value, record.resource.value, record.deduplicated);
          }
          return;
        case Receiving =>
          var begun := BeginCommit(u, record.account, record.request);
          if begun.Err? {
            return Err(begun.error);
          }
          row, current := begun.value.0, begun.value.1;
        case Started =>
        case Finalizing =>
      }
      var ready := ReadyCommit(row, current);
      if ready.None? {
        r := MarkUnknown(u);
      } else if row.commit == Started {
        r := StartCommit(u, ready.value);
      } else {
        r := FinalizeCommit(u, ready.value);
      }
    }

    /** `complete_inner`, alone under its upload's lock, whatever fails: it
        leaves the rows and files, and gives the answer, of a drive of the
        protocol from the state it found. An upload that is missing or another
        account's is left alone and never answered for. */
    method CompleteInner(u: Id, required: Option<Id>) returns (r: Result<Outcome, Refusal>)
      requires Valid()
      modifies this, storage
      ensures Valid()
      ensures Drive(cfg, world, old(At(u, Load(required))), u, old(clock)) == (At(u, Returned(r)), clock)
      ensures old(u !in uploads || (required.Some? && uploads[u].account != required.value)) ==>
        Rows() == old(Rows()) && storage.files == old(storage.files)
        && r == Err(if world.fault(old(clock)) == Works then NotFound else StorageError)
      ensures r.Ok? && required.Some? ==> u in uploads && uploads[u].account == required.value
      ensures Faultless(world) && old(StageFilesIssued(View())) ==>
        AnswersFor(cfg, old(View()), u, required, View(), r)
    {
      hide Core, Drive, Dispatch, AnswersFor;
      ghost var s, k := View(), clock;
      var loaded := BeginCall(u, required);
      if loaded.Err? {
        DriveReturned(cfg, world, At(u, Returned(Err(loaded.error))), u, clock);
        r := Err(loaded.error);
      } else {
        r := CompleteRecord(u, loaded.value.0, loaded.value.1);
        ViewCall(u, r);
        DriveReturned(cfg, world, At(u, Returned(r)), u, clock);
      }
      assert s.calls[u := Load(required)] == map[u := Load(required)];
      AnswerMeans(cfg, world, s, u, required, k, At(u, Returned(r)), r);
      SameButCalls(cfg, s, u, required, At(u, Returned(r)), View(), r);
    }

    /** The `load_commit` that begins a call: of an upload that may never have
        existed. */
    method BeginCall(u: Id, required: Option<Id>) returns (loaded: Result<(Upload, string), Refusal>)
      requires Valid()
      modifies this
      ensures loaded.Ok? ==> ValidAt(u, AfterLoad(loaded))
      ensures loaded.Err? ==> Valid()
      ensures Drive(cfg, world, old(At(u, Load(required))), u, old(clock))
           == Drive(cfg, world, At(u, AfterLoad(loaded)), u, clock)
    {
      CallView(u, required);
      hide Core, Act, ActLoad, Advance, Drive, Dispatch;
      ghost var s0, k0 := At(u, Load(required)), clock;
      ActOfBegin(cfg, s0.db, s0.files, u, Load(required), Draw(world, s0, k0));
      ghost var known := u in issued;
      var ch := Tick();
      loaded := LoadCommit(u, required, ch.fault);
      if known {
        Moved(cfg, world, s0, u, k0, Load(required), AfterLoad(loaded), At(u, AfterLoad(loaded)));
        if loaded.Err? {
          ViewCall(u, Err(loaded.error));
        }
      } else {
        Stepped(cfg, world, s0, u, k0, Load(required), Goto(AfterLoad(loaded)), At(u, AfterLoad(loaded)));
        Follow(cfg, world, s0, u, k0, At(u, AfterLoad(loaded)));
        MoreIssued(world.draw(old(issued)), old(View()));
      }
    }

    lemma CallView(u: Id, required: Option<Id>)
      requires Valid()
      ensures u in issued ==> ValidAt(u, Load(required))
      ensures u !in issued ==> u !in uploads
    {
      var s, s' := View(), At(u, Load(required));
      forall v ensures RowOk(cfg, s'.db, s'.files, v) {
        assert RowOk(cfg, s.db, s.files, v);
      }
    }

    lemma ViewCall(u: Id, r: Result<Outcome, Refusal>)
      requires ValidAt(u, Returned(r))
      ensures Valid()
    {
      var s, s' := At(u, Returned(r)), View();
      forall v ensures RowOk(cfg, s'.db, s'.files, v) {
        assert RowOk(cfg, s.db, s.files, v);
      }
    }

    /** A call for an upload that does not exist changes nothing but the clock. */
    lemma MoreIssued(uuid: Id, s: Sys)
      requires storage.cfg == cfg && WorldOk(world) && Core(cfg, s) && View() == s.(issued := s.issued + {uuid})
      ensures Valid()
    {
      var s' := View();
      forall v ensures RowOk(cfg, s'.db, s'.files, v) {
        assert RowOk(cfg, s.db, s.files, v);
      }
    }

    // ----- reconciliation ------------------------------------------------------------------------------

    /** A result set in the order the query returns it. */
    method Listed(rows: set<Id>) returns (order: seq<Id>)
      ensures Distinct(order) && forall k :: k in order <==> k in rows
    {
      order := [];
      var rest := rows;
      while rest != {}
        invariant rest <= rows && Distinct(order)
        invariant forall k :: k in order <==> k in rows && k !in rest
        decreases |rest|
      {
        var k :| k in rest;
        order := order + [k];
        rest := rest - {k};
      }
    }

    /** One turn of the loop of `reconcile_all`: complete an upload, and tally it
        by the answer and the state it is left in. */
    method ReconcileOne(u: Id, tally: Tally) returns (tally': Tally, ghost ok: bool)
      requires Valid() && Inv(cfg, View()) && u in uploads
      modifies this, storage
      ensures Valid() && Inv(cfg, View()) && AsBefore(old(uploads), uploads, [u])
      ensures Settle(cfg, world, old(View()), u, old(clock)) == (View(), clock)
      ensures tally' == TallyOf(tally, old(uploads[u].commit), ok, uploads[u].commit == Unknown)
      ensures ok ==> uploads[u].commit == Committed
      ensures !ok && old(uploads[u].commit) != Committed ==> uploads[u].commit != Committed
      ensures ok <==> Complete(cfg, world, old(View()), u, old(clock)).0.calls[u].result.Ok?
    {
      hide Core, Drive;
      ghost var s0, k0 := View(), clock;
      CompletionTells(cfg, world, s0, u, k0);
      assert s0.calls[u := Load(None)] == map[u := Load(None)];
      assert s0.(calls := s0.calls[u := Load(None)]) == At(u, Load(None));
      var before := uploads[u].commit;
      var r := CompleteInner(u, None);
      assert map[u := Returned(r)] - {u} == map[];
      ok := r.Ok?;
      tally' := TallyOf(tally, before, r.Ok?, uploads[u].commit == Unknown);
    }

    /** The loop of `reconcile_all` over the uploads that may need work; a
        completion that is refused does not stop it. */
    method ReconcileUploads() returns (ids: seq<Id>, tally: Tally)
      requires Valid() && Inv(cfg, View())
      modifies this, storage
      ensures Valid() && Inv(cfg, View()) && Selects(old(View()), ids)
      ensures SettleAll(cfg, world, old(View()), ids, old(clock)) == (View(), clock)
      ensures Tallied(tally, old(uploads), uploads, ids, Answered(cfg, world, old(View()), ids, old(clock)))
    {
      ids := Listed(set u | u in uploads && uploads[u].commit in {Started, Finalizing, Committed});
      tally := Tally(0, 0, 0);
      assert forall u :: u in ids <==> Selectable(View(), u);
      assert forall u :: u in ids ==> u in uploads;
      hide Core, Inv, Tallied, Settle, SettleAll, Complete, AnsweredUpTo, PassSoFar, Selectable;
      ghost var s0, k0 := View(), clock;
      ghost var answered: set<Id> := {};
      PassBegins(cfg, world, s0, ids, k0);
      for i := 0 to |ids|
        invariant Valid() && Inv(cfg, View())
        invariant PassSoFar(cfg, world, s0, ids, k0, i, View(), clock, tally, answered)
        invariant uploads.Keys == s0.db.uploads.Keys
      {
        ghost var s1, k1, counted := View(), clock, tally;
        assert ids[i] in ids;
        ghost var ok;
        tally, ok := ReconcileOne(ids[i], tally);
        PassGoesOn(cfg, world, s0, ids, k0, i, s1, k1, counted, answered, View(), clock, ok);
        answered := if ok then answered + {ids[i]} else answered;
      }
      PassEnds(cfg, world, s0, ids, k0, View(), clock, tally, answered);
    }

    /** `reconcile_orphan_blobs` over the listed rows, each in a transaction of
        its own that deletes the row and unlinks the object. */
    method ReclaimBlobs(listed: seq<Id>) returns (removed: nat, errors: nat, done: bool)
      requires Distinct(listed)
      modifies this`blobs, this`clock, storage
      ensures ReclaimAll(world, old(View()), listed, old(clock)) == (View(), clock, done)
      ensures removed == |old(blobs)| - |blobs|
      ensures done ==> errors == |Leftover(Rows(), listed)|
      ensures done && errors == 0 ==> forall b :: b in listed ==> !Orphan(Rows(), b)
    {
      removed, errors := 0, 0;
      assert Leftover(Rows(), listed[..0]) == {};
      for i := 0 to |listed|
        invariant ReclaimAll(world, old(View()), listed, old(clock)) == ReclaimAll(world, View(), listed[i..], clock)
        invariant removed == |old(blobs)| - |blobs|
        invariant errors == |Leftover(Rows(), listed[..i])|
      {
        ghost var s0 := View();
        assert listed[i..][1..] == listed[i + 1..];
        ReclaimNext(world, s0, listed[i..], clock);
        hide Orphan, OwnObject, ReclaimAll, Leftover;
        var outcome := ReclaimOne(listed[i]);
        if outcome == Aborted {
          return removed, errors, false;
        }
        LeftoverStep(s0.db, Rows(), listed, i, outcome);
        if outcome == Kept {
          errors := errors + 1;
        } else if outcome == Gone {
          removed := removed + 1;
        }
      }
      assert listed[|listed|..] == [] && listed[..|listed|] == listed;
      if errors == 0 {
        NothingLeftover(Rows(), listed);
      }
      done := true;
    }

    /** One turn: the transaction that deletes an orphan's row and unlinks its
        object, its rollback, or its failure to commit. */
    method ReclaimOne(b: Id) returns (outcome: Turn)
      modifies this`blobs, this`clock, storage
      ensures clock == old(clock) + 1
      ensures outcome == if !Orphan(old(Rows()), b) then NoOrphan
                         else if !OwnObject(old(Rows()), b) then Kept
                         else match world.fault(old(clock))
                              case Works => Gone
                              case Fails => Kept
                              case FailsLate => Aborted
      ensures View() == match outcome
        case NoOrphan => old(View())
        case Kept => old(View())
        case Gone => Reclaimed(old(View()), b, false)
        case Aborted => Reclaimed(old(View()), b, true)
      ensures |old(blobs)| == |blobs| + (if outcome == Gone then 1 else 0)
      ensures forall c :: c != b ==> (Orphan(old(Rows()), c) <==> Orphan(Rows(), c))
      ensures outcome != Aborted ==> (Orphan(Rows(), b) <==> outcome == Kept)
    {
      ghost var before := Rows();
      var orphan := IsOrphan(b);
      var fault := world.fault(clock);
      clock := clock + 1;
      if !orphan {
        return NoOrphan;
      }
      assert b in blobs;
      if fault == Fails || !IsOwnObject(b) {
        return Kept;
      }
      hide Orphan;
      RemoveObject(b);
      if fault == FailsLate {
        return Aborted;
      }
      DeleteRow(b);
      OtherOrphansStay(before, Rows(), b);
      return Gone;
    }

    /** The scope check of `remove_blob`. */
    predicate IsOwnObject(b: Id)
      reads this
      requires b in blobs
      ensures IsOwnObject(b) <==> OwnObject(Rows(), b)
    {
      blobs[b].account in accounts && InScope(accounts[blobs[b].account].path, blobs[b].key)
    }

    /** The condition of the DELETE statement. */
    method IsOrphan(b: Id) returns (orphan: bool)
      ensures orphan <==> Orphan(Rows(), b)
    {
      orphan := b in blobs && (forall r :: r in resources ==> resources[r].blob != b)
        && (forall u :: u in uploads ==> uploads[u].blob != Some(b));
    }

    /** `remove_blob`: gone already is as good. */
    method RemoveObject(b: Id)
      requires b in blobs
      modifies storage
      ensures View() == Reclaimed(old(View()), b, true)
    {
      storage.files := storage.files - {blobs[b].key};
    }

    method DeleteRow(b: Id)
      requires b in blobs
      modifies this`blobs
      ensures blobs == old(blobs) - {b} && |old(blobs)| == |blobs| + 1
    {
      assert blobs.Keys == (blobs - {b}).Keys + {b};
      assert |blobs.Keys| == |(blobs - {b}).Keys| + 1;
      blobs := blobs - {b};
    }

    /** `delete_asset_permanently`: a trashed asset with resources goes, and with
        it its resources and uploads; then the account's orphans are reclaimed.
        The answer says whether that is finished, too. */
    method DeleteAssetPermanently(account: Id, asset: Id)
      returns (r: Result<bool, Refusal>, ghost listed: seq<Id>)
      requires storage.cfg == cfg
      modifies this, storage
      ensures r.Ok? <==> old(asset in assets && assets[asset].account == account && assets[asset].trashed
                             && exists q :: q in resources && resources[q].asset == asset)
      ensures r.Err? ==> r.error == NotFound && View() == old(View())
      ensures r.Ok? ==>
        var deleted := old(View()).(db := DeleteAsset(old(Rows()), asset));
        && (forall b :: b in listed <==> Orphan(deleted.db, b) && deleted.db.blobs[b].account == account)
        && View() == ReclaimAll(world, deleted, listed, old(clock)).0
        && (r.value <==> ReclaimAll(world, deleted, listed, old(clock)).2
                         && forall b :: b in listed ==> !Orphan(Rows(), b))
        && (Faultless(world) && (forall b :: b in listed ==> OwnObject(deleted.db, b)) ==> r.value)
      ensures r.Ok? ==>
        && assets == old(assets) - {asset}
        && (forall q :: q in resources <==> q in old(resources) && old(resources)[q].asset != asset)
        && (forall u :: u in uploads <==> u in old(uploads) && old(uploads)[u].asset != asset)
        && (forall q :: q in resources ==> resources[q] == old(resources)[q])
        && (forall u :: u in uploads ==> uploads[u] == old(uploads)[u])
    {
      listed := [];
      if asset !in assets || assets[asset].account != account || !assets[asset].trashed
         || !exists q :: q in resources && resources[q].asset == asset {
        return Err(NotFound), [];
      }
      hide Orphan, ReclaimAll, DeleteAsset;
      DeleteRows(asset);
      assert View() == old(View()).(db := DeleteAsset(old(Rows()), asset));
      var orphans := OrphanIds(Some(account));
      var order := Listed(orphans);
      listed := order;
      ghost var deleted, k := View(), clock;
      var removed, errors, done := ReclaimBlobs(order);
      r := Ok(done && errors == 0);
      NoneLeftover(Rows(), order);
      if Faultless(world) {
        FaultlessPassLeavesNone(world, deleted, order, k);
      }
    }

    /** DELETE FROM assets, with what its foreign keys take along. */
    method DeleteRows(asset: Id)
      modifies this`assets, this`resources, this`uploads
      ensures Rows() == DeleteAsset(old(Rows()), asset)
      ensures assets == old(assets) - {asset}
      ensures forall q :: q in resources <==> q in old(resources) && old(resources)[q].asset != asset
      ensures forall u :: u in uploads <==> u in old(uploads) && old(uploads)[u].asset != asset
      ensures forall q :: q in resources ==> resources[q] == old(resources)[q]
      ensures forall u :: u in uploads ==> uploads[u] == old(uploads)[u]
    {
      assets := assets - {asset};
      resources := map q | q in resources && resources[q].asset != asset :: resources[q];
      uploads := map u | u in uploads && uploads[u].asset != asset :: uploads[u];
    }

    /** The blobs that nothing references, of one account or of all. */
    method OrphanIds(account: Option<Id>) returns (ids: set<Id>)
      ensures forall b :: b in ids <==> Orphan(Rows(), b) && (account.None? || blobs[b].account == account.value)
    {
      ids := set b | b in blobs && (account.None? || blobs[b].account == account.value)
                     && (forall q :: q in resources ==> resources[q].blob != b)
                     && (forall u :: u in uploads ==> uploads[u].blob != Some(b));
    }

    /** The loop of `reconcile_all` over the account directories. */
    method SweepStages() returns (removed: nat)
      modifies storage
      ensures View() == SweepAll(old(View()))
      ensures removed == |old(storage.files)| - |storage.files|
      ensures forall key: Key :: key in old(storage.files) && key !in storage.files <==>
        key in old(storage.files) && key.StageFile? && IsAccountPath(key.path)
        && forall u :: u in uploads ==> uploads[u].staged != Some(key)
      ensures forall key :: key in storage.files ==>
        key in old(storage.files) && storage.files[key] == old(storage.files)[key]
    {
      var referenced := set u | u in uploads && uploads[u].staged.Some? :: uploads[u].staged.value;
      assert forall key: Key :: key in referenced <==> !Unreferenced(Rows(), key);
      var rest := accounts.Keys;
      ghost var before := storage.files;
      removed := 0;
      hide Unreferenced;
      while rest != {}
        invariant rest <= accounts.Keys
        invariant forall key :: key in storage.files ==> key in before && storage.files[key] == before[key]
        invariant forall key :: key in before ==>
          (key !in storage.files <==> InStaging(accounts.Keys - rest, key) && key !in referenced)
        invariant removed == |before| - |storage.files|
        decreases |rest|
      {
        var a :| a in rest;
        var n := storage.CleanupOrphanStaging(accounts[a].path, referenced);
        assert forall key: Key ::
          InStaging(accounts.Keys - (rest - {a}), key)
          <==> InStaging(accounts.Keys - rest, key) || (key.StageFile? && key.path == accounts[a].path);
        rest := rest - {a};
        removed := removed + n;
      }
      assert accounts.Keys - rest == accounts.Keys;
      assert storage.files == SweepAll(old(View())).files;
    }

    ghost predicate IsAccountPath(path: string)
      reads this
    {
      exists a :: a in accounts && accounts[a].path == path
    }

    /** A stage in the directory of one of these accounts. */
    ghost predicate InStaging(done: set<Id>, key: Key)
      reads this
    {
      key.StageFile? && exists a :: a in done && a in accounts && accounts[a].path == key.path
    }

    /** `reconcile_all`. An aborted reclamation aborts the pass, and with it the
        report. */
    method ReconcileAll() returns (report: Option<ReconcileReport>, ids: seq<Id>, listed: seq<Id>)
      requires Valid() && Inv(cfg, View())
      modifies this, storage
      ensures Selects(old(View()), ids) && ListsOrphans(SettleAll(cfg, world, old(View()), ids, old(clock)).0, listed)
      ensures View() == Pass(cfg, world, old(View()), ids, listed, old(clock))
      ensures report.None? <==>
        var (s1, k1) := SettleAll(cfg, world, old(View()), ids, old(clock)); !ReclaimAll(world, s1, listed, k1).2
      ensures report.Some? ==>
        exists t :: Tallied(t, old(uploads), uploads, ids, Answered(cfg, world, old(View()), ids, old(clock)))
          && var (s1, k1) := SettleAll(cfg, world, old(View()), ids, old(clock));
             Reported(report.value, t, s1, ReclaimAll(world, s1, listed, k1).0, View(), listed)
      ensures Idle(cfg, world, old(View())) ==> Valid() && Settled(View())
    {
      hide Core, SettleAll, ReclaimAll, Settled, Tallied, Answered, Leftover;
      var tally;
      ids, tally := ReconcileUploads();
      ghost var s1 := View();
      var orphans := OrphanIds(None);
      var order := Listed(orphans);
      listed := order;
      var blobsRemoved, errors, done := ReclaimBlobs(order);
      ghost var s2 := View();
      report := None;
      if done {
        var stagesRemoved := SweepStages();
        report := Some(ReconcileReport(tally.(errors := tally.errors + errors), blobsRemoved, stagesRemoved));
        assert Reported(report.value, tally, s1, s2, View(), listed);
      }
      if Idle(cfg, world, old(View())) {
        RecoveryConverges(cfg, world, old(View()), ids, listed, old(clock));
      }
    }

    lemma TablesUnique(u: Id, pc: Pc)
      requires ValidAt(u, pc)
      ensures UniqueBlobs(Rows()) && UniqueSlots(Rows())
    {
    }
  }
}
