/** The race between reclamation and a running completion, as a run from a fresh
    installation: two uploads of one content, the second of which commits and
    is deleted while the first has inspected the object and not yet committed.
    And the server's runs as they are, with reclamation unguarded. */
module Race {
  import opened Types
  import opened CommitModel
  import opened CommitInvariant
  import opened CommitSteps
  import opened CommitRuns
  import opened CommitSafety
  import opened Solo
  import opened Reclamation
  import opened Reconcile
  import opened Arrivals

  // ----- a completion as a run -------------------------------------------------------------

  lemma TickLeads(cfg: Config, w: World, s: Sys, u: Id, k: nat)
    requires WorldOk(w) && u in s.calls
    ensures Leads(cfg, s, Advance(cfg, s, u, Draw(w, s, k)))
  {
    hide Act;
    assert Enabled(cfg, s, Step(u, Draw(w, s, k)));
    LeadsStep(cfg, s, Step(u, Draw(w, s, k)));
  }

  /** Other calls stand where they stood, and stored blobs stay as they are. */
  ghost predicate Beside(s: Sys, s': Sys, u: Id) {
    && s'.puts == s.puts && s'.calls.Keys == s.calls.Keys
    && (forall v :: v != u && v in s.calls ==> s'.calls[v] == s.calls[v])
    && (forall b :: b in s.db.blobs ==> b in s'.db.blobs && s'.db.blobs[b] == s.db.blobs[b])
  }

  lemma AdvanceBeside(cfg: Config, s: Sys, u: Id, ch: Choice)
    requires Core(cfg, s) && u in s.calls && ch.uuid !in s.issued
    ensures Beside(s, Advance(cfg, s, u, ch), u)
  {
    ActSound(cfg, s.db, s.files, u, s.calls[u], ch);
    hide Core, Act;
    assert Advance(cfg, s, u, ch).calls.Keys == s.calls.Keys;
  }

  lemma {:induction false} DriveLeads(cfg: Config, w: World, s: Sys, u: Id, k: nat)
    requires WorldOk(w) && u in s.calls
    ensures Leads(cfg, s, Drive(cfg, w, s, u, k).0)
    decreases PcRank(s.calls[u])
  {
    hide Act, Advance, Leads;
    if s.calls[u].Returned? {
      LeadsNowhere(cfg, s);
    } else {
      var s1 := Advance(cfg, s, u, Draw(w, s, k));
      RankFalls(cfg, s.db, s.files, u, s.calls[u], Draw(w, s, k));
      TickLeads(cfg, w, s, u, k);
      AdvanceCalls(cfg, s, u, Draw(w, s, k));
      DriveLeads(cfg, w, s1, u, k + 1);
      LeadsThen(cfg, s, s1, Drive(cfg, w, s, u, k).0);
    }
  }

  lemma {:induction false} DriveBeside(cfg: Config, w: World, s: Sys, u: Id, k: nat)
    requires Inv(cfg, s) && WorldOk(w) && u in s.calls
    ensures Beside(s, Drive(cfg, w, s, u, k).0, u)
    decreases PcRank(s.calls[u])
  {
    hide Core, Act, Advance;
    if !s.calls[u].Returned? {
      RankFalls(cfg, s.db, s.files, u, s.calls[u], Draw(w, s, k));
      AdvanceKeepsInv(cfg, s, u, Draw(w, s, k));
      AdvanceBeside(cfg, s, u, Draw(w, s, k));
      AdvanceCalls(cfg, s, u, Draw(w, s, k));
      DriveBeside(cfg, w, Advance(cfg, s, u, Draw(w, s, k)), u, k + 1);
    }
  }

  lemma AdvanceCalls(cfg: Config, s: Sys, u: Id, ch: Choice)
    requires u in s.calls
    ensures var s1 := Advance(cfg, s, u, ch);
      u in s1.calls && s1.calls[u] == Act(cfg, s.db, s.files, u, s.calls[u], ch).pc
  {
  }

  // ----- up to the inspection --------------------------------------------------------------

  predicate EarlyPc(pc: Pc) {
    pc.Load? || pc.BeginCheck? || pc.BeginTx? || pc.Reload? || pc.InspectStarted? || pc.Assemble?
    || pc.ToFinalizing? || pc.InspectFinal? || pc.InspectStage? || pc.Publish?
  }

  /** An unfinished upload's call stays early, comes to its first candidate, or
      gives up. */
  lemma EarlyStep(cfg: Config, db: Db, files: Files, u: Id, pc: Pc, ch: Choice)
    requires EarlyPc(pc) && u in db.uploads && db.uploads[u].commit != Committed
    ensures var pc' := Act(cfg, db, files, u, pc, ch).pc;
      EarlyPc(pc') || pc'.LoadCandidate? || pc'.Mark? || (pc'.Returned? && pc'.result.Err?)
  {
    hide ActMetadataTx, FindBlob, CommitQuotaOk, ContentIs, Assembled, AllReceived;
  }

  /** What a run up to the inspection leaves as it was. */
  ghost predicate OnlyApproach(s: Sys, s': Sys, u: Id) {
    OnlyOwn(s, s', u) && Beside(s, s', u) && s'.db.blobs == s.db.blobs && s'.db.resources == s.db.resources
  }

  lemma ApproachThen(a: Sys, b: Sys, c: Sys, u: Id)
    requires OnlyApproach(a, b, u) && OnlyApproach(b, c, u)
    ensures OnlyApproach(a, c, u)
  {
    OnlyOwnTransitive(a, b, c, u);
    hide OnlyOwn;
  }

  lemma ApproachStep(cfg: Config, w: World, s: Sys, u: Id)
    requires Inv(cfg, s) && WorldOk(w) && u in s.calls && EarlyPc(s.calls[u]) && u in s.db.uploads
    ensures var s1 := Advance(cfg, s, u, Choice(w.draw(s.issued), Works));
      Inv(cfg, s1) && OnlyApproach(s, s1, u)
  {
    var ch := Choice(w.draw(s.issued), Works);
    AdvanceKeepsInv(cfg, s, u, ch);
    AdvanceOnlyOwn(cfg, s, u, ch);
    AdvanceBeside(cfg, s, u, ch);
    RowWriters(cfg, s.db, s.files, u, s.calls[u], ch);
    hide Core, Act, OnlyOwn;
  }

  /** A completion that will commit comes to its first candidate on the way, the
      object inspected and nothing yet written to `blobs`. */
  lemma {:induction false} RunsToInspection(cfg: Config, w: World, s: Sys, u: Id, k: nat) returns (s': Sys)
    requires Inv(cfg, s) && Quiet(cfg, w, s, u) && EarlyPc(s.calls[u]) && s.db.uploads[u].commit != Committed
    requires Commits(cfg, w, s, u, k)
    ensures Inv(cfg, s') && Quiet(cfg, w, s', u) && s'.calls[u].LoadCandidate?
    ensures Leads(cfg, s, s') && OnlyApproach(s, s', u)
    decreases PcRank(s.calls[u])
  {
    hide Core, Act, Advance, OnlyApproach, Reaches;
    var s1, e := Tick(cfg, w, s, u, k);
    var ch := Choice(w.draw(s.issued), Works);
    TickLeadsWith(cfg, w, s, u, ch);
    ApproachStep(cfg, w, s, u);
    EarlyStep(cfg, s.db, s.files, u, s.calls[u], ch);
    RankFalls(cfg, s.db, s.files, u, s.calls[u], ch);
    if s1.calls[u].LoadCandidate? {
      return s1;
    }
    SameCommits(cfg, w, s, s1, u, k);
    if s1.calls[u].Mark? {
      MarkStops(cfg, w, s1, u, k + 1);
    }
    CommitsIsOk(cfg, w, s1, u, k + 1);
    StillUncommitted(cfg, s, u, ch);
    s' := RunsToInspection(cfg, w, s1, u, k + 1);
    LeadsThen(cfg, s, s1, s');
    ApproachThen(s, s1, s', u);
  }

  lemma TickLeadsWith(cfg: Config, w: World, s: Sys, u: Id, ch: Choice)
    requires WorldOk(w) && u in s.calls && ch.uuid == w.draw(s.issued)
    ensures Leads(cfg, s, Advance(cfg, s, u, ch))
  {
    hide Act;
    assert Enabled(cfg, s, Step(u, ch));
    LeadsStep(cfg, s, Step(u, ch));
  }

  lemma SameCommits(cfg: Config, w: World, s: Sys, s1: Sys, u: Id, k: nat)
    requires u in s.calls && u in s1.calls && Drive(cfg, w, s, u, k) == Drive(cfg, w, s1, u, k + 1)
    requires Commits(cfg, w, s, u, k)
    ensures Commits(cfg, w, s1, u, k + 1)
  {
    hide Drive;
  }

  lemma CommitsIsOk(cfg: Config, w: World, s: Sys, u: Id, k: nat)
    requires u in s.calls && Commits(cfg, w, s, u, k)
    ensures s.calls[u].Returned? ==> s.calls[u].result.Ok?
    ensures !(exists commit :: commit != Committed && Stops(cfg, w, s, u, k, commit))
  {
  }

  /** Only the metadata transaction commits. */
  lemma StillUncommitted(cfg: Config, s: Sys, u: Id, ch: Choice)
    requires Inv(cfg, s) && u in s.calls && EarlyPc(s.calls[u]) && u in s.db.uploads
    requires s.db.uploads[u].commit != Committed && u in Advance(cfg, s, u, ch).db.uploads
    ensures Advance(cfg, s, u, ch).db.uploads[u].commit != Committed
  {
    assert PcOk(cfg, s.db, s.files, u, s.calls[u]);
    hide Core;
    ActMoves(cfg, s.db, s.files, u, s.calls[u], ch);
    RowWriters(cfg, s.db, s.files, u, s.calls[u], ch);
    hide Act;
  }

  // ----- the schedule ------------------------------------------------------------------------

  /** Two uploads of one new content in one account, all their parts received,
      and nothing else stored: what two devices that hold the same picture make. */
  ghost predicate TwoUploads(cfg: Config, s: Sys, a: Id, b: Id) {
    && Inv(cfg, s) && StagesIssued(s) && s.calls == map[] && s.db.blobs == map[] && s.db.resources == map[]
    && s.db.uploads.Keys == {a, b} && a != b && Startable(s.db, a) && Startable(s.db, b)
    && var ra, rb := s.db.uploads[a], s.db.uploads[b];
    && ra.account == rb.account && ra.asset != rb.asset
    && ra.request.size == rb.request.size && ra.request.blake3 == rb.request.blake3
    && ObjectKey(s.db, ra) !in s.files
    && Assembled(cfg, s.files, a, ra.request.parts, ra.request.size, ra.request.blake3).Some?
  }

  ghost predicate Startable(db: Db, u: Id) {
    u in db.uploads
    && var row := db.uploads[u];
       row.commit == Receiving && AllReceived(row) && row.account in db.accounts
       && db.accounts[row.account].enabled && db.accounts[row.account].quota == 0
  }

  lemma StartableCanBegin(db: Db, u: Id)
    requires Startable(db, u)
    ensures CanBegin(db, u)
  {
  }

  /** The first upload stands at its first candidate. */
  ghost predicate Inspected(s: Sys, a: Id) {
    a in s.db.uploads && a in s.calls && s.calls[a].LoadCandidate?
  }

  lemma FirstInspects(cfg: Config, w: World, s: Sys, a: Id, b: Id, k: nat) returns (s1: Sys)
    requires WorldOk(w) && Faultless(w) && TwoUploads(cfg, s, a, b)
    ensures Inv(cfg, s1) && StagesIssued(s1) && Leads(cfg, s, s1)
    ensures Inspected(s1, a) && b !in s1.calls && Startable(s1.db, b)
    ensures s1.db.blobs == map[] && s1.db.resources == map[] && s1.db.uploads.Keys == {a, b}
    ensures var ra, rb := s1.db.uploads[a], s1.db.uploads[b];
      ra.account == rb.account && ra.asset != rb.asset
      && ra.request.size == rb.request.size && ra.request.blake3 == rb.request.blake3
  {
    hide Core, StagesIssued, Assembled, ObjectGood, OnlyOwn, Later, Drive, FindBlob, CanBegin, Leads;
    StagesAreFiles(s);
    StartableCanBegin(s.db, a);
    NoBlobs(s.db, s.db.uploads[a].account, s.db.uploads[a].request.blake3);
    FirstCompletion(cfg, w, s, a, k);
    var s0 := Begun(cfg, w, s, a);
    BeginLeads(cfg, s, a);
    CallKeeps(cfg, s, Begin(a, None));
    s1 := RunsToInspection(cfg, w, s0, a, k);
    LeadsThen(cfg, s, s0, s1);
    LeadsKeeps(cfg, s, s1);
    RowBeside(s0, s1, a, b);
    assert s0.calls.Keys == {a};
  }

  lemma StagesAreFiles(s: Sys)
    requires StagesIssued(s)
    ensures StageFilesIssued(s)
  {
  }

  lemma NoRowsFit(db: Db, account: Id, request: Request)
    requires db.blobs == map[]
    ensures SizeRecorded(db, account, request)
  {
  }

  lemma BeginLeads(cfg: Config, s: Sys, u: Id)
    requires Inv(cfg, s) && u in s.db.uploads && u !in s.calls
    ensures Enabled(cfg, s, Begin(u, None)) && Leads(cfg, s, s.(calls := s.calls[u := Load(None)]))
  {
    assert Enabled(cfg, s, Begin(u, None));
    LeadsStep(cfg, s, Begin(u, None));
  }

  lemma RowBeside(s: Sys, s': Sys, u: Id, v: Id)
    requires OnlyOwn(s, s', u) && u in s.db.uploads && v in s.db.uploads && v != u
    ensures s'.db.uploads[v] == s.db.uploads[v] && s'.db.uploads.Keys == s.db.uploads.Keys
    ensures s'.db.accounts == s.db.accounts && s'.db.assets == s.db.assets
    ensures u in s'.db.uploads && s'.db.uploads[u].account == s.db.uploads[u].account
    ensures s'.db.uploads[u].asset == s.db.uploads[u].asset && s'.db.uploads[u].request == s.db.uploads[u].request
  {
  }

  lemma InspectedKnows(cfg: Config, s: Sys, a: Id)
    requires Inv(cfg, s) && Inspected(s, a)
    ensures var row := s.db.uploads[a];
      && row.account in s.db.accounts && row.commit == Finalizing && row.final == Some(ObjectKey(s.db, row))
      && ObjectGood(cfg, s.files, ObjectKey(s.db, row), row.request)
      && (s.db.blobs == map[] ==> Owns(row)) && (Owns(row) ==> row.blob.Some? && row.blob.value !in s.db.blobs)
  {
    assert RowOk(cfg, s.db, s.files, a) && PcOk(cfg, s.db, s.files, a, s.calls[a]);
  }

  /** Beside it, the second upload runs to its commit. */
  lemma SecondCommits(cfg: Config, w: World, s: Sys, a: Id, b: Id, k: nat) returns (s3: Sys)
    requires WorldOk(w) && Faultless(w)
    requires Inv(cfg, s) && StagesIssued(s) && Inspected(s, a) && b !in s.calls && a != b
    requires Startable(s.db, b) && s.db.blobs == map[] && s.db.resources == map[] && s.db.uploads.Keys == {a, b}
    requires var ra, rb := s.db.uploads[a], s.db.uploads[b];
      ra.account == rb.account && ra.request.size == rb.request.size && ra.request.blake3 == rb.request.blake3
    ensures Inv(cfg, s3) && Leads(cfg, s, s3) && Inspected(s3, a)
    ensures s3.db.uploads.Keys == {a, b} && s3.db.uploads[a] == s.db.uploads[a] && s3.db.accounts == s.db.accounts
    ensures var rb := s3.db.uploads[b];
      rb.commit == Committed && rb.asset == s.db.uploads[b].asset && rb.account == s.db.uploads[b].account
      && rb.request == s.db.uploads[b].request
      && rb.blob.Some? && rb.resource.Some?
      && s3.db.resources == map[rb.resource.value := Resource(rb.asset, rb.blob.value, rb.request.sourceResource)]
  {
    hide Core, StagesIssued, Assembled, Drive, FindBlob, CanBegin, Leads, ContentIs;
    StagesAreFiles(s);
    NoRowsFit(s.db, s.db.uploads[b].account, s.db.uploads[b].request);
    InspectedKnows(cfg, s, a);
    StartableCanBegin(s.db, b);
    FirstCompletion(cfg, w, s, b, k);
    var s2 := Begun(cfg, w, s, b);
    BeginLeads(cfg, s, b);
    CallKeeps(cfg, s, Begin(b, None));
    s3 := Drive(cfg, w, s2, b, k).0;
    DriveKeepsInv(cfg, w, s2, b, k);
    DriveLeads(cfg, w, s2, b, k);
    DriveBeside(cfg, w, s2, b, k);
    DriveOnlyOwn(cfg, w, s2, b, k);
    DriveMoves(cfg, w, s2, b, k);
    LeadsThen(cfg, s, s2, s3);
    hide Leads, Later;
    RowBeside(s2, s3, b, a);
  }

  /** Trashing and deleting an asset with resources is a run of two steps. */
  lemma DeletionLeads(cfg: Config, s: Sys, asset: Id, r: Id) returns (s': Sys)
    requires Inv(cfg, s) && asset in s.db.assets && r in s.db.resources && s.db.resources[r].asset == asset
    ensures Inv(cfg, s') && Leads(cfg, s, s')
    ensures s'.db.blobs == s.db.blobs && s'.calls == s.calls
    ensures s'.db.resources == DeleteAsset(s.db, asset).resources && s'.db.uploads == DeleteAsset(s.db, asset).uploads
  {
    hide Core, Reaches;
    var trashed := Apply(cfg, s, Trash(asset, true));
    ActionKeepsInv(cfg, s, Trash(asset, true));
    LeadsStep(cfg, s, Trash(asset, true));
    assert r in trashed.db.resources && trashed.db.resources[r].asset == asset;
    assert Enabled(cfg, trashed, Delete(asset));
    s' := Apply(cfg, trashed, Delete(asset));
    ActionKeepsInv(cfg, trashed, Delete(asset));
    LeadsStep(cfg, trashed, Delete(asset));
    LeadsThen(cfg, s, trashed, s');
  }

  lemma CommittedKnows(cfg: Config, s: Sys, b: Id)
    requires Inv(cfg, s) && b in s.db.uploads && s.db.uploads[b].commit == Committed
    ensures var row := s.db.uploads[b];
      && row.account in s.db.accounts && row.asset in s.db.assets && row.blob.Some?
      && row.blob.value in s.db.blobs && s.db.blobs[row.blob.value].key == ObjectKey(s.db, row)
  {
    assert RowOk(cfg, s.db, s.files, b) && BlobOk(cfg, s.db, s.db.uploads[b].blob.value);
  }

  /** Its asset is trashed and deleted, which leaves its blob an orphan. */
  lemma SecondDeleted(cfg: Config, s: Sys, a: Id, b: Id) returns (s5: Sys)
    requires Inv(cfg, s) && Inspected(s, a) && a != b && s.db.uploads.Keys == {a, b} && Owns(s.db.uploads[a])
    requires s.db.uploads[a].asset != s.db.uploads[b].asset && s.db.uploads[a].account == s.db.uploads[b].account
    requires s.db.uploads[a].request.blake3 == s.db.uploads[b].request.blake3
    requires var rb := s.db.uploads[b];
      rb.commit == Committed && rb.blob.Some? && rb.resource.Some?
      && s.db.resources == map[rb.resource.value := Resource(rb.asset, rb.blob.value, rb.request.sourceResource)]
    ensures Inv(cfg, s5) && Leads(cfg, s, s5) && Inspected(s5, a)
    ensures var orphan := s.db.uploads[b].blob.value;
      Orphan(s5.db, orphan) && s5.db.uploads[a].final == Some(s5.db.blobs[orphan].key)
  {
    hide Core, Leads, Reaches, ObjectGood;
    var rb := s.db.uploads[b];
    CommittedKnows(cfg, s, b);
    InspectedKnows(cfg, s, a);
    s5 := DeletionLeads(cfg, s, rb.asset, rb.resource.value);
    assert s5.db.resources == map[];
    assert s5.db.uploads.Keys == {a} && s5.db.uploads[a] == s.db.uploads[a];
  }

  /** From two such uploads the bad case is three requests away: complete,
      complete, delete. */
  lemma RaceFromUploads(cfg: Config, w: World, s: Sys, a: Id, b: Id, k: nat) returns (s': Sys, orphan: Id)
    requires WorldOk(w) && Faultless(w) && TwoUploads(cfg, s, a, b)
    ensures Leads(cfg, s, s') && Inv(cfg, s') && Orphan(s'.db, orphan) && Inspected(s', a)
    ensures s'.db.uploads[a].final == Some(s'.db.blobs[orphan].key)
  {
    hide Core, Drive, Orphan, Leads, StagesIssued;
    var s1 := FirstInspects(cfg, w, s, a, b, k);
    InspectedKnows(cfg, s1, a);
    var s3 := SecondCommits(cfg, w, s1, a, b, k);
    s' := SecondDeleted(cfg, s3, a, b);
    orphan := s3.db.uploads[b].blob.value;
    LeadsThen(cfg, s, s1, s3);
    LeadsThen(cfg, s, s3, s');
  }

  // ----- the server's runs as they are -----------------------------------------------------

  /** What the server checks before a step: of a blob to be reclaimed, only that
      it is an orphan. */
  ghost predicate ServerEnabled(cfg: Config, s: Sys, a: Action) {
    if a.Reclaim? then Orphan(s.db, a.blob) else Enabled(cfg, s, a)
  }

  ghost function ServerApply(cfg: Config, s: Sys, a: Action): Sys
    requires ServerEnabled(cfg, s, a)
  {
    if a.Reclaim? then Reclaimed(s, a.blob, a.rowKept) else Apply(cfg, s, a)
  }

  ghost predicate ServerReaches(cfg: Config, s: Sys, steps: seq<Action>, s': Sys)
    decreases |steps|
  {
    if steps == [] then s == s'
    else ServerEnabled(cfg, s, steps[0]) && ServerReaches(cfg, ServerApply(cfg, s, steps[0]), steps[1..], s')
  }

  /** Every state of the run satisfies the invariant. */
  ghost predicate SoundThroughout(cfg: Config, s: Sys, steps: seq<Action>, s': Sys)
    requires ServerReaches(cfg, s, steps, s')
    decreases |steps|
  {
    Inv(cfg, s) && (steps != [] ==> SoundThroughout(cfg, ServerApply(cfg, s, steps[0]), steps[1..], s'))
  }

  /** No reclamation of the run takes an object that an upload relies on. */
  ghost predicate ReclaimsUnrelied(cfg: Config, s: Sys, steps: seq<Action>, s': Sys)
    requires ServerReaches(cfg, s, steps, s')
    decreases |steps|
  {
    steps != [] ==>
      (steps[0].Reclaim? ==> forall u :: !Relies(cfg, s, u, s.db.blobs[steps[0].blob].key))
      && ReclaimsUnrelied(cfg, ServerApply(cfg, s, steps[0]), steps[1..], s')
  }

  lemma ServerStepSafeIff(cfg: Config, s: Sys, a: Action)
    requires Inv(cfg, s) && ServerEnabled(cfg, s, a)
    ensures Inv(cfg, ServerApply(cfg, s, a))
            <==> (a.Reclaim? ==> forall u :: !Relies(cfg, s, u, s.db.blobs[a.blob].key))
  {
    hide Inv, Enabled, Apply, Orphan, Relies;
    if a.Reclaim? {
      ReclaimSafeIffUnrelied(cfg, s, a.blob, a.rowKept);
    } else {
      ActionKeepsInv(cfg, s, a);
    }
  }

  /** The server's runs keep the invariant throughout exactly when none of their
      reclamations takes an object that an upload relies on. */
  lemma {:induction false} ServerRunsSafeIff(cfg: Config, s: Sys, steps: seq<Action>, s': Sys)
    requires Inv(cfg, s) && ServerReaches(cfg, s, steps, s')
    ensures SoundThroughout(cfg, s, steps, s') <==> ReclaimsUnrelied(cfg, s, steps, s')
    decreases |steps|
  {
    hide Inv, ServerEnabled, ServerApply, Relies;
    if steps != [] {
      ServerStepSafeIff(cfg, s, steps[0]);
      var s1 := ServerApply(cfg, s, steps[0]);
      if Inv(cfg, s1) {
        ServerRunsSafeIff(cfg, s1, steps[1..], s');
      } else {
        assert !SoundThroughout(cfg, s1, steps[1..], s');
      }
    }
  }

  lemma {:induction false} GuardedIsServer(cfg: Config, s: Sys, steps: seq<Action>, s': Sys)
    requires Reaches(cfg, s, steps, s')
    ensures ServerReaches(cfg, s, steps, s')
    decreases |steps|
  {
    if steps != [] {
      GuardedStep(cfg, s, steps[0]);
      hide Enabled, Apply, ServerEnabled, ServerApply;
      GuardedIsServer(cfg, Apply(cfg, s, steps[0]), steps[1..], s');
    }
  }

  lemma GuardedStep(cfg: Config, s: Sys, a: Action)
    requires Enabled(cfg, s, a)
    ensures ServerEnabled(cfg, s, a) && ServerApply(cfg, s, a) == Apply(cfg, s, a)
  {
  }

  lemma {:induction false} ServerThen(cfg: Config, a: Sys, steps: seq<Action>, b: Sys, more: seq<Action>, c: Sys)
    requires ServerReaches(cfg, a, steps, b) && ServerReaches(cfg, b, more, c)
    ensures ServerReaches(cfg, a, steps + more, c)
    decreases |steps|
  {
    hide ServerEnabled, ServerApply;
    if steps == [] {
      assert [] + more == more;
    } else {
      ServerThen(cfg, ServerApply(cfg, a, steps[0]), steps[1..], b, more, c);
      assert (steps + more)[1..] == steps[1..] + more;
    }
  }

  /** A run, one reclamation of an orphan, and a run. */
  lemma ReclaimBetween(cfg: Config, s: Sys, s1: Sys, orphan: Id, s': Sys) returns (steps: seq<Action>)
    requires Leads(cfg, s, s1) && Orphan(s1.db, orphan) && Leads(cfg, Reclaimed(s1, orphan, false), s')
    ensures ServerReaches(cfg, s, steps, s')
  {
    var s2 := Reclaimed(s1, orphan, false);
    var reclaim := Reclaim(orphan, false);
    assert ServerEnabled(cfg, s1, reclaim) && ServerApply(cfg, s1, reclaim) == s2;
    assert [reclaim][1..] == [];
    assert ServerReaches(cfg, s2, [], s2);
    assert ServerReaches(cfg, s1, [reclaim], s2);
    hide Orphan, Reclaimed, ServerEnabled, ServerApply, ServerReaches, Reaches;
    var before :| Reaches(cfg, s, before, s1);
    GuardedIsServer(cfg, s, before, s1);
    var after :| Reaches(cfg, s2, after, s');
    GuardedIsServer(cfg, s2, after, s');
    ServerThen(cfg, s, before, s1, [reclaim], s2);
    ServerThen(cfg, s, before + [reclaim], s2, after, s');
    steps := before + [reclaim] + after;
  }

  // ----- from a fresh installation ------------------------------------------------------------

  /** The digest is spelled as the hash spells it. */
  ghost predicate Sends(cfg: Config, x: Sender) {
    Sent(cfg, x) && cfg.hash(Concat(x.bodies)) == x.request.blake3
  }

  /** The same content for two assets, under two resources. */
  ghost predicate SamePicture(a: Sender, b: Sender) {
    a.request.size == b.request.size && a.request.blake3 == b.request.blake3
    && (a.device != b.device || a.request.sourceAsset != b.request.sourceAsset)
    && (a.device != b.device || a.request.sourceResource != b.request.sourceResource)
  }

  /** An upload that arrived can be assembled. */
  lemma ArrivedAssembles(cfg: Config, files: Files, u: Id, x: Sender)
    requires Sends(cfg, x)
    requires forall i :: 0 <= i < |x.bodies| ==> PartFile(u, i) in files && files[PartFile(u, i)] == x.bodies[i]
    ensures Assembled(cfg, files, u, x.request.parts, x.request.size, x.request.blake3).Some?
  {
    var parts := x.request.parts;
    PutContents(files, u, parts, x.bodies, 0);
    assert parts[0..] == parts && x.bodies[0..] == x.bodies;
    forall i | 0 <= i < |parts| ensures PartStored(cfg, files, u, parts[i]) {
      assert Fits(cfg, x.bodies[i], parts[i]);
    }
    StoredPartsSize(cfg, files, u, parts);
  }

  /** Two devices upload the same picture to a fresh installation. */
  lemma TwoArrive(cfg: Config, w: World, s: Sys, account: Id, x: Sender, y: Sender) returns (s': Sys, a: Id, b: Id)
    requires WorldOk(w) && Initial(cfg, s) && Sends(cfg, x) && Sends(cfg, y) && SamePicture(x, y)
    requires account in s.db.accounts && s.db.accounts[account].enabled && s.db.accounts[account].quota == 0
    ensures Leads(cfg, s, s') && TwoUploads(cfg, s', a, b)
  {
    hide Core, Leads, Sent, WorldOk, HashOk, UpsertAsset, StagesIssued, FilesAfterPuts, TwoUploads;
    var i := DrawIsNew(w, s);
    var s0 := s.(issued := s.issued + {i});
    a := DrawIsNew(w, s0);
    WelcomeSender(cfg, s, account, x);
    FreshAsset(s.db, account, x.device, x.request.sourceAsset, i);
    assert Bodies(cfg, x.request.parts, x.bodies) by { SentBodies(cfg, x); }
    var s1 := Arrives(cfg, s, account, x.device, x.request, x.bodies, i, a);
    var j := DrawIsNew(w, s1);
    b := DrawIsNew(w, s1.(issued := s1.issued + {j}));
    WelcomeSender(cfg, s1, account, y);
    FreshAsset(s1.db, account, y.device, y.request.sourceAsset, j);
    assert Bodies(cfg, y.request.parts, y.bodies) by { SentBodies(cfg, y); }
    OthersHaveNoParts(s.files, s1.files, a, x.bodies, b);
    s' := Arrives(cfg, s1, account, y.device, y.request, y.bodies, j, b);
    LeadsThen(cfg, s, s1, s');
    InitialIsSound(cfg, s);
    LeadsKeeps(cfg, s, s');
    hide Welcome, Bodies, Initial, NoPartsFrom;
    TwoArrived(cfg, s, s1, s', account, x, y, i, a, j, b);
  }

  lemma OthersHaveNoParts(files: Files, files': Files, a: Id, bodies: seq<Bytes>, b: Id)
    requires files == map[] && FilesAfterPuts(files, files', a, bodies, |bodies|) && a != b
    ensures NoPartsFrom(files', b, 0)
  {
  }

  /** What the two arrivals come to. */
  lemma TwoArrived(cfg: Config, s: Sys, s1: Sys, s': Sys, account: Id, x: Sender, y: Sender, i: Id, a: Id, j: Id, b: Id)
    requires Initial(cfg, s) && Sends(cfg, x) && SamePicture(x, y) && Inv(cfg, s') && StagesIssued(s')
    requires account in s.db.accounts && s.db.accounts[account].enabled && s.db.accounts[account].quota == 0
    requires Arrived(s, s1, account, x.device, x.request, x.bodies, i, a) && a != b && i != j
    requires Arrived(s1, s', account, y.device, y.request, y.bodies, j, b)
    requires s1.db.uploads[a].asset == i && s'.db.uploads[b].asset == j
    ensures TwoUploads(cfg, s', a, b)
  {
    hide Core, Sent, HashOk, UpsertAsset, StagesIssued, Assembled;
    forall m | 0 <= m < |x.bodies|
      ensures PartFile(a, m) in s'.files && s'.files[PartFile(a, m)] == x.bodies[m]
    {
      assert PartFile(a, m) in s1.files && s1.files[PartFile(a, m)] == x.bodies[m];
    }
    ArrivedAssembles(cfg, s'.files, a, x);
  }

  /** On any fresh installation, two devices that hold the same picture can make
      the server answer a completion with success though the object is gone,
      with no failure anywhere: both upload, one completes up to its inspection,
      the other commits and its asset is deleted, the orphan is reclaimed, and
      the first goes on. */
  lemma RaceIsReachable(cfg: Config, w: World, s: Sys, account: Id, x: Sender, y: Sender)
    returns (steps: seq<Action>, s': Sys, u: Id)
    requires WorldOk(w) && Faultless(w) && Initial(cfg, s) && Sends(cfg, x) && Sends(cfg, y) && SamePicture(x, y)
    requires account in s.db.accounts && s.db.accounts[account].enabled && s.db.accounts[account].quota == 0
    ensures ServerReaches(cfg, s, steps, s')
    ensures u in s'.calls && s'.calls[u].Returned? && s'.calls[u].result.Ok?
    ensures u in s'.db.uploads && s'.db.uploads[u].commit == Committed
    ensures s'.db.uploads[u].final.Some? && s'.db.uploads[u].final.value !in s'.files
  {
    hide Core, Drive, Orphan, Leads, Sends, SamePicture, TwoUploads, Initial, ServerReaches, Reclaimed;
    var s1, a, b := TwoArrive(cfg, w, s, account, x, y);
    var s2, orphan := RaceFromUploads(cfg, w, s1, a, b, 0);
    RaceCommitsMissingObject(cfg, w, s2, orphan, a, 0);
    u := a;
    var s3 := ReclaimedCalls(s2, orphan);
    s' := Drive(cfg, w, s3, a, 0).0;
    DriveLeads(cfg, w, s3, a, 0);
    LeadsThen(cfg, s, s1, s2);
    steps := ReclaimBetween(cfg, s, s2, orphan, s');
  }

  lemma ReclaimedCalls(s: Sys, orphan: Id) returns (s': Sys)
    requires Orphan(s.db, orphan)
    ensures s' == Reclaimed(s, orphan, false) && s'.calls == s.calls
  {
    s' := Reclaimed(s, orphan, false);
  }
}
