/** From the client's file to the published object: whatever order the parts
    arrive in, however often they are retried, and wherever the server died, a
    completion that is left alone publishes the source, byte for byte. */
module EndToEnd {
  import opened Types
  import opened CommitModel
  import opened CommitInvariant
  import opened CommitSteps
  import opened CommitRuns
  import opened CommitSafety
  import opened Solo
  import opened Reconcile
  import opened Quota
  import opened Content
  import opened Arrivals

  /** The request describes this source, split into parts of this size. */
  ghost predicate Describes(cfg: Config, request: Request, source: Bytes, partSize: nat)
    requires 0 < partSize
  {
    request.size == |source| && request.blake3 == cfg.hash(source)
    && request.parts == Manifest(cfg, Chunks(source, partSize))
  }

  // ----- the manifest passes the server's checks ---------------------------------------

  lemma {:induction false} ManifestSize(cfg: Config, chunks: seq<Bytes>, parts: seq<PartSpec>)
    requires |parts| == |chunks| && forall i :: 0 <= i < |parts| ==> parts[i].size == |chunks[i]|
    ensures PartsSize(parts) == |Concat(chunks)|
  {
    if chunks != [] {
      ManifestSize(cfg, chunks[1..], parts[1..]);
    }
  }

  /** A prepared manifest is always accepted: the server asks nothing of parts
      and sizes that the splitter does not guarantee. */
  lemma PreparedManifestIsAccepted(cfg: Config, request: Request, source: Bytes, partSize: nat)
    requires HashOk(cfg) && 0 < partSize <= cfg.maxPart && |source| <= U64_MAX
    requires Describes(cfg, request, source, partSize)
    ensures UploadRequestOk(request, cfg.maxPart) <==> NamesFit(request)
  {
    var chunks := Chunks(source, partSize);
    ChunksJoin(source, partSize);
    ManifestSize(cfg, chunks, request.parts);
    forall i | 0 <= i < |request.parts|
      ensures var part := request.parts[i];
        part.index == i && !(part.size == 0 && request.size != 0) && part.size <= cfg.maxPart && IsBlake3(part.blake3)
    {
      assert IsBlake3(cfg.hash(chunks[i]));
    }
    assert IsBlake3(cfg.hash(source));
  }

  // ----- parts ------------------------------------------------------------------------------

  /** The contents a delivery compares: the files the server holds, the source
      and its chunks. */
  ghost function Contents(files: Files, source: Bytes, partSize: nat): set<Bytes>
    requires 0 < partSize
  {
    files.Values + {source} + (set chunk | chunk in Chunks(source, partSize))
  }

  lemma {:induction false} StoredPartsAreTheChunks(cfg: Config, files: Files, u: Id, chunks: seq<Bytes>, k: nat,
                                                   contents: set<Bytes>)
    requires CollisionFree(cfg, contents) && files.Values <= contents && k <= |chunks|
    requires forall i :: 0 <= i < |chunks| ==>
      chunks[i] in contents && PartStored(cfg, files, u, SpecOf(cfg, i, chunks[i]))
    ensures PartContents(files, u, Manifest(cfg, chunks)[k..]) == Concat(chunks[k..])
    decreases |chunks| - k
  {
    if k < |chunks| {
      StoredPartsAreTheChunks(cfg, files, u, chunks, k + 1, contents);
      assert PartStored(cfg, files, u, SpecOf(cfg, k, chunks[k]));
      assert files[PartFile(u, k)] in files.Values;
      assert Manifest(cfg, chunks)[k..][1..] == Manifest(cfg, chunks)[k + 1..];
      assert chunks[k..][1..] == chunks[k + 1..];
    }
  }

  lemma PartsAreStored(cfg: Config, s: Sys, u: Id)
    requires Inv(cfg, s) && u in s.db.uploads && AllReceived(s.db.uploads[u])
    ensures var parts := s.db.uploads[u].request.parts;
      forall i :: 0 <= i < |parts| ==> PartStored(cfg, s.files, u, parts[i])
  {
    var row := s.db.uploads[u];
    assert RowOk(cfg, s.db, s.files, u);
    hide Core, PartStored;
    forall i | 0 <= i < |row.request.parts| ensures PartStored(cfg, s.files, u, row.request.parts[i]) {
      assert row.parts[i].received && row.parts[i].spec == row.request.parts[i];
    }
  }

  /** Once every part is recorded, the stored parts are the source. */
  lemma ReceivedPartsAreTheSource(cfg: Config, s: Sys, u: Id, source: Bytes, partSize: nat)
    requires Inv(cfg, s) && u in s.db.uploads && 0 < partSize
    requires CollisionFree(cfg, Contents(s.files, source, partSize))
    requires Describes(cfg, s.db.uploads[u].request, source, partSize) && AllReceived(s.db.uploads[u])
    ensures PartContents(s.files, u, s.db.uploads[u].request.parts) == source
    ensures Honest(cfg, s.files, u, s.db.uploads[u].request)
    ensures Assembled(cfg, s.files, u, s.db.uploads[u].request.parts, |source|, cfg.hash(source)) == Some(source)
  {
    var row, chunks := s.db.uploads[u], Chunks(source, partSize);
    PartsAreStored(cfg, s, u);
    hide Inv, Chunks, PartStored, CollisionFree, SpecOf;
    assert forall i :: 0 <= i < |chunks| ==> row.request.parts[i] == SpecOf(cfg, i, chunks[i]);
    StoredPartsAreTheChunks(cfg, s.files, u, chunks, 0, Contents(s.files, source, partSize));
    ChunksJoin(source, partSize);
    assert Manifest(cfg, chunks)[0..] == row.request.parts && chunks[0..] == chunks;
  }

  /** Every part file holds what its upload's manifest says of it. */
  ghost predicate PartFilesFit(cfg: Config, s: Sys) {
    forall key :: key in s.files && key.PartFile? ==>
      key.upload in s.issued
      && (key.upload in s.db.uploads ==>
            key.index < |s.db.uploads[key.upload].request.parts|
            && PartStored(cfg, s.files, key.upload, s.db.uploads[key.upload].request.parts[key.index]))
  }

  lemma NewPartFile(cfg: Config, s: Sys, a: Action, key: Key)
    requires Inv(cfg, s) && Enabled(cfg, s, a) && key.PartFile? && key in Apply(cfg, s, a).files
    ensures (key in s.files && Apply(cfg, s, a).files[key] == s.files[key])
         || (a.PutLink? && key == PartFile(s.puts[a.put].upload, s.puts[a.put].spec.index)
             && Apply(cfg, s, a).files[key] == a.body)
  {
    if a.Step? {
      ActSound(cfg, s.db, s.files, a.upload, s.calls[a.upload], a.choice);
      var e := Act(cfg, s.db, s.files, a.upload, s.calls[a.upload], a.choice);
      hide Act;
      EffectFiles(cfg, s.files, a.upload, e, key);
    } else if a.PartialStage? {
      assert PcOk(cfg, s.db, s.files, a.upload, s.calls[a.upload]);
    }
  }

  lemma OldUploadStays(cfg: Config, s: Sys, a: Action, u: Id)
    requires Inv(cfg, s) && Enabled(cfg, s, a) && u in s.issued && u in Apply(cfg, s, a).db.uploads
    ensures u in s.db.uploads && Apply(cfg, s, a).db.uploads[u].request == s.db.uploads[u].request
  {
    if u !in s.db.uploads {
      NoRebirth(cfg, s, a, u);
    } else {
      ActionLater(cfg, s, a, u);
    }
  }

  lemma ActionFitsParts(cfg: Config, s: Sys, a: Action)
    requires Inv(cfg, s) && Enabled(cfg, s, a) && PartFilesFit(cfg, s)
    ensures PartFilesFit(cfg, Apply(cfg, s, a))
  {
    var s' := Apply(cfg, s, a);
    IssuedGrows(cfg, s, a);
    forall key | key in s'.files && key.PartFile?
      ensures key.upload in s'.issued
      ensures key.upload in s'.db.uploads ==>
        key.index < |s'.db.uploads[key.upload].request.parts|
        && PartStored(cfg, s'.files, key.upload, s'.db.uploads[key.upload].request.parts[key.index])
    {
      NewPartFile(cfg, s, a, key);
      if a.PutLink? {
        assert PutOk(cfg, s.db, s.files, s.puts[a.put]);
      }
      if key.upload in s'.db.uploads {
        assert key.upload in s.issued;
        assert RowOk(cfg, s.db, s.files, key.upload);
        OldUploadStays(cfg, s, a, key.upload);
      }
    }
  }

  /** A retried part never meets a conflicting file, in any run: putting the
      right bytes again, in any order, always succeeds. */
  lemma {:induction false} RetriedPartsNeverConflict(cfg: Config, states: seq<Sys>, actions: seq<Action>, i: nat)
    requires Run(cfg, states, actions) && i < |states|
    ensures PartFilesFit(cfg, states[i])
  {
    if i > 0 {
      RetriedPartsNeverConflict(cfg, states, actions, i - 1);
      RunInv(cfg, states, actions, i - 1);
      ActionFitsParts(cfg, states[i - 1], actions[i - 1]);
    }
  }

  // ----- completion ----------------------------------------------------------------------------

  /** The upload can be completed: nothing is missing, and it is neither ended
      nor, if it has yet to begin, barred. */
  ghost predicate Completable(s: Sys, u: Id) {
    u in s.db.uploads
    && var row := s.db.uploads[u];
       row.account in s.db.accounts && s.db.accounts[row.account].quota <= I64_MAX
       && row.commit in {Receiving, Started, Finalizing}
       && (row.commit == Receiving ==> AllReceived(row) && s.db.accounts[row.account].enabled)
  }

  /** If the upload relies on content stored before, that content is there. */
  ghost predicate ReliedOnIsPresent(s: Sys, u: Id)
    requires Completable(s, u)
  {
    var row := s.db.uploads[u];
    (if row.commit == Receiving then FindBlob(s.db, row.account, row.request.blake3).Some? else row.staged.None?)
    ==> ObjectKey(s.db, row) in s.files
  }

  /** An upload that told the truth up to the spelling of its digest. */
  ghost predicate HonestSpelling(cfg: Config, files: Files, u: Id, request: Request) {
    cfg.hash(PartContents(files, u, request.parts)) == Lower(request.blake3)
  }

  /** The stored parts make up the content exactly when the digest is spelled
      in lower case. */
  lemma AssembledIffLower(cfg: Config, s: Sys, u: Id)
    requires Inv(cfg, s) && u in s.db.uploads && AllReceived(s.db.uploads[u])
    requires HonestSpelling(cfg, s.files, u, s.db.uploads[u].request)
    ensures var request := s.db.uploads[u].request;
      Assembled(cfg, s.files, u, request.parts, request.size, request.blake3).Some?
      <==> Lower(request.blake3) == request.blake3
  {
    var row := s.db.uploads[u];
    assert RowOk(cfg, s.db, s.files, u);
    hide Core;
    forall i | 0 <= i < |row.request.parts| ensures PartStored(cfg, s.files, u, row.request.parts[i]) {
      assert row.parts[i].received && row.parts[i].spec == row.request.parts[i];
    }
    StoredPartsSize(cfg, s.files, u, row.request.parts);
  }

  /** The object at an upload's key is its content exactly when sizes agree and
      the digest is spelled in lower case. */
  lemma ObjectGoodIffLower(cfg: Config, s: Sys, u: Id)
    requires Inv(cfg, s) && u in s.db.uploads && s.db.uploads[u].account in s.db.accounts
    requires ObjectKey(s.db, s.db.uploads[u]) in s.files
    ensures var row, key := s.db.uploads[u], ObjectKey(s.db, s.db.uploads[u]);
      ObjectGood(cfg, s.files, key, row.request)
      <==> Lower(row.request.blake3) == row.request.blake3 && |s.files[key]| == row.request.size
  {
    assert ObjectOk(cfg, s.files, ObjectKey(s.db, s.db.uploads[u]));
  }

  /** An upload that names its content in upper case never adopts a blob. */
  lemma UpperCaseStandsAlone(cfg: Config, s: Sys, u: Id)
    requires Inv(cfg, s) && u in s.db.uploads
    requires Lower(s.db.uploads[u].request.blake3) != s.db.uploads[u].request.blake3
    ensures var row := s.db.uploads[u];
      && FindBlob(s.db, row.account, row.request.blake3).None? && row.commit != Finalizing && row.commit != Committed
      && (row.commit == Started ==> row.staged.Some? && !StageGood(cfg, s.files, row.staged, row.request))
  {
    var row := s.db.uploads[u];
    assert RowOk(cfg, s.db, s.files, u);
    BlobsAreLower(cfg, s);
    hide Core;
  }

  lemma BlobsAreLower(cfg: Config, s: Sys)
    requires Inv(cfg, s)
    ensures forall b :: b in s.db.blobs ==> Lower(s.db.blobs[b].blake3) == s.db.blobs[b].blake3
  {
    forall b | b in s.db.blobs ensures Lower(s.db.blobs[b].blake3) == s.db.blobs[b].blake3 {
      assert BlobOk(cfg, s.db, b);
    }
  }

  /** What decides the upload's completion, begun or not. */
  ghost function Fate(cfg: Config, s: Sys, u: Id): Commit
    requires Completable(s, u)
  {
    if s.db.uploads[u].commit == Receiving then FirstVerdict(cfg, s, u) else Verdict(cfg, s, u)
  }

  lemma FateHolds(cfg: Config, w: World, s: Sys, u: Id, k: nat)
    requires WorldOk(w) && Faultless(w) && Inv(cfg, s) && StageFilesIssued(s) && u !in s.calls
    requires Completable(s, u) && WithinQuota(s.db, s.db.uploads[u].account)
    ensures EndsAs(cfg, w, s.(calls := s.calls[u := Load(None)]), u, k, Fate(cfg, s, u))
  {
    var row := s.db.uploads[u];
    assert RowOk(cfg, s.db, s.files, u);
    WithinQuotaCommits(s.db, row.account, u);
    hide Core, CommitQuotaOk, WithinQuota, Drive, FindBlob, Assembled, EndsAs, FirstVerdict, Verdict;
    if row.commit == Receiving {
      FirstCompletion(cfg, w, s, u, k);
    } else {
      ResumedCompletion(cfg, w, s, u, k);
    }
  }

  lemma FateOfHonest(cfg: Config, s: Sys, u: Id)
    requires Inv(cfg, s) && Completable(s, u) && HonestSpelling(cfg, s.files, u, s.db.uploads[u].request)
    ensures var row := s.db.uploads[u];
      Fate(cfg, s, u) == Committed
      <==> Lower(row.request.blake3) == row.request.blake3 && ReliedOnIsPresent(s, u) && SizesFit(s, u)
  {
    var row, key := s.db.uploads[u], ObjectKey(s.db, s.db.uploads[u]);
    assert RowOk(cfg, s.db, s.files, u);
    assert AllReceived(row);
    AssembledIffLower(cfg, s, u);
    if key in s.files {
      ObjectGoodIffLower(cfg, s, u);
    }
    if Lower(row.request.blake3) != row.request.blake3 {
      UpperCaseStandsAlone(cfg, s, u);
    }
    if FindBlob(s.db, row.account, row.request.blake3).None? {
      NewContentFits(s.db, row.account, row.request);
    }
    hide Core, SizeRecorded, FindBlob, Assembled, ObjectGood, StageGood, RowOk, Lower;
  }

  /** Left alone and within its quota, an upload that told the truth, up to the
      spelling of its digest, commits exactly when it spells it in lower case,
      what it relies on is there, and what is stored under the digest has its
      size. */
  lemma SpellingDecides(cfg: Config, w: World, states: seq<Sys>, actions: seq<Action>, i: nat, u: Id, k: nat)
    requires WorldOk(w) && Faultless(w) && Run(cfg, states, actions) && i < |states|
    requires u !in states[i].calls && Completable(states[i], u)
    requires HonestSpelling(cfg, states[i].files, u, states[i].db.uploads[u].request)
    ensures var s, request := states[i], states[i].db.uploads[u].request;
      Commits(cfg, w, s.(calls := s.calls[u := Load(None)]), u, k)
      <==> Lower(request.blake3) == request.blake3 && ReliedOnIsPresent(s, u) && SizesFit(s, u)
  {
    var s := states[i];
    RunInv(cfg, states, actions, i);
    StagesAreIssued(cfg, states, actions, i);
    QuotaIsConserved(cfg, states, actions, i, s.db.uploads[u].account);
    FateHolds(cfg, w, s, u, k);
    FateOfHonest(cfg, s, u);
    hide Inv, Run, Fate, Drive, ReliedOnIsPresent, SizesFit, Lower;
  }

  lemma SpellingKeepsForm(s: string)
    ensures IsBlake3(Lower(s)) <==> IsBlake3(s)
  {
    assert forall i :: 0 <= i < |s| ==> Lower(s)[i] == LowerChar(s[i]);
    if IsBlake3(Lower(s)) {
      forall i | 0 <= i < |s| ensures IsHexDigit(s[i]) {
        assert IsHexDigit(Lower(s)[i]);
      }
    }
  }

  /** The server's check of requests does not look at the case of the digest. */
  lemma AnySpellingIsAccepted(cfg: Config, request: Request, blake3: string)
    requires Lower(blake3) == Lower(request.blake3)
    ensures UploadRequestOk(request.(blake3 := blake3), cfg.maxPart) <==> UploadRequestOk(request, cfg.maxPart)
  {
    SpellingKeepsForm(blake3);
    SpellingKeepsForm(request.blake3);
  }

  /** A received upload of a fresh installation, named with an upper-case digit,
      can begin and is decided failed. */
  lemma UpperCaseVerdict(cfg: Config, s: Sys, s1: Sys, account: Id, x: Sender, assetId: Id, u: Id)
    requires Initial(cfg, s) && Inv(cfg, s1) && Arrived(s, s1, account, x.device, x.request, x.bodies, assetId, u)
    requires account in s.db.accounts && s.db.accounts[account].enabled && s.db.accounts[account].quota == 0
    requires Lower(x.request.blake3) != x.request.blake3
    ensures CanBegin(s1.db, u) && FirstVerdict(cfg, s1, u) == Failed
  {
    NoBlobs(s1.db, account, x.request.blake3);
    assert Lower(cfg.hash(PartContents(s1.files, u, x.request.parts)))
        == cfg.hash(PartContents(s1.files, u, x.request.parts));
    hide Core;
  }

  /** On any fresh installation, any content sent under a digest with an
      upper-case digit is accepted and received whole, and then fails. */
  lemma UpperCaseFails(cfg: Config, w: World, s: Sys, account: Id, x: Sender, k: nat) returns (s1: Sys, u: Id)
    requires WorldOk(w) && Faultless(w) && Initial(cfg, s) && Sent(cfg, x)
    requires account in s.db.accounts && s.db.accounts[account].enabled && s.db.accounts[account].quota == 0
    requires Lower(x.request.blake3) != x.request.blake3
    ensures Leads(cfg, s, s1) && u !in s1.calls && u in s1.db.uploads && AllReceived(s1.db.uploads[u])
    ensures s1.db.uploads[u].account == account && s1.db.uploads[u].request == x.request
    ensures Stops(cfg, w, s1.(calls := s1.calls[u := Load(None)]), u, k, Failed)
  {
    hide Core, Leads, Sent, WorldOk, HashOk, UpsertAsset, StagesIssued, Arrived, Drive, FirstVerdict, CanBegin, Stops;
    var i := DrawIsNew(w, s);
    u := DrawIsNew(w, s.(issued := s.issued + {i}));
    WelcomeSender(cfg, s, account, x);
    SentBodies(cfg, x);
    s1 := Arrives(cfg, s, account, x.device, x.request, x.bodies, i, u);
    InitialIsSound(cfg, s);
    LeadsKeeps(cfg, s, s1);
    UpperCaseVerdict(cfg, s, s1, account, x, i, u);
    ArrivedRow(s, s1, account, x, i, u);
    FirstCompletion(cfg, w, s1, u, k);
  }

  lemma ArrivedRow(s: Sys, s1: Sys, account: Id, x: Sender, assetId: Id, u: Id)
    requires Arrived(s, s1, account, x.device, x.request, x.bodies, assetId, u) && s.calls == map[]
    requires StagesIssued(s1)
    ensures u !in s1.calls && u in s1.db.uploads && AllReceived(s1.db.uploads[u]) && StageFilesIssued(s1)
    ensures s1.db.uploads[u].account == account && s1.db.uploads[u].request == x.request
  {
  }

  /** An object at the upload's key is the source already. */
  lemma ObjectIsTheSource(cfg: Config, s: Sys, u: Id, source: Bytes, contents: set<Bytes>)
    requires Inv(cfg, s) && u in s.db.uploads && s.db.uploads[u].account in s.db.accounts
    requires CollisionFree(cfg, contents) && source in contents && s.files.Values <= contents
    requires s.db.uploads[u].request.blake3 == cfg.hash(source) && ObjectKey(s.db, s.db.uploads[u]) in s.files
    ensures s.files[ObjectKey(s.db, s.db.uploads[u])] == source
  {
    var key := ObjectKey(s.db, s.db.uploads[u]);
    assert ObjectOk(cfg, s.files, key) && Lower(cfg.hash(source)) == cfg.hash(source);
    assert s.files[key] in s.files.Values;
  }

  /** With contents told apart, an object at the upload's key has its size. */
  lemma SourceSizesFit(cfg: Config, s: Sys, u: Id, source: Bytes, contents: set<Bytes>)
    requires Inv(cfg, s) && u in s.db.uploads && s.db.uploads[u].account in s.db.accounts
    requires CollisionFree(cfg, contents) && source in contents && s.files.Values <= contents
    requires s.db.uploads[u].request.blake3 == cfg.hash(source) && s.db.uploads[u].request.size == |source|
    ensures SizesFit(s, u) <==> SizeRecorded(s.db, s.db.uploads[u].account, s.db.uploads[u].request)
    ensures Lower(cfg.hash(source)) == cfg.hash(source)
  {
    if ObjectKey(s.db, s.db.uploads[u]) in s.files {
      ObjectIsTheSource(cfg, s, u, source, contents);
    }
  }

  // ----- what a completion writes ------------------------------------------------------

  /** A completion writes its assembled parts, or a file that is there. */
  lemma ActWrites(cfg: Config, db: Db, files: Files, u: Id, pc: Pc, ch: Choice, contents: set<Bytes>)
    requires PcOk(cfg, db, files, u, pc) && u in db.uploads && files.Values <= contents
    requires PartContents(files, u, db.uploads[u].request.parts) in contents
    ensures var e := Act(cfg, db, files, u, pc, ch); e.write.Some? ==> e.write.value.1 in contents
  {
    hide FindBlob, FindResource, CommitQuotaOk, ContentIs, CandidateValid, CommittedMetadataOk, IsContent, ObjectGood,
      ApprovedOk, CandidateRow, AllReceived, PartStored, PartContents, ActMetadataTx, ReadyOk, StageGood;
    MetadataWritesNoFile(db, u, pc, ch.uuid);
    match pc
    case Assemble(_) =>
    case Publish(ready) =>
      if ready.staged.Some? && ready.staged.value in files {
        assert files[ready.staged.value] in files.Values;
      }
    case _ =>
  }

  lemma MetadataWritesNoFile(db: Db, u: Id, pc: Pc, uuid: Id)
    ensures pc.MetadataTx? ==> ActMetadataTx(db, u, pc.ready, pc.attempt, pc.approved, uuid).write.None?
  {
  }

  lemma AdvanceHolds(cfg: Config, s: Sys, u: Id, ch: Choice, contents: set<Bytes>)
    requires Inv(cfg, s) && u in s.calls && u in s.db.uploads && s.files.Values <= contents
    requires PartContents(s.files, u, s.db.uploads[u].request.parts) in contents
    ensures Advance(cfg, s, u, ch).files.Values <= contents
  {
    ActWrites(cfg, s.db, s.files, u, s.calls[u], ch, contents);
    hide Core, Act, PartContents;
    var files' := Advance(cfg, s, u, ch).files;
    forall content | content in files'.Values ensures content in contents {
      var key :| key in files' && files'[key] == content;
      if key in s.files {
        assert s.files[key] in s.files.Values;
      }
    }
  }

  lemma {:induction false} DriveHolds(cfg: Config, w: World, s: Sys, u: Id, k: nat, contents: set<Bytes>)
    requires Inv(cfg, s) && u in s.calls && u in s.db.uploads && WorldOk(w) && s.files.Values <= contents
    requires PartContents(s.files, u, s.db.uploads[u].request.parts) in contents
    ensures Drive(cfg, w, s, u, k).0.files.Values <= contents
    decreases PcRank(s.calls[u])
  {
    if !s.calls[u].Returned? {
      var ch := Draw(w, s, k);
      RankFalls(cfg, s.db, s.files, u, s.calls[u], ch);
      AdvanceKeepsInv(cfg, s, u, ch);
      AdvanceOnlyOwn(cfg, s, u, ch);
      AdvanceHolds(cfg, s, u, ch, contents);
      SamePartContents(s.files, Advance(cfg, s, u, ch).files, u, s.db.uploads[u].request.parts);
      hide Core, Advance, PartContents;
      DriveHolds(cfg, w, Advance(cfg, s, u, ch), u, k + 1, contents);
    }
  }

  // ----- delivery ----------------------------------------------------------------------

  /** End to end: in every state any run can reach, a completion of an upload of
      `source` that is now left alone commits, and publishes exactly `source`,
      exactly when content it was to share has not been taken away under it and
      is recorded with its size. */
  lemma TheSourceIsDelivered(cfg: Config, w: World, states: seq<Sys>, actions: seq<Action>, i: nat, u: Id, k: nat,
                             source: Bytes, partSize: nat)
    requires WorldOk(w) && Faultless(w) && Run(cfg, states, actions) && i < |states|
    requires u !in states[i].calls && Completable(states[i], u)
    requires 0 < partSize && Describes(cfg, states[i].db.uploads[u].request, source, partSize)
    requires CollisionFree(cfg, Contents(states[i].files, source, partSize))
    ensures var s, row := states[i], states[i].db.uploads[u];
      var s0 := s.(calls := s.calls[u := Load(None)]);
      var s' := Drive(cfg, w, s0, u, k).0;
      (Commits(cfg, w, s0, u, k) <==> ReliedOnIsPresent(s, u) && SizeRecorded(s.db, row.account, row.request))
      && (Commits(cfg, w, s0, u, k) ==>
            s'.db.uploads[u].account in s'.db.accounts
            && var key := ObjectKey(s'.db, s'.db.uploads[u]);
               s'.db.uploads[u].final == Some(key) && key in s'.files && s'.files[key] == source)
  {
    RunInv(cfg, states, actions, i);
    var s := states[i];
    var contents := Contents(s.files, source, partSize);
    CompletableReceived(cfg, s, u);
    ReceivedPartsAreTheSource(cfg, s, u, source, partSize);
    SourceSizesFit(cfg, s, u, source, contents);
    SpellingDecides(cfg, w, states, actions, i, u, k);
    hide Core, Run, Drive, Contents, ReliedOnIsPresent, SizeRecorded, SizesFit, CollisionFree;
    if Commits(cfg, w, s.(calls := s.calls[u := Load(None)]), u, k) {
      assert source in contents && s.files.Values <= contents by { ContentsHold(s.files, source, partSize); }
      Delivered(cfg, w, s, u, k, source, contents);
    }
  }

  lemma ContentsHold(files: Files, source: Bytes, partSize: nat)
    requires 0 < partSize
    ensures source in Contents(files, source, partSize) && files.Values <= Contents(files, source, partSize)
  {
  }

  lemma CompletableReceived(cfg: Config, s: Sys, u: Id)
    requires Inv(cfg, s) && Completable(s, u)
    ensures AllReceived(s.db.uploads[u])
  {
    assert RowOk(cfg, s.db, s.files, u);
  }

  lemma Delivered(cfg: Config, w: World, s: Sys, u: Id, k: nat, source: Bytes, contents: set<Bytes>)
    requires WorldOk(w) && Faultless(w) && Inv(cfg, s) && u !in s.calls && u in s.db.uploads
    requires CollisionFree(cfg, contents) && source in contents && s.files.Values <= contents
    requires Commits(cfg, w, s.(calls := s.calls[u := Load(None)]), u, k)
    requires s.db.uploads[u].request.blake3 == cfg.hash(source)
    requires PartContents(s.files, u, s.db.uploads[u].request.parts) == source
    ensures var s' := Drive(cfg, w, s.(calls := s.calls[u := Load(None)]), u, k).0;
      s'.db.uploads[u].account in s'.db.accounts
      && var key := ObjectKey(s'.db, s'.db.uploads[u]);
         s'.db.uploads[u].final == Some(key) && key in s'.files && s'.files[key] == source
  {
    hide Core;
    var s0 := Begun(cfg, w, s, u);
    DriveKeepsInv(cfg, w, s0, u, k);
    DriveOnlyOwn(cfg, w, s0, u, k);
    DriveHolds(cfg, w, s0, u, k, contents);
    hide Drive;
    CommittedHolds(cfg, Drive(cfg, w, s0, u, k).0, u, source, contents);
  }

  lemma CommittedHolds(cfg: Config, s: Sys, u: Id, source: Bytes, contents: set<Bytes>)
    requires Inv(cfg, s) && u in s.db.uploads && s.db.uploads[u].commit == Committed
    requires CollisionFree(cfg, contents) && source in contents && s.files.Values <= contents
    requires s.db.uploads[u].request.blake3 == cfg.hash(source)
    ensures s.db.uploads[u].account in s.db.accounts
    ensures var key := ObjectKey(s.db, s.db.uploads[u]);
      s.db.uploads[u].final == Some(key) && key in s.files && s.files[key] == source
  {
    assert RowOk(cfg, s.db, s.files, u);
    hide Core;
    ObjectIsTheSource(cfg, s, u, source, contents);
  }
}
