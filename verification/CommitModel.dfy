/** The upload commit protocol as data: the SQLite rows, the content-addressed
    files, and one program counter per running completion. `Act` is one atomic
    step of a completion: one SQL transaction or one storage call. */
module CommitModel {
  import opened Types

  // ----- files ---------------------------------------------------------------

  /** Where a file lives. Module StorageKeys shows that the textual keys of the
      server name distinct files exactly when these values differ. */
  datatype Key =
    | PartFile(upload: Id, index: nat)
    | StageFile(path: string, upload: Id, nonce: Id)
    | ObjectFile(path: string, shelf: string, digest: string)

  type Files = map<Key, Bytes>

  /** The final key of `commit_keys`: the directory keeps the first two digits
      as they were sent, the name is the digest in lower case. */
  function ObjectFor(path: string, blake3: string): Key {
    ObjectFile(path, if |blake3| < 2 then blake3 else blake3[..2], Lower(blake3))
  }

  // ----- rows ----------------------------------------------------------------

  /** Names and metadata are kept as the bytes their length limits count. */
  datatype Request = Request(
    sourceAsset: string, sourceResource: string, filename: Bytes, mimeType: Bytes, metadata: Option<Bytes>,
    size: nat, blake3: string, parts: seq<PartSpec>)

  datatype PartRow = PartRow(spec: PartSpec, received: bool)

  datatype Commit = Receiving | Started | Finalizing | Committed | Unknown | Failed

  datatype Account = Account(path: string, quota: nat, enabled: bool)

  datatype Asset = Asset(account: Id, device: Id, source: string, trashed: bool)

  datatype Blob = Blob(account: Id, blake3: string, size: nat, key: Key)

  datatype Resource = Resource(asset: Id, blob: Id, source: string)

  /** A row of `uploads` with its rows of `upload_parts`; `done` is the column
      `state = 'complete'`. */
  datatype Upload = Upload(
    account: Id, device: Id, asset: Id, request: Request, parts: seq<PartRow>,
    done: bool, commit: Commit,
    staged: Option<Key>, final: Option<Key>, path: Option<string>,
    size: Option<nat>, blake3: Option<string>,
    blob: Option<Id>, resource: Option<Id>, deduplicated: bool)

  datatype Db = Db(
    accounts: map<Id, Account>, assets: map<Id, Asset>, blobs: map<Id, Blob>,
    resources: map<Id, Resource>, uploads: map<Id, Upload>)

  predicate AllReceived(row: Upload) {
    forall i :: 0 <= i < |row.parts| ==> row.parts[i].received
  }

  // ----- queries -------------------------------------------------------------

  predicate IsContent(db: Db, b: Id, account: Id, blake3: string) {
    b in db.blobs && db.blobs[b].account == account && db.blobs[b].blake3 == blake3
  }

  /** The row of `blobs` for one content of one account. */
  ghost function FindBlob(db: Db, account: Id, blake3: string): (r: Option<Id>)
    ensures r.Some? ==> IsContent(db, r.value, account, blake3)
    ensures r.None? ==> forall b :: !IsContent(db, b, account, blake3)
  {
    if exists b :: IsContent(db, b, account, blake3) then
      var b :| IsContent(db, b, account, blake3); Some(b)
    else None
  }

  predicate IsSlot(db: Db, r: Id, asset: Id, source: string) {
    r in db.resources && db.resources[r].asset == asset && db.resources[r].source == source
  }

  /** The row of `resources` that UNIQUE(asset_id, source_resource_id) names. */
  ghost function FindResource(db: Db, asset: Id, source: string): (r: Option<Id>)
    ensures r.Some? ==> IsSlot(db, r.value, asset, source)
    ensures r.None? ==> forall k :: !IsSlot(db, k, asset, source)
  {
    if exists k :: IsSlot(db, k, asset, source) then
      var k :| IsSlot(db, k, asset, source); Some(k)
    else None
  }

  ghost function MapSum(m: map<Id, nat>): nat {
    if m == map[] then 0 else
      var k :| k in m;
      m[k] + MapSum(m - {k})
  }

  /** The bytes of an account's blobs, blob by blob. */
  function BlobSizes(db: Db, account: Id): map<Id, nat> {
    map b | b in db.blobs :: if db.blobs[b].account == account then db.blobs[b].size else 0
  }

  function RowsSize(parts: seq<PartRow>): nat {
    if parts == [] then 0 else parts[0].spec.size + RowsSize(parts[1..])
  }

  predicate Reserves(row: Upload, account: Id, states: set<Commit>) {
    row.account == account && !row.done && row.commit in states
  }

  /** The bytes an account's unfinished uploads reserve, upload by upload. */
  function Reservations(db: Db, account: Id, states: set<Commit>): map<Id, nat> {
    map u | u in db.uploads ::
      if Reserves(db.uploads[u], account, states) then RowsSize(db.uploads[u].parts) else 0
  }

  const ACTIVE: set<Commit> := {Receiving, Started, Finalizing}
  const RESERVING: set<Commit> := {Receiving, Started, Finalizing, Unknown}

  function Saturate(n: nat): nat {
    if n <= I64_MAX then n else I64_MAX
  }

  // ----- storage -------------------------------------------------------------

  datatype ObjectState = Missing | Matches | Mismatch

  function InspectFile(cfg: Config, files: Files, key: Key, size: nat, blake3: string): ObjectState {
    if key !in files then Missing
    else if ContentIs(cfg, files[key], size, blake3) then Matches
    else Mismatch
  }

  /** `scoped_blob_key`: the key lies below the account's directory. */
  predicate InScope(path: string, key: Key) {
    !key.PartFile? && key.path == path
  }

  /** `commit_stage_key`: the key is a stage of this account and this upload. */
  predicate IsStageOf(path: string, u: Id, key: Key) {
    key.StageFile? && key.path == path && key.upload == u
  }

  predicate PartStored(cfg: Config, files: Files, u: Id, spec: PartSpec) {
    var key := PartFile(u, spec.index);
    key in files && ContentIs(cfg, files[key], spec.size, spec.blake3)
  }

  function PartContents(files: Files, u: Id, parts: seq<PartSpec>): Bytes {
    if parts == [] then []
    else
      (if PartFile(u, parts[0].index) in files then files[PartFile(u, parts[0].index)] else [])
      + PartContents(files, u, parts[1..])
  }

  /** What `assemble_commit` writes: the stored parts in manifest order, if each
      still matches its entry and the whole matches the request. */
  function Assembled(cfg: Config, files: Files, u: Id, parts: seq<PartSpec>,
                     size: nat, blake3: string): Option<Bytes>
  {
    var content := PartContents(files, u, parts);
    if (forall i :: 0 <= i < |parts| ==> PartStored(cfg, files, u, parts[i]))
       && ContentIs(cfg, content, size, blake3)
    then Some(content) else None
  }

  // ----- a running completion ------------------------------------------------

  datatype Refusal =
    | NotFound | Unauthorized | Conflict | Forbidden | OverQuota | BadRequest | TooLarge | StorageError

  datatype Outcome = Outcome(resource: Id, asset: Id, deduplicated: bool)

  /** The checked snapshot a completion works from (`ReadyCommit`). */
  datatype Ready = Ready(
    account: Id, asset: Id, request: Request, staged: Option<Key>, final: Key,
    path: string, blob: Id)

  datatype Candidate = Candidate(id: Id, key: Key, size: nat, blake3: string)

  /** Where a completion stands, with its local variables. Each value names the
      storage call or transaction that comes next. */
  datatype Pc =
    | Load(required: Option<Id>)
    | BeginCheck(account: Id, request: Request)
    | BeginTx(account: Id, request: Request)
    | Reload(account: Id)
    | InspectStarted(ready: Ready)
    | Assemble(ready: Ready)
    | ToFinalizing(ready: Ready)
    | InspectFinal(ready: Ready)
    | InspectStage(ready: Ready)
    | Publish(ready: Ready)
    | LoadCandidate(ready: Ready, attempt: nat, approved: Option<Candidate>)
    | CheckCandidate(ready: Ready, attempt: nat, candidate: Candidate)
    | MetadataTx(ready: Ready, attempt: nat, approved: Option<Candidate>)
    | CheckActual(ready: Ready, attempt: nat, candidate: Candidate)
    | CheckMetadata(ready: Ready, resource: Id, deduplicated: bool)
    | CheckObject(ready: Ready, outcome: Outcome)
    | DropStage(ready: Ready, outcome: Outcome, strict: bool)
    | Mark(target: Commit)
    | Returned(result: Result<Outcome, Refusal>)

  /** What the environment decides at a step: the UUID drawn, and whether the
      storage call or transaction fails, before or after its effect. */
  datatype Fault = Works | Fails | FailsLate

  datatype Choice = Choice(uuid: Id, fault: Fault)

  /** Everything one step changes: at most one upload row, one new blob row, one
      upserted resource row, one written file and one removed file. */
  datatype Effect = Effect(
    row: Option<Upload>, blob: Option<(Id, Blob)>, resource: Option<(Id, Resource)>,
    write: Option<(Key, Bytes)>, remove: Option<Key>, pc: Pc)

  function Goto(pc: Pc): Effect {
    Effect(None, None, None, None, None, pc)
  }

  function Refuse(reason: Refusal): Effect {
    Goto(Returned(Err(reason)))
  }

  /** `ready_commit`. */
  function ReadyCommit(row: Upload, currentPath: string): Option<Ready> {
    if row.path == Some(currentPath)
       && row.size == Some(row.request.size) && row.blake3 == Some(row.request.blake3)
       && row.final.Some? && row.blob.Some?
    then Some(Ready(row.account, row.asset, row.request, row.staged, row.final.value,
                    currentPath, row.blob.value))
    else None
  }

  /** What `complete_inner` does next with a loaded record. */
  function Dispatch(row: Upload, path: string): Pc {
    var ready := ReadyCommit(row, path);
    match row.commit
    case Unknown => Returned(Err(Conflict))
    case Failed => Returned(Err(Conflict))
    case Receiving => BeginCheck(row.account, row.request)
    case Started => if ready.None? then Mark(Unknown) else InspectStarted(ready.value)
    case Finalizing => if ready.None? then Mark(Unknown) else InspectFinal(ready.value)
    case Committed =>
      if ready.None? || row.resource.None? then Mark(Unknown)
      else CheckMetadata(ready.value, row.resource.value, row.deduplicated)
  }

  /** `load_commit`. */
  function ActLoad(db: Db, u: Id, required: Option<Id>): Effect {
    if u !in db.uploads || (required.Some? && db.uploads[u].account != required.value)
       || db.uploads[u].account !in db.accounts
    then Refuse(NotFound)
    else Goto(Dispatch(db.uploads[u], db.accounts[db.uploads[u].account].path))
  }

  /** `load_commit` after `begin_commit`. */
  function ActReload(db: Db, u: Id, account: Id): Effect {
    if u in db.uploads && db.uploads[u].commit !in {Started, Finalizing} then Refuse(Conflict)
    else ActLoad(db, u, Some(account))
  }

  /** The manifest and missing-part checks of `begin_commit`. */
  function ActBeginCheck(db: Db, u: Id, account: Id, request: Request): Effect {
    if request.parts == [] then Goto(Mark(Failed))
    else if PartsSize(request.parts) > U64_MAX then Refuse(Conflict)
    else if request.size != PartsSize(request.parts) then Goto(Mark(Failed))
    else if u in db.uploads && !AllReceived(db.uploads[u]) then Refuse(Conflict)
    else Goto(BeginTx(account, request))
  }

  /** `ensure_commit_quota`. */
  ghost predicate CommitQuotaOk(db: Db, account: Id, u: Id)
    requires account in db.accounts
  {
    var quota := db.accounts[account].quota;
    quota == 0
    || (u in db.uploads && db.uploads[u].account == account
        && Saturate(MapSum(BlobSizes(db, account)) + MapSum(Reservations(db, account, ACTIVE))) <= quota)
  }

  function BeginRow(row: Upload, commit: Commit, staged: Option<Key>, final: Key,
                    path: string, blob: Id): Upload
  {
    row.(commit := commit, staged := staged, final := Some(final), path := Some(path),
         size := Some(row.request.size), blake3 := Some(row.request.blake3),
         blob := Some(blob), resource := None, deduplicated := false)
  }

  /** The transaction of `begin_commit`: adopt the account's blob of this
      content, or propose a new one under fresh keys. */
  ghost function ActBeginTx(db: Db, u: Id, account: Id, request: Request, uuid: Id): Effect {
    if account !in db.accounts then Refuse(Unauthorized)
    else if !db.accounts[account].enabled then Refuse(Forbidden)
    else
      var path := db.accounts[account].path;
      var existing := FindBlob(db, account, request.blake3);
      if existing.None? && !CommitQuotaOk(db, account, u) then Refuse(OverQuota)
      else if existing.None? && !IsBlake3(request.blake3) then Refuse(BadRequest)
      else if request.size > I64_MAX then Refuse(Conflict)
      else if u !in db.uploads || db.uploads[u].commit != Receiving then Refuse(Conflict)
      else
        var row := db.uploads[u];
        var next :=
          if existing.Some? then
            BeginRow(row, Finalizing, None, db.blobs[existing.value].key, path, existing.value)
          else
            BeginRow(row, Started, Some(StageFile(path, u, uuid)),
                     ObjectFor(path, request.blake3), path, uuid);
        Goto(Reload(account)).(row := Some(next))
  }

  function ActInspectStarted(cfg: Config, files: Files, ready: Ready): Effect {
    if !InScope(ready.path, ready.final) then Goto(Mark(Unknown))
    else
      match InspectFile(cfg, files, ready.final, ready.request.size, ready.request.blake3)
      case Matches => Goto(ToFinalizing(ready))
      case Mismatch => Goto(Mark(Unknown))
      case Missing => if ready.staged.None? then Goto(Mark(Unknown)) else Goto(Assemble(ready))
  }

  /** `assemble_commit`. A conflict removes the partial stage and fails the upload. */
  function ActAssemble(cfg: Config, files: Files, u: Id, ready: Ready): Effect {
    if ready.staged.None? || !IsStageOf(ready.path, u, ready.staged.value) then Refuse(BadRequest)
    else
      var key := ready.staged.value;
      var size, blake3 := ready.request.size, ready.request.blake3;
      if InspectFile(cfg, files, key, size, blake3) == Matches then Goto(ToFinalizing(ready))
      else
        match Assembled(cfg, files, u, ready.request.parts, size, blake3)
        case Some(content) => Goto(ToFinalizing(ready)).(write := Some((key, content)))
        case None => Goto(Mark(Failed)).(remove := Some(key))
  }

  /** `transition_to_finalizing`. */
  function ActToFinalizing(db: Db, u: Id, ready: Ready): Effect {
    if u in db.uploads && db.uploads[u].commit == Started then
      Goto(InspectFinal(ready)).(row := Some(db.uploads[u].(commit := Finalizing)))
    else Refuse(Conflict)
  }

  function ActInspectFinal(cfg: Config, files: Files, ready: Ready): Effect {
    if !InScope(ready.path, ready.final) then Goto(Mark(Unknown))
    else
      match InspectFile(cfg, files, ready.final, ready.request.size, ready.request.blake3)
      case Matches => Goto(LoadCandidate(ready, 0, None))
      case Mismatch => Goto(Mark(Unknown))
      case Missing => if ready.staged.None? then Goto(Mark(Unknown)) else Goto(InspectStage(ready))
  }

  function ActInspectStage(cfg: Config, files: Files, u: Id, ready: Ready): Effect {
    if ready.staged.Some? && IsStageOf(ready.path, u, ready.staged.value)
       && InspectFile(cfg, files, ready.staged.value, ready.request.size, ready.request.blake3) == Matches
    then Goto(Publish(ready))
    else Goto(Mark(Unknown))
  }

  /** `publish_commit`: check the stage again, link it without replacing, and
      check the object that is then there. */
  function ActPublish(cfg: Config, files: Files, u: Id, ready: Ready, fault: Fault): Effect {
    var size, blake3 := ready.request.size, ready.request.blake3;
    if fault == Fails || ready.staged.None? || !IsStageOf(ready.path, u, ready.staged.value)
       || !InScope(ready.path, ready.final)
       || InspectFile(cfg, files, ready.staged.value, size, blake3) != Matches
    then Goto(Mark(Unknown))
    else if ready.final in files then
      if fault == Works && ContentIs(cfg, files[ready.final], size, blake3)
      then Goto(LoadCandidate(ready, 0, None)) else Goto(Mark(Unknown))
    else
      Goto(if fault == Works then LoadCandidate(ready, 0, None) else Mark(Unknown))
      .(write := Some((ready.final, files[ready.staged.value])))
  }

  function CandidateOf(b: Id, blob: Blob): Candidate {
    Candidate(b, blob.key, blob.size, blob.blake3)
  }

  /** The query at the head of each try of `commit_metadata_with_race_retry`. */
  ghost function ActLoadCandidate(db: Db, ready: Ready, attempt: nat, approved: Option<Candidate>): Effect {
    var found := FindBlob(db, ready.account, ready.request.blake3);
    if found.Some? then
      Goto(CheckCandidate(ready, attempt, CandidateOf(found.value, db.blobs[found.value])))
    else Goto(MetadataTx(ready, attempt, approved))
  }

  /** `validate_blob_candidate`. */
  predicate CandidateValid(cfg: Config, files: Files, ready: Ready, c: Candidate) {
    c.size == ready.request.size && c.blake3 == ready.request.blake3
    && InScope(ready.path, c.key)
    && InspectFile(cfg, files, c.key, ready.request.size, ready.request.blake3) == Matches
  }

  /** `commit_metadata`: one transaction that inserts the proposed blob unless
      its id or its content is taken, attaches the resource and commits. */
  ghost function ActMetadataTx(db: Db, u: Id, ready: Ready, attempt: nat,
                               approved: Option<Candidate>, uuid: Id): Effect
  {
    if ready.account !in db.accounts || db.accounts[ready.account].path != ready.path then
      Goto(Mark(Unknown))
    else
      var existing := FindBlob(db, ready.account, ready.request.blake3);
      var inserts := ready.blob !in db.blobs && existing.None?;
      if !inserts && existing.None? then Refuse(Conflict)
      else
        var proposed := Blob(ready.account, ready.request.blake3, ready.request.size, ready.final);
        var id := if inserts then ready.blob else existing.value;
        var actual := if inserts then proposed else db.blobs[existing.value];
        if !(id == ready.blob && actual.key == ready.final)
           && !(approved.Some? && approved.value.id == id && approved.value.key == actual.key)
        then Goto(CheckActual(ready, attempt, CandidateOf(id, actual)))
        else if ready.asset !in db.assets then Refuse(StorageError)
        else if u !in db.uploads || db.uploads[u].commit != Finalizing then Refuse(Conflict)
        else
          var slot := FindResource(db, ready.asset, ready.request.sourceResource);
          var resource := if slot.Some? then slot.value else uuid;
          var deduplicated := ready.staged.None? || id != ready.blob;
          var outcome := Outcome(resource, ready.asset, deduplicated);
          Effect(
            Some(db.uploads[u].(done := true, commit := Committed, blob := Some(id),
                                resource := Some(resource), final := Some(actual.key),
                                deduplicated := deduplicated)),
            if inserts then Some((id, proposed)) else None,
            Some((resource, Resource(ready.asset, id, ready.request.sourceResource))),
            None, None,
            if ready.staged.Some? then DropStage(ready, outcome, false) else Returned(Ok(outcome)))
  }

  const TRIES: nat := 3

  function ActCheckActual(cfg: Config, files: Files, ready: Ready, attempt: nat, c: Candidate): Effect {
    if !CandidateValid(cfg, files, ready, c) then Goto(Mark(Unknown))
    else if attempt + 1 < TRIES then Goto(LoadCandidate(ready, attempt + 1, Some(c)))
    else Refuse(Conflict)
  }

  /** The metadata query of `validate_committed`. */
  predicate CommittedMetadataOk(db: Db, ready: Ready, resource: Id) {
    resource in db.resources && ready.blob in db.blobs
    && db.resources[resource].asset == ready.asset && db.resources[resource].blob == ready.blob
    && db.blobs[ready.blob].account == ready.account
    && db.blobs[ready.blob].key == ready.final
    && db.blobs[ready.blob].size == ready.request.size
    && db.blobs[ready.blob].blake3 == ready.request.blake3
  }

  function ActCheckObject(cfg: Config, files: Files, ready: Ready, outcome: Outcome): Effect {
    if !InScope(ready.path, ready.final)
       || InspectFile(cfg, files, ready.final, ready.request.size, ready.request.blake3) != Matches
    then Goto(Mark(Unknown))
    else if ready.staged.Some? then Goto(DropStage(ready, outcome, true))
    else Goto(Returned(Ok(outcome)))
  }

  /** `remove_commit_stage`; only a repeated completion reports its failure. */
  function ActDropStage(files: Files, u: Id, ready: Ready, outcome: Outcome, strict: bool, fault: Fault): Effect {
    var owned := ready.staged.Some? && IsStageOf(ready.path, u, ready.staged.value);
    var removed := if owned && fault != Fails then ready.staged else None;
    Goto(Returned(if strict && (!owned || fault != Works) then Err(StorageError) else Ok(outcome)))
    .(remove := removed)
  }

  /** `mark_unknown_message` and `mark_failed_message`. */
  function ActMark(db: Db, u: Id, target: Commit): Effect {
    if u in db.uploads && !(target == Unknown && db.uploads[u].commit == Unknown)
    then Refuse(Conflict).(row := Some(db.uploads[u].(commit := target)))
    else Refuse(Conflict)
  }

  /** The step an SQL or storage error turns a step into. */
  function OnError(pc: Pc): Effect {
    match pc
    case InspectStarted(_) => Goto(Mark(Unknown))
    case InspectFinal(_) => Goto(Mark(Unknown))
    case InspectStage(_) => Goto(Mark(Unknown))
    case CheckCandidate(_, _, _) => Goto(Mark(Unknown))
    case CheckActual(_, _, _) => Goto(Mark(Unknown))
    case CheckObject(_, _) => Goto(Mark(Unknown))
    case _ => Refuse(StorageError)
  }

  /** One atomic step of the completion of upload `u`. */
  ghost function Act(cfg: Config, db: Db, files: Files, u: Id, pc: Pc, ch: Choice): Effect {
    if ch.fault != Works && !pc.Publish? && !pc.DropStage? && !pc.Returned? then OnError(pc)
    else
      match pc
      case Load(required) => ActLoad(db, u, required)
      case BeginCheck(account, request) => ActBeginCheck(db, u, account, request)
      case BeginTx(account, request) => ActBeginTx(db, u, account, request, ch.uuid)
      case Reload(account) => ActReload(db, u, account)
      case InspectStarted(ready) => ActInspectStarted(cfg, files, ready)
      case Assemble(ready) => ActAssemble(cfg, files, u, ready)
      case ToFinalizing(ready) => ActToFinalizing(db, u, ready)
      case InspectFinal(ready) => ActInspectFinal(cfg, files, ready)
      case InspectStage(ready) => ActInspectStage(cfg, files, u, ready)
      case Publish(ready) => ActPublish(cfg, files, u, ready, ch.fault)
      case LoadCandidate(ready, attempt, approved) => ActLoadCandidate(db, ready, attempt, approved)
      case CheckCandidate(ready, attempt, c) =>
        if CandidateValid(cfg, files, ready, c) then Goto(MetadataTx(ready, attempt, Some(c)))
        else Goto(Mark(Unknown))
      case MetadataTx(ready, attempt, approved) => ActMetadataTx(db, u, ready, attempt, approved, ch.uuid)
      case CheckActual(ready, attempt, c) => ActCheckActual(cfg, files, ready, attempt, c)
      case CheckMetadata(ready, resource, deduplicated) =>
        if CommittedMetadataOk(db, ready, resource)
        then Goto(CheckObject(ready, Outcome(resource, ready.asset, deduplicated)))
        else Goto(Mark(Unknown))
      case CheckObject(ready, outcome) => ActCheckObject(cfg, files, ready, outcome)
      case DropStage(ready, outcome, strict) => ActDropStage(files, u, ready, outcome, strict, ch.fault)
      case Mark(target) => ActMark(db, u, target)
      case Returned(result) => Goto(pc)
  }

  // ----- the whole server ----------------------------------------------------

  /** A `put_part` request: manifest entry read, or file linked. */
  datatype Put =
    | PutChecked(upload: Id, spec: PartSpec)
    | PutLinked(upload: Id, index: nat)

  /** Rows and files survive a crash; running requests do not. `calls` is keyed
      by upload because the file lock admits one completion of an upload at a
      time. `issued` holds every UUID ever drawn. */
  datatype Sys = Sys(db: Db, files: Files, calls: map<Id, Pc>, puts: map<Id, Put>, issued: set<Id>)

  function ApplyDb(db: Db, u: Id, e: Effect): Db {
    db.(uploads := if e.row.Some? then db.uploads[u := e.row.value] else db.uploads,
        blobs := if e.blob.Some? then db.blobs[e.blob.value.0 := e.blob.value.1] else db.blobs,
        resources := if e.resource.Some? then db.resources[e.resource.value.0 := e.resource.value.1]
                     else db.resources)
  }

  function ApplyFiles(files: Files, e: Effect): Files {
    var written := if e.write.Some? then files[e.write.value.0 := e.write.value.1] else files;
    if e.remove.Some? then written - {e.remove.value} else written
  }

  ghost function Advance(cfg: Config, s: Sys, u: Id, ch: Choice): Sys
    requires u in s.calls
  {
    var e := Act(cfg, s.db, s.files, u, s.calls[u], ch);
    Sys(ApplyDb(s.db, u, e), ApplyFiles(s.files, e), s.calls[u := e.pc], s.puts, s.issued + {ch.uuid})
  }
}
