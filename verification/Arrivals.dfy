/** Runs that ordinary requests make: an upload created and all its parts put.
    They show that the states other modules start from are reached. */
module Arrivals {
  import opened Types
  import opened CommitModel
  import opened CommitInvariant
  import opened CommitRuns
  import opened CommitSafety
  import opened Quota

  // ----- runs, joined -----------------------------------------------------------------

  /** Some run of the server leads from `s` to `s'`. */
  ghost predicate Leads(cfg: Config, s: Sys, s': Sys) {
    exists steps :: Reaches(cfg, s, steps, s')
  }

  lemma {:induction false} ReachesThen(cfg: Config, a: Sys, steps: seq<Action>, b: Sys, more: seq<Action>, c: Sys)
    requires Reaches(cfg, a, steps, b) && Reaches(cfg, b, more, c)
    ensures Reaches(cfg, a, steps + more, c)
    decreases |steps|
  {
    hide Enabled, Apply;
    if steps == [] {
      assert [] + more == more;
    } else {
      ReachesThen(cfg, Apply(cfg, a, steps[0]), steps[1..], b, more, c);
      assert (steps + more)[1..] == steps[1..] + more;
    }
  }

  lemma LeadsThen(cfg: Config, a: Sys, b: Sys, c: Sys)
    requires Leads(cfg, a, b) && Leads(cfg, b, c)
    ensures Leads(cfg, a, c)
  {
    hide Reaches;
    var steps :| Reaches(cfg, a, steps, b);
    var more :| Reaches(cfg, b, more, c);
    ReachesThen(cfg, a, steps, b, more, c);
  }

  lemma LeadsStep(cfg: Config, s: Sys, a: Action)
    requires Enabled(cfg, s, a)
    ensures Leads(cfg, s, Apply(cfg, s, a))
  {
    hide Enabled, Apply;
    OneStep(cfg, s, a);
  }

  lemma LeadsNowhere(cfg: Config, s: Sys)
    ensures Leads(cfg, s, s)
  {
    assert Reaches(cfg, s, [], s);
  }

  lemma {:induction false} ReachesKeepsStages(cfg: Config, s: Sys, steps: seq<Action>, s': Sys)
    requires Inv(cfg, s) && StagesIssued(s) && Reaches(cfg, s, steps, s')
    ensures StagesIssued(s')
    decreases |steps|
  {
    hide Inv, Enabled, Apply, StagesIssued;
    if steps != [] {
      ActionKeepsInv(cfg, s, steps[0]);
      ActionNonces(cfg, s, steps[0]);
      ReachesKeepsStages(cfg, Apply(cfg, s, steps[0]), steps[1..], s');
    }
  }

  /** Whatever a run leads to satisfies the invariant. */
  lemma LeadsKeeps(cfg: Config, s: Sys, s': Sys)
    requires Inv(cfg, s) && StagesIssued(s) && Leads(cfg, s, s')
    ensures Inv(cfg, s') && StagesIssued(s')
  {
    hide Inv, StagesIssued, Reaches;
    var steps :| Reaches(cfg, s, steps, s');
    ReachesKeepsInv(cfg, s, steps, s');
    ReachesKeepsStages(cfg, s, steps, s');
  }

  lemma InitialIsSound(cfg: Config, s: Sys)
    requires Initial(cfg, s)
    ensures Inv(cfg, s) && StagesIssued(s)
  {
    RunInv(cfg, [s], [], 0);
  }

  ghost function StatesOf(cfg: Config, s: Sys, steps: seq<Action>): (states: seq<Sys>)
    requires exists s' :: Reaches(cfg, s, steps, s')
    ensures |states| == |steps| + 1
    decreases |steps|
  {
    if steps == [] then [s]
    else
      var s' :| Reaches(cfg, s, steps, s');
      assert Reaches(cfg, Apply(cfg, s, steps[0]), steps[1..], s');
      [s] + StatesOf(cfg, Apply(cfg, s, steps[0]), steps[1..])
  }

  lemma {:induction false} StatesAreLinked(cfg: Config, s: Sys, steps: seq<Action>, s': Sys)
    requires Reaches(cfg, s, steps, s')
    ensures var states := StatesOf(cfg, s, steps);
      states[0] == s && states[|steps|] == s'
      && forall i :: 0 <= i < |steps| ==>
           Enabled(cfg, states[i], steps[i]) && states[i + 1] == Apply(cfg, states[i], steps[i])
    decreases |steps|
  {
    hide Enabled, Apply;
    if steps != [] {
      StatesAreLinked(cfg, Apply(cfg, s, steps[0]), steps[1..], s');
      var states := StatesOf(cfg, s, steps);
      var rest := StatesOf(cfg, Apply(cfg, s, steps[0]), steps[1..]);
      assert states == [s] + rest;
      forall i | 0 <= i < |steps|
        ensures Enabled(cfg, states[i], steps[i]) && states[i + 1] == Apply(cfg, states[i], steps[i])
      {
        if i > 0 {
          assert states[i] == rest[i - 1] && states[i + 1] == rest[i] && steps[i] == steps[1..][i - 1];
        }
      }
    }
  }

  /** What is reached from a fresh installation is the last state of a run. */
  lemma LeadsIsRun(cfg: Config, s: Sys, s': Sys) returns (states: seq<Sys>, actions: seq<Action>)
    requires Initial(cfg, s) && Leads(cfg, s, s')
    ensures Run(cfg, states, actions) && states[|states| - 1] == s'
  {
    hide Enabled, Apply, Initial;
    actions :| Reaches(cfg, s, actions, s');
    states := StatesOf(cfg, s, actions);
    StatesAreLinked(cfg, s, actions, s');
  }

  // ----- one part put ------------------------------------------------------------------

  /** The bytes of a part, as its manifest entry describes them. */
  ghost predicate Fits(cfg: Config, body: Bytes, spec: PartSpec) {
    ContentIs(cfg, body, spec.size, spec.blake3) && |body| <= cfg.maxPart
  }

  ghost function PutAt(s: Sys, u: Id, index: nat, body: Bytes): Sys
    requires u in s.db.uploads
  {
    s.(db := s.db.(uploads := s.db.uploads[u := Received(s.db.uploads[u], index)]),
       files := s.files[PartFile(u, index) := body])
  }

  lemma PutBegins(cfg: Config, s: Sys, u: Id, index: nat)
    requires u in s.db.uploads && s.puts == map[] && index < |s.db.uploads[u].parts|
    requires s.db.uploads[u].commit == Receiving
    ensures Enabled(cfg, s, PutBegin(0, u, index))
    ensures Apply(cfg, s, PutBegin(0, u, index))
         == s.(puts := map[0 := PutChecked(u, s.db.uploads[u].parts[index].spec)])
  {
  }

  lemma PutLinks(cfg: Config, s: Sys, u: Id, spec: PartSpec, body: Bytes)
    requires s.puts == map[0 := PutChecked(u, spec)] && Fits(cfg, body, spec)
    requires PartFile(u, spec.index) !in s.files
    ensures Enabled(cfg, s, PutLink(0, body))
    ensures Apply(cfg, s, PutLink(0, body))
         == s.(files := s.files[PartFile(u, spec.index) := body], puts := map[0 := PutLinked(u, spec.index)])
  {
  }

  lemma PutRecords(cfg: Config, s: Sys, u: Id, index: nat)
    requires s.puts == map[0 := PutLinked(u, index)] && u in s.db.uploads
    ensures Enabled(cfg, s, PutRecord(0))
    ensures Apply(cfg, s, PutRecord(0))
         == s.(db := s.db.(uploads := s.db.uploads[u := Received(s.db.uploads[u], index)]), puts := map[])
  {
    assert map[0 := PutLinked(u, index)] - {0} == map[];
  }

  /** Three steps put one part: looked up, linked, recorded. */
  lemma PutLeads(cfg: Config, s: Sys, u: Id, index: nat, body: Bytes)
    requires u in s.db.uploads && s.puts == map[] && index < |s.db.uploads[u].parts|
    requires s.db.uploads[u].commit == Receiving && PartFile(u, index) !in s.files
    requires var spec := s.db.uploads[u].parts[index].spec; spec.index == index && Fits(cfg, body, spec)
    ensures Leads(cfg, s, PutAt(s, u, index, body))
  {
    hide Leads, Enabled, Apply, Fits;
    var spec := s.db.uploads[u].parts[index].spec;
    PutBegins(cfg, s, u, index);
    LeadsStep(cfg, s, PutBegin(0, u, index));
    var s1 := s.(puts := map[0 := PutChecked(u, spec)]);
    PutLinks(cfg, s1, u, spec, body);
    LeadsStep(cfg, s1, PutLink(0, body));
    var s2 := s1.(files := s.files[PartFile(u, index) := body], puts := map[0 := PutLinked(u, index)]);
    PutRecords(cfg, s2, u, index);
    LeadsStep(cfg, s2, PutRecord(0));
    LeadsThen(cfg, s, s1, s2);
    LeadsThen(cfg, s, s2, PutAt(s, u, index, body));
  }

  // ----- all parts put -----------------------------------------------------------------

  ghost function AfterPuts(s: Sys, u: Id, bodies: seq<Bytes>, n: nat): (s': Sys)
    requires u in s.db.uploads && n <= |bodies|
    ensures u in s'.db.uploads
  {
    if n == 0 then s else PutAt(AfterPuts(s, u, bodies, n - 1), u, n - 1, bodies[n - 1])
  }

  ghost predicate RowAfterPuts(row: Upload, row': Upload, n: nat) {
    row' == row.(parts := row'.parts) && |row'.parts| == |row.parts|
    && forall i :: 0 <= i < |row.parts| ==>
         row'.parts[i].spec == row.parts[i].spec && (i < n ==> row'.parts[i].received)
  }

  ghost predicate FilesAfterPuts(files: Files, files': Files, u: Id, bodies: seq<Bytes>, n: nat)
    requires n <= |bodies|
  {
    && (forall i :: 0 <= i < n ==> PartFile(u, i) in files' && files'[PartFile(u, i)] == bodies[i])
    && (forall key :: key in files && !(key.PartFile? && key.upload == u) ==>
          key in files' && files'[key] == files[key])
    && (forall key :: key in files' && !(key.PartFile? && key.upload == u) ==> key in files)
  }

  /** No file of this upload's parts from `n` on. */
  ghost predicate NoPartsFrom(files: Files, u: Id, n: nat) {
    forall i :: n <= i ==> PartFile(u, i) !in files
  }

  ghost predicate Bodies(cfg: Config, parts: seq<PartSpec>, bodies: seq<Bytes>) {
    |bodies| == |parts| && forall i :: 0 <= i < |parts| ==> parts[i].index == i && Fits(cfg, bodies[i], parts[i])
  }

  lemma RowAfterOne(row: Upload, row': Upload, n: nat)
    requires RowAfterPuts(row, row', n)
    ensures RowAfterPuts(row, Received(row', n), n + 1)
  {
  }

  lemma FilesAfterOne(files: Files, files': Files, u: Id, bodies: seq<Bytes>, n: nat)
    requires n < |bodies| && FilesAfterPuts(files, files', u, bodies, n) && NoPartsFrom(files', u, n)
    ensures FilesAfterPuts(files, files'[PartFile(u, n) := bodies[n]], u, bodies, n + 1)
    ensures NoPartsFrom(files'[PartFile(u, n) := bodies[n]], u, n + 1)
  {
  }

  /** What the parts put so far have changed. */
  ghost predicate PutsDone(s: Sys, s': Sys, u: Id, bodies: seq<Bytes>, n: nat)
    requires n <= |bodies|
  {
    u in s.db.uploads && u in s'.db.uploads
    && RowAfterPuts(s.db.uploads[u], s'.db.uploads[u], n)
    && s'.db == s.db.(uploads := s.db.uploads[u := s'.db.uploads[u]]) && s' == s.(db := s'.db, files := s'.files)
    && FilesAfterPuts(s.files, s'.files, u, bodies, n) && NoPartsFrom(s'.files, u, n)
  }

  lemma PutsOneMore(s: Sys, s1: Sys, u: Id, bodies: seq<Bytes>, n: nat)
    requires n < |bodies| && PutsDone(s, s1, u, bodies, n)
    ensures PutsDone(s, PutAt(s1, u, n, bodies[n]), u, bodies, n + 1)
  {
    RowAfterOne(s.db.uploads[u], s1.db.uploads[u], n);
    FilesAfterOne(s.files, s1.files, u, bodies, n);
    hide RowAfterPuts, FilesAfterPuts, NoPartsFrom, Received;
    var s2 := PutAt(s1, u, n, bodies[n]);
    assert s2.db.uploads == s.db.uploads[u := s2.db.uploads[u]];
  }

  lemma NothingPut(s: Sys, u: Id, bodies: seq<Bytes>)
    requires u in s.db.uploads && NoPartsFrom(s.files, u, 0)
    ensures PutsDone(s, s, u, bodies, 0)
  {
    assert s.db.uploads[u := s.db.uploads[u]] == s.db.uploads;
  }

  lemma {:induction false} PutsShape(s: Sys, u: Id, bodies: seq<Bytes>, n: nat)
    requires u in s.db.uploads && n <= |bodies| && NoPartsFrom(s.files, u, 0)
    ensures PutsDone(s, AfterPuts(s, u, bodies, n), u, bodies, n)
  {
    hide PutsDone, PutAt, NoPartsFrom;
    if n == 0 {
      NothingPut(s, u, bodies);
    } else {
      PutsShape(s, u, bodies, n - 1);
      PutsOneMore(s, AfterPuts(s, u, bodies, n - 1), u, bodies, n - 1);
    }
  }

  lemma {:induction false} PutsLead(cfg: Config, s: Sys, u: Id, bodies: seq<Bytes>, n: nat)
    requires u in s.db.uploads && s.puts == map[] && s.db.uploads[u].commit == Receiving
    requires ManifestRows(s.db.uploads[u]) && Bodies(cfg, s.db.uploads[u].request.parts, bodies)
    requires n <= |bodies| && NoPartsFrom(s.files, u, 0)
    ensures Leads(cfg, s, AfterPuts(s, u, bodies, n))
  {
    hide Leads, Fits, FilesAfterPuts;
    if n == 0 {
      LeadsNowhere(cfg, s);
    } else {
      PutsLead(cfg, s, u, bodies, n - 1);
      PutsShape(s, u, bodies, n - 1);
      var s1 := AfterPuts(s, u, bodies, n - 1);
      PutLeads(cfg, s1, u, n - 1, bodies[n - 1]);
      LeadsThen(cfg, s, s1, AfterPuts(s, u, bodies, n));
    }
  }

  // ----- an upload arrives -------------------------------------------------------------

  /** The server takes this new upload: the request is well formed, the account
      is enabled and has room for it, and nothing of the kind is stored or under
      way. */
  ghost predicate Welcome(cfg: Config, db: Db, account: Id, device: Id, request: Request) {
    UploadRequestOk(request, cfg.maxPart) && request.size <= I64_MAX
    && account in db.accounts && db.accounts[account].enabled && HasRoom(db, account, request.size)
    && FindBlob(db, account, request.blake3).None?
    && forall u :: u in db.uploads ==> !SameTarget(db.uploads[u], account, device, request)
  }

  /** The upload is there with all its parts, and nothing else has changed. */
  ghost predicate Arrived(s: Sys, s': Sys, account: Id, device: Id, request: Request, bodies: seq<Bytes>,
                          assetId: Id, u: Id)
  {
    && u in s'.db.uploads && s'.db == s.db.(assets := s'.db.assets, uploads := s.db.uploads[u := s'.db.uploads[u]])
    && s'.db.assets == UpsertAsset(s.db, account, device, request.sourceAsset, assetId).0.assets
    && s'.calls == s.calls && s'.puts == s.puts && s'.issued == s.issued + {assetId, u}
    && var row := s'.db.uploads[u];
    && row.account == account && row.device == device && row.request == request && row.commit == Receiving
    && row.asset == UpsertAsset(s.db, account, device, request.sourceAsset, assetId).1
    && AllReceived(row) && |bodies| == |request.parts| && FilesAfterPuts(s.files, s'.files, u, bodies, |bodies|)
    && NoPartsFrom(s'.files, u, |bodies|)
  }

  lemma CreateLeads(cfg: Config, s: Sys, account: Id, device: Id, request: Request, assetId: Id, u: Id)
    returns (s': Sys)
    requires Welcome(cfg, s.db, account, device, request)
    requires assetId !in s.issued && u !in s.issued && assetId != u
    ensures Leads(cfg, s, s') && s'.issued == s.issued + {assetId, u} && s'.files == s.files
    ensures s'.calls == s.calls && s'.puts == s.puts
    ensures var (db', asset) := UpsertAsset(s.db, account, device, request.sourceAsset, assetId);
      s'.db == db'.(uploads := s.db.uploads[u := NewUpload(account, device, asset, request)])
      && db' == s.db.(assets := db'.assets)
  {
    QuotaCheckIsExact(s.db, account, request.size);
    hide FindBlob, UploadRequestOk, FindAsset, SameTarget, HasRoom, CreateQuotaOk;
    var a := Create(account, device, request, assetId, u);
    s' := Apply(cfg, s, a);
    LeadsStep(cfg, s, a);
  }

  /** A run of ordinary requests brings any welcome upload, with bodies that fit
      its manifest. */
  lemma Arrives(cfg: Config, s: Sys, account: Id, device: Id, request: Request, bodies: seq<Bytes>, assetId: Id, u: Id)
    returns (s': Sys)
    requires Welcome(cfg, s.db, account, device, request) && Bodies(cfg, request.parts, bodies)
    requires assetId !in s.issued && u !in s.issued && assetId != u
    requires s.puts == map[] && NoPartsFrom(s.files, u, 0)
    ensures Leads(cfg, s, s') && Arrived(s, s', account, device, request, bodies, assetId, u)
  {
    hide Leads, Fits, Welcome, UpsertAsset;
    var s1 := CreateLeads(cfg, s, account, device, request, assetId, u);
    PutsLead(cfg, s1, u, bodies, |bodies|);
    PutsShape(s1, u, bodies, |bodies|);
    s' := AfterPuts(s1, u, bodies, |bodies|);
    LeadsThen(cfg, s, s1, s');
  }

  /** The parts put are what was sent. */
  lemma {:induction false} PutContents(files: Files, u: Id, parts: seq<PartSpec>, bodies: seq<Bytes>, k: nat)
    requires |bodies| == |parts| && k <= |parts|
    requires forall i :: 0 <= i < |parts| ==>
      parts[i].index == i && PartFile(u, i) in files && files[PartFile(u, i)] == bodies[i]
    ensures PartContents(files, u, parts[k..]) == Concat(bodies[k..])
    decreases |parts| - k
  {
    if k < |parts| {
      PutContents(files, u, parts, bodies, k + 1);
      assert parts[k..][1..] == parts[k + 1..] && bodies[k..][1..] == bodies[k + 1..];
    }
  }

  // ----- what devices send --------------------------------------------------------------

  /** What a device sends: a request, and the bodies of its parts. */
  datatype Sender = Sender(device: Id, request: Request, bodies: seq<Bytes>)

  /** The request is well formed, and the bodies are what it describes, with the
      digest of the whole in any spelling. */
  ghost predicate Sent(cfg: Config, x: Sender) {
    UploadRequestOk(x.request, cfg.maxPart) && x.request.size <= I64_MAX
    && Bodies(cfg, x.request.parts, x.bodies) && cfg.hash(Concat(x.bodies)) == Lower(x.request.blake3)
  }

  lemma SentBodies(cfg: Config, x: Sender)
    requires Sent(cfg, x)
    ensures Bodies(cfg, x.request.parts, x.bodies)
  {
  }

  lemma NoBlobs(db: Db, account: Id, blake3: string)
    requires db.blobs == map[]
    ensures FindBlob(db, account, blake3).None?
  {
  }

  lemma FreshAsset(db: Db, account: Id, device: Id, source: string, uuid: Id)
    requires forall a :: a in db.assets ==> db.assets[a].device != device || db.assets[a].source != source
    ensures UpsertAsset(db, account, device, source, uuid)
            == (db.(assets := db.assets[uuid := Asset(account, device, source, false)]), uuid)
  {
  }

  lemma WelcomeSender(cfg: Config, s: Sys, account: Id, x: Sender)
    requires Sent(cfg, x) && s.db.blobs == map[]
    requires account in s.db.accounts && s.db.accounts[account].enabled && s.db.accounts[account].quota == 0
    requires forall u :: u in s.db.uploads ==> !SameTarget(s.db.uploads[u], account, x.device, x.request)
    ensures Welcome(cfg, s.db, account, x.device, x.request)
  {
    NoBlobs(s.db, account, x.request.blake3);
  }

}
