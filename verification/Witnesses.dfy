/** Situations that meet what the main theorems ask for, all of them reached by
    one small upload: the theorems are about something. */
module Witnesses {
  import opened Types
  import opened CommitModel
  import opened CommitInvariant
  import opened CommitRuns
  import opened CommitSafety
  import opened Solo
  import opened Reclamation
  import opened Reconcile
  import opened Content
  import opened Arrivals
  import opened EndToEnd
  import Doctor
  import Race
  import StorageKeys

  // ----- a hash and a world ---------------------------------------------------------------

  function Digits(c: char): (s: string)
    ensures |s| == 64 && forall i :: 0 <= i < 64 ==> s[i] == c
  {
    seq(64, _ => c)
  }

  /** A hash that tells the empty file from all others. */
  function Toy(content: Bytes): string {
    Digits(if content == [] then '0' else '1')
  }

  const TOY: Config := Config(Toy, 16)

  lemma ToyHashOk()
    ensures HashOk(TOY)
  {
    forall b: Bytes ensures IsBlake3(TOY.hash(b)) && Lower(TOY.hash(b)) == TOY.hash(b) {
      assert TOY.hash(b) == Digits(if b == [] then '0' else '1');
    }
  }

  ghost function Above(ids: set<Id>): (n: nat)
    ensures forall id :: id in ids ==> id < n
  {
    if ids == {} then 0
    else
      var id :| id in ids;
      var rest := Above(ids - {id});
      assert ids == (ids - {id}) + {id};
      if id < rest then rest else id + 1
  }

  /** Nothing fails, and UUIDs are new. */
  ghost function Fair(): (w: World)
    ensures WorldOk(w) && Faultless(w)
  {
    World((ids: set<Id>) => Above(ids), (k: nat) => Works)
  }

  // ----- one small upload -------------------------------------------------------------------

  const SOURCE: Bytes := [7]
  const ACCOUNT: Account := Account("p", 0, true)

  function SmallRequest(asset: string, resource: string): Request {
    Request(asset, resource, [1], [1], None, 1, Digits('1'), [PartSpec(0, 1, Digits('1'))])
  }

  function Small(device: Id): Sender {
    Sender(device, SmallRequest("a", "r"), [SOURCE])
  }

  lemma SmallIsSent(device: Id)
    ensures Sent(TOY, Small(device)) && Race.Sends(TOY, Small(device))
    ensures Describes(TOY, Small(device).request, SOURCE, 4)
  {
    var x := Small(device);
    assert x.request.parts[1..] == [];
    assert PartsSize(x.request.parts) == 1 + PartsSize([]);
    assert x.bodies[1..] == [];
    assert Concat(x.bodies) == SOURCE + Concat([]);
    assert Toy(SOURCE) == Digits('1');
    assert Lower(Digits('1')) == Digits('1');
    assert Chunks(SOURCE, 4) == [SOURCE];
    assert Manifest(TOY, [SOURCE]) == x.request.parts;
  }

  /** A fresh installation with one account. */
  function Start(): Sys {
    Sys(Db(map[0 := ACCOUNT], map[], map[], map[], map[]), map[], map[], map[], {})
  }

  lemma StartIsInitial()
    ensures Initial(TOY, Start())
  {
    ToyHashOk();
  }

  /** The upload has arrived, and all is known of the server. */
  ghost predicate Arrived1(s: Sys, u: Id) {
    && Leads(TOY, Start(), s) && Inv(TOY, s) && StagesIssued(s)
    && s.db.uploads.Keys == {u} && s.db.accounts == map[0 := ACCOUNT] && s.db.blobs == map[] && s.db.resources == map[]
    && s.calls == map[] && s.puts == map[]
    && s.files == map[PartFile(u, 0) := SOURCE]
    && var row := s.db.uploads[u];
    && row.account == 0 && row.request == Small(1).request && row.commit == Receiving && AllReceived(row)
    && row.asset in s.db.assets && s.db.assets[row.asset].source == "a"
  }

  lemma SmallArrives() returns (s: Sys, u: Id)
    ensures Arrived1(s, u)
  {
    hide Leads, Inv, StagesIssued, Sent, Fits, UpsertAsset;
    StartIsInitial();
    SmallIsSent(1);
    SentBodies(TOY, Small(1));
    WelcomeSender(TOY, Start(), 0, Small(1));
    FreshAsset(Start().db, 0, 1, "a", 0);
    u := 1;
    s := Arrives(TOY, Start(), 0, 1, Small(1).request, [SOURCE], 0, u);
    InitialIsSound(TOY, Start());
    LeadsKeeps(TOY, Start(), s);
    OnePart(s, u);
  }

  lemma OnePart(s: Sys, u: Id)
    requires FilesAfterPuts(map[], s.files, u, [SOURCE], 1)
    requires NoPartsFrom(s.files, u, 1)
    ensures s.files == map[PartFile(u, 0) := SOURCE]
  {
  }

  lemma AcceptableReady(s: Sys, u: Id)
    requires Arrived1(s, u)
    ensures CanBegin(s.db, u) && Completable(s, u) && FirstVerdict(TOY, s, u) == Committed
    ensures FindBlob(s.db, 0, s.db.uploads[u].request.blake3).None?
    ensures PartContents(s.files, u, s.db.uploads[u].request.parts) == SOURCE
    ensures Honest(TOY, s.files, u, s.db.uploads[u].request)
    ensures CollisionFree(TOY, Contents(s.files, SOURCE, 4))
  {
    var request := s.db.uploads[u].request;
    NoBlobs(s.db, 0, request.blake3);
    SmallIsSent(1);
    assert Lower(Digits('1')) == Digits('1') && Toy(SOURCE) == Digits('1');
    var key := PartFile(u, 0);
    assert s.files[key] == SOURCE && request.parts[0].index == 0;
    assert request.parts[1..] == [];
    assert PartContents(s.files, u, request.parts) == SOURCE + PartContents(s.files, u, []);
    assert PartStored(TOY, s.files, u, request.parts[0]);
    assert Assembled(TOY, s.files, u, request.parts, request.size, request.blake3).Some?;
    assert Chunks(SOURCE, 4) == [SOURCE];
    assert forall content :: content in Contents(s.files, SOURCE, 4) ==> content == SOURCE by {
      assert forall content :: content in s.files.Values ==> content == SOURCE;
    }
  }

  /** What a first completion, a delivery and an upload judged by its spelling
      ask for, at the end of a run. */
  lemma ReceivedUpload() returns (states: seq<Sys>, actions: seq<Action>, u: Id)
    ensures Run(TOY, states, actions)
    ensures var s := states[|states| - 1];
      && WorldOk(Fair()) && Faultless(Fair()) && Core(TOY, s) && StageFilesIssued(s) && u !in s.calls
      && u in s.db.uploads && CanBegin(s.db, u) && Completable(s, u) && AllReceived(s.db.uploads[u])
      && Describes(TOY, s.db.uploads[u].request, SOURCE, 4) && CollisionFree(TOY, Contents(s.files, SOURCE, 4))
      && HonestSpelling(TOY, s.files, u, s.db.uploads[u].request)
  {
    var s;
    s, u := SmallArrives();
    StartIsInitial();
    AcceptableReady(s, u);
    SmallIsSent(1);
    assert Lower(Digits('1')) == Digits('1');
    states, actions := LeadsIsRun(TOY, Start(), s);
    hide Core, CanBegin, Completable, Leads, Run, Contents, CollisionFree;
  }

  // ----- interrupted ---------------------------------------------------------------------------

  /** The server died as soon as the commit had begun. */
  ghost predicate Interrupted(s: Sys, u: Id) {
    && Idle(TOY, Fair(), s) && s.puts == map[]
    && s.db.uploads.Keys == {u} && s.db.accounts == map[0 := ACCOUNT] && s.db.blobs == map[] && s.db.resources == map[]
    && s.files == map[PartFile(u, 0) := SOURCE]
    && var row := s.db.uploads[u];
    && row.account == 0 && row.request == Small(1).request && row.commit == Started && AllReceived(row)
    && row.asset in s.db.assets && s.db.assets[row.asset].source == "a"
    && row.final == Some(ObjectFor("p", row.request.blake3)) && row.path == Some("p") && row.blob.Some?
    && row.size == Some(row.request.size) && row.blake3 == Some(row.request.blake3)
    && row.staged.Some? && IsStageOf("p", u, row.staged.value)
  }

  lemma CommitInterrupted() returns (s: Sys, u: Id)
    ensures Interrupted(s, u)
  {
    hide Leads, Inv, Core, StagesIssued, CanBegin, Drive, Complete, Small;
    var s0;
    s0, u := SmallArrives();
    AcceptableReady(s0, u);
    assert Core(TOY, s0) by { InvIsCore(s0); }
    var s1 := FirstTicks(TOY, Fair(), s0, u, 0);
    var s2 := BeginTxOpens(TOY, Fair(), s1, u, 2);
    s := s2.(calls := map[]);
    CrashedIsIdle(s0, s2);
    OpenedIsStarted(s0.db, u, Fair().draw(s1.issued));
  }

  lemma InvIsCore(s: Sys)
    requires Inv(TOY, s)
    ensures Core(TOY, s)
  {
  }

  lemma CrashedIsIdle(s: Sys, s': Sys)
    requires Inv(TOY, s) && Core(TOY, s') && s'.files == s.files
    ensures Idle(TOY, Fair(), s'.(calls := map[]))
  {
    forall key ensures ObjectOk(TOY, s'.files, key) {
      assert ObjectOk(TOY, s.files, key);
    }
  }

  lemma OpenedIsStarted(db: Db, u: Id, uuid: Id)
    requires u in db.uploads && db.uploads[u].account in db.accounts
    requires db.accounts[db.uploads[u].account].path == "p"
    requires FindBlob(db, db.uploads[u].account, db.uploads[u].request.blake3).None?
    ensures var row, row' := db.uploads[u], OpenedRow(db, u, uuid);
      && row'.account == row.account && row'.asset == row.asset && row'.request == row.request
      && row'.parts == row.parts && row'.commit == Started
      && row'.final == Some(ObjectFor("p", row.request.blake3)) && row'.path == Some("p") && row'.blob.Some?
      && row'.size == Some(row.request.size) && row'.blake3 == Some(row.request.blake3)
      && row'.staged.Some? && IsStageOf("p", u, row'.staged.value)
  {
  }

  lemma ListOf(ids: set<Id>) returns (list: seq<Id>)
    ensures Distinct(list) && forall id :: id in list <==> id in ids
    decreases ids
  {
    if ids == {} {
      list := [];
    } else {
      var id :| id in ids;
      var rest := ListOf(ids - {id});
      list := [id] + rest;
      assert forall x :: x in list <==> x == id || x in rest;
    }
  }

  lemma Selection(s: Sys) returns (ids: seq<Id>)
    ensures Selects(s, ids)
  {
    ids := ListOf(set u | u in s.db.uploads && Selectable(s, u));
  }

  lemma OrphanList(s: Sys) returns (blobs: seq<Id>)
    ensures ListsOrphans(s, blobs)
  {
    blobs := ListOf(s.db.blobs.Keys);
  }

  lemma InterruptedFinishes(s: Sys, u: Id)
    requires Interrupted(s, u)
    ensures Finishable(TOY, s, u) && SlotsAgree(s) && AllCurrent(s)
  {
    var request := s.db.uploads[u].request;
    assert Toy(SOURCE) == Digits('1');
    assert request.parts[1..] == [] && request.parts[0].index == 0;
    assert PartContents(s.files, u, request.parts) == SOURCE + PartContents(s.files, u, []);
    hide Core;
  }

  /** What a resumed completion, the verdict on an honest upload and a whole
      recovery, with a second pass, ask for. */
  lemma InterruptedUpload() returns (s: Sys, u: Id, ids: seq<Id>, blobs: seq<Id>, ids': seq<Id>)
    ensures Idle(TOY, Fair(), s) && Core(TOY, s) && u in s.db.uploads && s.db.uploads[u].commit == Started
    ensures Finishable(TOY, s, u) && SlotsAgree(s) && AllCurrent(s) && Selects(s, ids)
    ensures ListsOrphans(SettleAll(TOY, Fair(), s, ids, 0).0, blobs)
    ensures Selects(Pass(TOY, Fair(), s, ids, blobs, 0), ids')
  {
    hide Idle, Core, Finishable, SlotsAgree, AllCurrent, Selects, ListsOrphans, SettleAll, Pass;
    s, u := CommitInterrupted();
    InterruptedFinishes(s, u);
    assert Core(TOY, s) by { IdleIsInv(s); }
    ids := Selection(s);
    blobs := OrphanList(SettleAll(TOY, Fair(), s, ids, 0).0);
    ids' := Selection(Pass(TOY, Fair(), s, ids, blobs, 0));
  }

  lemma IdleIsInv(s: Sys)
    requires Idle(TOY, Fair(), s)
    ensures Inv(TOY, s) && Core(TOY, s) && s.calls == map[]
  {
  }

  // ----- settled ---------------------------------------------------------------------------------

  /** What a second pass and a repeated completion ask for: the state after that
      recovery. */
  lemma SettledUpload() returns (s: Sys, u: Id, ids: seq<Id>)
    ensures Idle(TOY, Fair(), s) && Settled(s) && Selects(s, ids) && AllCurrent(s)
    ensures Core(TOY, s) && u in s.db.uploads && s.db.uploads[u].commit == Committed
  {
    hide Idle, Core, Finishable, SlotsAgree, AllCurrent, Selects, ListsOrphans, SettleAll, Settled, Pass;
    var s0, ids0, blobs0;
    s0, u, ids0, blobs0, ids := InterruptedUpload();
    s := Pass(TOY, Fair(), s0, ids0, blobs0, 0);
    RecoveryConverges(TOY, Fair(), s0, ids0, blobs0, 0);
    IdleIsInv(s);
    PassKeepsCurrent(s0, ids0, blobs0, s);
  }

  lemma PassKeepsCurrent(s: Sys, ids: seq<Id>, blobs: seq<Id>, s': Sys)
    requires Idle(TOY, Fair(), s) && Selects(s, ids) && SlotsAgree(s) && AllCurrent(s)
    requires s' == Pass(TOY, Fair(), s, ids, blobs, 0)
    ensures AllCurrent(s')
  {
    hide Core;
    SettleAllKeepsCurrent(TOY, Fair(), s, ids, 0);
    var (s1, k1) := SettleAll(TOY, Fair(), s, ids, 0);
    PassTouchesOnlyOrphans(Fair(), s1, blobs, k1);
    forall u | u in s'.db.uploads && s'.db.uploads[u].commit == Committed ensures Current(s'.db, s'.db.uploads[u]) {
      assert Current(s1.db, s1.db.uploads[u]);
    }
  }

  // ----- a healthy data directory ------------------------------------------------------------------

  lemma PathIsSound()
    ensures StorageKeys.AccountPathOk("p") && !StorageKeys.IsStrictDescendant("p", "p")
  {
    assert StorageKeys.Split("") == [""];
    assert StorageKeys.Split("p") == ["p"] by {
      assert "p"[1..] == "" && ["p"[0]] + "" == "p";
    }
    assert StorageKeys.ComponentOk("p");
  }

  lemma SmallRequestSound(db: Db, row: Upload)
    requires row.request == Small(1).request && row.asset in db.assets && db.assets[row.asset].source == "a"
    ensures Doctor.RequestSound(db, row)
  {
    SmallIsSent(1);
    assert forall i :: 0 <= i < |row.request.parts| ==> Doctor.PartSound(row.request, i);
  }

  /** What the doctor's acceptance of an interrupted commit asks for. */
  lemma HealthyInterrupted() returns (s: Sys, u: Id)
    ensures WorldOk(Fair()) && Faultless(Fair()) && Inv(TOY, s) && s.calls == map[] && s.puts == map[]
    ensures Doctor.Healthy(TOY, s.db, s.files) && u in s.db.uploads && s.db.uploads[u].commit == Started
  {
    s, u := CommitInterrupted();
    IdleIsInv(s);
    PathIsSound();
    SmallRequestSound(s.db, s.db.uploads[u]);
    InterruptedIsHealthy(s, u);
  }

  lemma InterruptedIsHealthy(s: Sys, u: Id)
    requires Interrupted(s, u) && Doctor.RequestSound(s.db, s.db.uploads[u]) && Doctor.PathsSound(s.db)
    ensures Doctor.Healthy(TOY, s.db, s.files)
  {
    var row := s.db.uploads[u];
    assert RowOk(TOY, s.db, s.files, u);
    hide Core, Doctor.RequestSound, Doctor.PathsSound;
    assert row.parts[0].received && row.parts[0].spec == row.request.parts[0];
    assert Doctor.ReceivedAs(row, 0, 0);
    assert Doctor.PartsAccounted(s.db, s.files);
    Doctor.ValidBlake3Lower(Digits('1'));
    assert Lower(Digits('1')) == Digits('1');
    assert Doctor.ActiveSound(TOY, s.db, s.files, u, row);
  }

  /** The interrupted commit, completed and swept. */
  lemma CompletedAndSwept() returns (s0: Sys, s1: Sys, u: Id)
    ensures Interrupted(s0, u) && Idle(TOY, Fair(), s1) && OnlyOwn(s0, s1, u) && Adds(TOY, s0, s1, u)
    ensures s1.db.uploads[u].commit == Committed && StageGone(s1, u) && AllCurrent(s1) && s1.puts == map[]
  {
    hide Core, Settle, Adds, OnlyOwn, Finishable, SlotsAgree, AllCurrent, Verdict;
    s0, u := CommitInterrupted();
    InterruptedFinishes(s0, u);
    s1 := Settle(TOY, Fair(), s0, u, 0).0;
    SettlePuts(s0, u);
    SettleIdle(TOY, Fair(), s0, u, 0);
    SettleEnds(TOY, Fair(), s0, u, 0);
    FinishableIsCommitted(s0, u);
    SettleKeepsCurrent(TOY, Fair(), s0, u, 0);
  }

  lemma SettlePuts(s: Sys, u: Id)
    ensures Settle(TOY, Fair(), s, u, 0).0.puts == s.puts
  {
  }

  lemma FinishableIsCommitted(s: Sys, u: Id)
    requires Idle(TOY, Fair(), s) && Finishable(TOY, s, u)
    ensures Verdict(TOY, s, u) == Committed && Selectable(s, u)
  {
    HonestVerdict(TOY, s, u);
    hide Core, Verdict, SizesFit;
  }

  lemma SweptIsSettled(s0: Sys, s1: Sys, s2: Sys, u: Id)
    requires Interrupted(s0, u) && Idle(TOY, Fair(), s1) && OnlyOwn(s0, s1, u) && Adds(TOY, s0, s1, u)
    requires s1.db.uploads[u].commit == Committed && StageGone(s1, u) && s2 == SweepAll(s1)
    ensures Settled(s2) && NothingBegun(s2) && Doctor.NoneAmiss(s2)
  {
    OnlyBlobIsUsed(s0, s1, u);
    hide Core, Idle, Interrupted, Adds, Later;
    forall b ensures !Orphan(s2.db, b) {
      assert !Orphan(s1.db, b);
    }
    hide Orphan;
    forall key | key in s2.files ensures !Swept(s2, key) {
      assert !Swept(s1, key);
    }
    assert s2.db.uploads.Keys == {u} by { OneUpload(s0, s1, u); }
  }

  lemma OneUpload(s0: Sys, s1: Sys, u: Id)
    requires Interrupted(s0, u) && OnlyOwn(s0, s1, u)
    ensures s1.db.uploads.Keys == {u}
  {
  }

  lemma OnlyBlobIsUsed(s0: Sys, s1: Sys, u: Id)
    requires Interrupted(s0, u) && Idle(TOY, Fair(), s1) && OnlyOwn(s0, s1, u) && Adds(TOY, s0, s1, u)
    requires s1.db.uploads[u].commit == Committed
    ensures forall b :: !Orphan(s1.db, b)
  {
    var row := s1.db.uploads[u];
    assert RowOk(TOY, s1.db, s1.files, u) && UniqueBlobs(s1.db);
    assert row.account == s0.db.uploads[u].account && row.request == s0.db.uploads[u].request;
    hide Core, RowFilesOk, OnlyOwn, Later;
    forall b ensures !Orphan(s1.db, b) {
      if b in s1.db.blobs {
        assert IsContent(s1.db, b, row.account, row.request.blake3);
        assert row.blob == Some(b);
      }
    }
  }

  /** What sweeping and completing leave of the request and its parts. */
  lemma SweptRow(s0: Sys, s1: Sys, s2: Sys, u: Id)
    requires Interrupted(s0, u) && OnlyOwn(s0, s1, u) && s2 == SweepAll(s1)
    ensures s2.db.uploads.Keys == {u} && s2.db.assets == s0.db.assets
    ensures var row, row' := s0.db.uploads[u], s2.db.uploads[u];
      row'.request == row.request && row'.asset == row.asset && row'.parts == row.parts
  {
  }

  lemma SweptParts(s0: Sys, s1: Sys, s2: Sys, u: Id, key: Key)
    requires Interrupted(s0, u) && OnlyOwn(s0, s1, u) && s2 == SweepAll(s1) && key in s2.files && key.PartFile?
    ensures key == PartFile(u, 0)
  {
    assert SameFile(s0.files, s1.files, key);
  }

  lemma SoundAgain(db: Db, row: Upload, db': Db, row': Upload)
    requires db'.assets == db.assets && row'.request == row.request && row'.asset == row.asset
    requires Doctor.RequestSound(db, row)
    ensures Doctor.RequestSound(db', row')
  {
  }

  lemma InterruptedIsReceived(s: Sys, u: Id)
    requires Interrupted(s, u)
    ensures u in s.db.uploads && AllReceived(s.db.uploads[u])
  {
  }

  lemma InvRow(s: Sys, u: Id)
    requires Inv(TOY, s)
    ensures RowOk(TOY, s.db, s.files, u)
  {
  }

  lemma SweptManifests(s0: Sys, s1: Sys, s2: Sys, u: Id)
    requires Interrupted(s0, u) && OnlyOwn(s0, s1, u) && s2 == SweepAll(s1) && Inv(TOY, s2)
    requires Doctor.RequestSound(s0.db, s0.db.uploads[u])
    ensures Doctor.ManifestsSound(TOY, s2.db, s2.files)
  {
    hide Interrupted, Inv, OnlyOwn, SweepAll, RowOk, Doctor.RequestSound, ManifestRows, PartsOnDisk;
    SweptRow(s0, s1, s2, u);
    var row := s2.db.uploads[u];
    InvRow(s2, u);
    RowManifests(s2, u);
    InterruptedIsReceived(s0, u);
    SoundAgain(s0.db, s0.db.uploads[u], s2.db, row);
    assert row.parts[0].received;
    forall key | key in s2.files && key.PartFile?
      ensures key.upload in s2.db.uploads && exists j :: 0 <= j < |row.parts| && Doctor.ReceivedAs(row, j, key.index)
    {
      SweptParts(s0, s1, s2, u, key);
      assert Doctor.ReceivedAs(row, 0, 0);
    }
  }

  lemma RowManifests(s: Sys, u: Id)
    requires u in s.db.uploads && RowOk(TOY, s.db, s.files, u)
    ensures ManifestRows(s.db.uploads[u]) && PartsOnDisk(TOY, s.files, u, s.db.uploads[u])
    ensures s.db.uploads[u].parts != [] && s.db.uploads[u].parts[0].spec.index == 0
  {
    assert s.db.uploads[u].request.parts[0].index == 0;
    assert s.db.uploads[u].parts[0].spec == s.db.uploads[u].request.parts[0];
  }

  /** What the doctor's acceptance of a finished commit asks for. */
  lemma HealthyCommitted() returns (s: Sys, u: Id)
    ensures WorldOk(Fair()) && Faultless(Fair()) && Inv(TOY, s) && s.calls == map[] && s.puts == map[]
    ensures Doctor.Healthy(TOY, s.db, s.files) && u in s.db.uploads && s.db.uploads[u].commit == Committed
    ensures Settled(s) && NothingBegun(s) && Doctor.NoneAmiss(s)
  {
    hide Core, OnlyOwn, Adds, AllCurrent, Settled, Doctor.Healthy, Doctor.ManifestsSound, Doctor.RequestSound;
    var s0, s1;
    s0, s1, u := CompletedAndSwept();
    s := SweepAll(s1);
    SweepKeepsInv(TOY, Fair(), s1);
    IdleIsInv(s);
    PathIsSound();
    SmallRequestSound(s0.db, s0.db.uploads[u]);
    SweptIsSettled(s0, s1, s, u);
    SweptManifests(s0, s1, s, u);
    SweptStaysCurrent(s0, s1, s, u);
    Doctor.SettledAccepts(TOY, s);
  }

  lemma SweptStaysCurrent(s0: Sys, s1: Sys, s2: Sys, u: Id)
    requires Interrupted(s0, u) && OnlyOwn(s0, s1, u) && AllCurrent(s1) && s2 == SweepAll(s1)
    requires StorageKeys.AccountPathOk("p") && !StorageKeys.IsStrictDescendant("p", "p")
    ensures AllCurrent(s2) && Doctor.PathsSound(s2.db) && u in s2.db.uploads
    ensures s2.db.uploads[u] == s1.db.uploads[u]
  {
    hide Core;
  }

  // ----- two devices, and keys ---------------------------------------------------------------------

  /** What the race asks for. */
  lemma TwoSenders()
    ensures WorldOk(Fair()) && Faultless(Fair()) && Initial(TOY, Start())
    ensures Race.Sends(TOY, Small(1)) && Race.Sends(TOY, Small(2)) && Race.SamePicture(Small(1), Small(2))
    ensures 0 in Start().db.accounts && Start().db.accounts[0].enabled && Start().db.accounts[0].quota == 0
  {
    StartIsInitial();
    SmallIsSent(1);
    SmallIsSent(2);
  }

  const NAMED: set<Id> := {0, 1, 2, 3, 4, 5, 6, 7, 8, 9}

  function Name(id: Id): string {
    "00000000-0000-0000-0000-00000000000" + (if id < 10 then [('0' as int + id) as char] else "f")
  }

  lemma NamesAreGood()
    ensures StorageKeys.NamesOk(Name, NAMED)
  {
    forall id | id in NAMED ensures StorageKeys.IsUuid(Name(id)) && Name(id)[35] == ('0' as int + id) as char {
    }
  }

  /** A key, and the textual path it stands for, within bounds. */
  ghost predicate GoodKey(key: Key) {
    StorageKeys.KeyOk(key) && StorageKeys.KeyIds(key) <= NAMED
    && |StorageKeys.Render(Name, key)| <= StorageKeys.MAX_KEY
  }

  lemma SmallPart()
    ensures GoodKey(PartFile(1, 0))
  {
    assert StorageKeys.Decimal(0) == "0";
    assert |StorageKeys.PartName(0)| == 13;
    assert |Name(1)| == 36;
  }

  lemma SmallStage()
    ensures GoodKey(StageFile("p", 2, 3))
  {
    PathIsSound();
    assert |StorageKeys.StageName(Name, 2, 3)| == 86;
  }

  lemma SmallObject()
    ensures GoodKey(ObjectFor("p", Digits('1')))
  {
    PathIsSound();
    assert Lower(Digits('1')) == Digits('1');
  }

  /** What the theorems on keys ask for: names for ten UUIDs, and keys of each
      kind that mention them. */
  lemma KeysAndNames()
    ensures StorageKeys.NamesOk(Name, NAMED) && StorageKeys.AccountPathOk("p")
    ensures GoodKey(PartFile(1, 0)) && GoodKey(StageFile("p", 2, 3)) && GoodKey(ObjectFor("p", Digits('1')))
    ensures IsBlake3(Digits('1')) && Lower(Digits('1')) == Digits('1')
  {
    hide GoodKey, Name;
    NamesAreGood();
    PathIsSound();
    SmallPart();
    SmallStage();
    SmallObject();
  }
}
