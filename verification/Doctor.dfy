/** The `doctor` command as an executable checker of the commit protocol's
    durable state, and what its acceptance promises. */
module Doctor {
  import opened Types
  import opened CommitModel
  import opened CommitInvariant
  import opened CommitSteps
  import opened CommitRuns
  import opened CommitSafety
  import opened Solo
  import opened Reconcile
  import opened Storage
  import StorageKeys

  // ----- the index of the data directory ----------------------------------------------

  datatype FileFact = FileFact(size: nat, blake3: string)

  type FileIndex = map<Key, FileFact>

  predicate Indexes(cfg: Config, files: Files, index: FileIndex) {
    index.Keys == files.Keys
    && forall key :: key in files ==> index[key] == FileFact(|files[key]|, cfg.hash(files[key]))
  }

  /** `index_data_tree`: every file read to its end, in chunks. */
  method IndexDataTree(cfg: Config, files: Files) returns (index: FileIndex)
    ensures Indexes(cfg, files, index)
  {
    index := map[];
    var rest := files.Keys;
    while rest != {}
      invariant rest <= files.Keys && index.Keys == files.Keys - rest
      invariant forall key :: key in index ==> index[key] == FileFact(|files[key]|, cfg.hash(files[key]))
      decreases |rest|
    {
      var key :| key in rest;
      rest := rest - {key};
      var content := files[key];
      var size, hashed := 0, [];
      while true
        invariant size <= |content| && hashed == content[..size]
        decreases |content| - size
      {
        var read := Read(content, size, BUFFER);
        if read == 0 {
          break;
        }
        assert content[..size + read] == content[..size] + content[size..size + read];
        hashed := hashed + content[size..size + read];
        size := size + read;
      }
      assert hashed == content;
      index := index[key := FileFact(size, cfg.hash(hashed))];
    }
  }

  /** The index says of a file what inspecting it would. */
  predicate Describes(index: FileIndex, key: Key, size: nat, blake3: string) {
    key in index && index[key].size == size && index[key].blake3 == blake3
  }

  lemma DescribesIffMatches(cfg: Config, files: Files, index: FileIndex, key: Key, size: nat, blake3: string)
    requires Indexes(cfg, files, index)
    ensures Describes(index, key, size, blake3) <==> InspectFile(cfg, files, key, size, blake3) == Matches
    ensures key in index && !Describes(index, key, size, blake3)
         <==> InspectFile(cfg, files, key, size, blake3) == Mismatch
  {
  }

  // ----- what is checked ----------------------------------------------------------------

  /** `valid_blake3`: stricter than the server's own `is_blake3`. */
  predicate ValidBlake3(s: string) {
    |s| == 64 && forall i :: 0 <= i < |s| ==> IsHexDigit(s[i]) && !('A' <= s[i] <= 'Z')
  }

  lemma ValidBlake3Lower(s: string)
    ensures ValidBlake3(s) <==> IsBlake3(s) && Lower(s) == s
  {
    if IsBlake3(s) && Lower(s) == s {
      forall i | 0 <= i < |s| ensures !('A' <= s[i] <= 'Z') {
        assert Lower(s)[i] == LowerChar(s[i]);
      }
    }
    if ValidBlake3(s) {
      assert Lower(s) == s;
    }
  }

  /** A stored request that agrees with its own rows. */
  predicate RequestSound(db: Db, row: Upload) {
    && row.request.sourceAsset != "" && row.request.sourceResource != ""
    && row.request.filename != [] && row.request.mimeType != []
    && ValidBlake3(row.request.blake3) && row.request.parts != []
    && row.asset in db.assets && db.assets[row.asset].source == row.request.sourceAsset
    && (forall i :: 0 <= i < |row.request.parts| ==> PartSound(row.request, i))
    && PartsSize(row.request.parts) <= U64_MAX && PartsSize(row.request.parts) == row.request.size
  }

  predicate PartSound(request: Request, i: nat)
    requires i < |request.parts|
  {
    var part := request.parts[i];
    part.index == i && (part.size != 0 || request.size == 0) && ValidBlake3(part.blake3)
  }

  /** Every part file is one that some upload has received. */
  ghost predicate PartsAccounted(db: Db, files: Files) {
    forall key :: key in files && key.PartFile? ==>
      key.upload in db.uploads
      && exists j :: 0 <= j < |db.uploads[key.upload].parts| && ReceivedAs(db.uploads[key.upload], j, key.index)
  }

  predicate ReceivedAs(row: Upload, j: nat, index: nat)
    requires j < |row.parts|
  {
    row.parts[j].received && row.parts[j].spec.index == index
  }

  ghost predicate ManifestsSound(cfg: Config, db: Db, files: Files) {
    (forall u :: u in db.uploads ==>
       RequestSound(db, db.uploads[u]) && ManifestRows(db.uploads[u])
       && PartsOnDisk(cfg, files, u, db.uploads[u]))
    && PartsAccounted(db, files)
  }

  predicate CommittedSound(db: Db, row: Upload) {
    && row.done && row.blob.Some? && row.resource.Some? && row.final.Some? && row.path.Some?
    && row.size.Some? && row.blake3.Some?
    && row.blob.value in db.blobs && row.resource.value in db.resources
    && var blob, resource := db.blobs[row.blob.value], db.resources[row.resource.value];
    && blob.account == row.account && Some(blob.key) == row.final && Some(blob.size) == row.size
    && Some(blob.blake3) == row.blake3
    && Some(resource.blob) == row.blob && resource.asset == row.asset
    && row.account in db.accounts && Some(db.accounts[row.account].path) == row.path
  }

  ghost predicate BlobSound(cfg: Config, db: Db, files: Files, b: Id)
    requires b in db.blobs
  {
    var blob := db.blobs[b];
    blob.account in db.accounts && InScope(db.accounts[blob.account].path, blob.key) && ValidBlake3(blob.blake3)
    && InspectFile(cfg, files, blob.key, blob.size, blob.blake3) == Matches
  }

  /** An unfinished commit with nothing corrupt, and something to finish from. */
  ghost predicate ActiveSound(cfg: Config, db: Db, files: Files, u: Id, row: Upload) {
    && row.account in db.accounts && row.path == Some(db.accounts[row.account].path)
    && row.blob.Some? && row.size.Some? && row.blake3.Some? && ValidBlake3(row.blake3.value)
    && row.final.Some? && InScope(row.path.value, row.final.value)
    && (row.commit == Started ==> row.staged.Some?)
    && var final := InspectFile(cfg, files, row.final.value, row.size.value, row.blake3.value);
       var staged := if row.staged.None? then Missing
                     else InspectFile(cfg, files, row.staged.value, row.size.value, row.blake3.value);
    && (row.staged.Some? ==> IsStageOf(row.path.value, u, row.staged.value))
    && final != Mismatch && staged != Mismatch
    && (row.commit == Finalizing ==> final == Matches || staged == Matches)
  }

  /** Directories of accounts are legal keys outside `uploads`, and none lies
      below another. */
  predicate PathsSound(db: Db) {
    (forall a :: a in db.accounts ==> StorageKeys.AccountPathOk(db.accounts[a].path))
    && forall a, b :: a in db.accounts && b in db.accounts ==>
         !StorageKeys.IsStrictDescendant(db.accounts[a].path, db.accounts[b].path)
  }

  ghost predicate Healthy(cfg: Config, db: Db, files: Files) {
    && PathsSound(db) && ManifestsSound(cfg, db, files)
    && (forall u :: u in db.uploads ==> db.uploads[u].commit != Unknown)
    && (forall u :: u in db.uploads && db.uploads[u].commit == Committed ==> CommittedSound(db, db.uploads[u]))
    && (forall b :: !Orphan(db, b))
    && (forall b :: b in db.blobs ==> BlobSound(cfg, db, files, b))
    && (forall u :: u in db.uploads && db.uploads[u].commit in {Started, Finalizing} ==>
          ActiveSound(cfg, db, files, u, db.uploads[u]))
  }

  // ----- the checks, as the command makes them --------------------------------------------

  /** `validate_account_storage_paths`. */
  method ValidateAccountStoragePaths(db: Db) returns (ok: bool)
    ensures ok <==> PathsSound(db)
  {
    hide StorageKeys.AccountPathOk, StorageKeys.IsStrictDescendant;
    var accounts := Listed(db);
    var paths := [];
    for i := 0 to |accounts|
      invariant |paths| == i && forall j :: 0 <= j < i ==> paths[j] == db.accounts[accounts[j]].path
      invariant forall j :: 0 <= j < i ==> StorageKeys.AccountPathOk(paths[j])
    {
      var path := db.accounts[accounts[i]].path;
      if !StorageKeys.AccountPathOk(path) {
        return false;
      }
      paths := paths + [path];
    }
    for i := 0 to |paths|
      invariant forall j, k :: 0 <= j < i && j < k < |paths| ==> Apart(paths[j], paths[k])
    {
      for k := i + 1 to |paths|
        invariant forall k' :: i < k' < k ==> Apart(paths[i], paths[k'])
      {
        if !Apart(paths[i], paths[k]) {
          return false;
        }
      }
    }
    PairsApart(db, accounts, paths);
    return true;
  }

  predicate Apart(first: string, second: string) {
    !StorageKeys.IsStrictDescendant(first, second) && !StorageKeys.IsStrictDescendant(second, first)
  }

  /** The accounts in some order, each once. */
  method Listed(db: Db) returns (accounts: seq<Id>)
    ensures forall a :: a in accounts <==> a in db.accounts
  {
    accounts := [];
    var rest := db.accounts.Keys;
    while rest != {}
      invariant rest <= db.accounts.Keys && forall a :: a in accounts <==> a in db.accounts.Keys - rest
      decreases |rest|
    {
      var a :| a in rest;
      accounts := accounts + [a];
      rest := rest - {a};
    }
  }

  lemma PairsApart(db: Db, accounts: seq<Id>, paths: seq<string>)
    requires forall a :: a in accounts <==> a in db.accounts
    requires |paths| == |accounts| && forall j :: 0 <= j < |paths| ==> paths[j] == db.accounts[accounts[j]].path
    requires forall j, k :: 0 <= j < k < |paths| ==> Apart(paths[j], paths[k])
    ensures forall a, b :: a in db.accounts && b in db.accounts ==>
      !StorageKeys.IsStrictDescendant(db.accounts[a].path, db.accounts[b].path)
  {
    forall a, b | a in db.accounts && b in db.accounts
      ensures !StorageKeys.IsStrictDescendant(db.accounts[a].path, db.accounts[b].path)
    {
      var j :| 0 <= j < |accounts| && accounts[j] == a;
      var k :| 0 <= k < |accounts| && accounts[k] == b;
      if j < k {
        assert Apart(paths[j], paths[k]);
      } else if k < j {
        assert Apart(paths[k], paths[j]);
      }
    }
  }

  type Expected = map<(Id, nat), (nat, string)>

  /** What is expected of the rows of the uploads in `seen`. */
  ghost predicate Expects(db: Db, seen: set<Id>, expected: Expected)
    requires seen <= db.uploads.Keys
  {
    && (forall u: Id, i: nat {:trigger (u, i) in expected} ::
          (u, i) in expected <==> u in seen && i < |db.uploads[u].request.parts|)
    && (forall u: Id, i: nat {:trigger (u, i) in expected} :: (u, i) in expected ==>
          expected[(u, i)] == (db.uploads[u].request.parts[i].size, db.uploads[u].request.parts[i].blake3))
  }

  /** The first loop of `validate_upload_manifests`: check the requests, and
      collect the rows they call for. */
  method CollectExpected(db: Db) returns (ok: bool, expected: Expected)
    ensures ok <==> forall u :: u in db.uploads ==> RequestSound(db, db.uploads[u])
    ensures ok ==> Expects(db, db.uploads.Keys, expected)
  {
    expected := map[];
    var rest := db.uploads.Keys;
    while rest != {}
      invariant rest <= db.uploads.Keys
      invariant forall u :: u in db.uploads.Keys - rest ==> RequestSound(db, db.uploads[u])
      invariant Expects(db, db.uploads.Keys - rest, expected)
      decreases |rest|
    {
      var u :| u in rest;
      var sound, more := CollectUpload(db, u, expected);
      if !sound {
        return false, expected;
      }
      assert db.uploads.Keys - (rest - {u}) == (db.uploads.Keys - rest) + {u};
      rest := rest - {u};
      expected := more;
    }
    return true, expected;
  }

  /** The first `n` parts of an upload have been added to what is expected. */
  ghost predicate Collected(expected: Expected, more: Expected, u: Id, parts: seq<PartSpec>, n: nat)
    requires n <= |parts|
  {
    forall v: Id, i: nat {:trigger (v, i) in more} ::
      ((v, i) in more <==> (v, i) in expected || (v == u && i < n))
      && ((v, i) in expected ==> more[(v, i)] == expected[(v, i)])
      && (v == u && i < n ==> more[(v, i)] == (parts[i].size, parts[i].blake3))
  }

  /** One upload of that loop. */
  method CollectUpload(db: Db, u: Id, expected: Expected) returns (ok: bool, more: Expected)
    requires u in db.uploads && forall i: nat {:trigger (u, i) in expected} :: (u, i) !in expected
    ensures ok <==> RequestSound(db, db.uploads[u])
    ensures ok ==> Collected(expected, more, u, db.uploads[u].request.parts, |db.uploads[u].request.parts|)
  {
    more := expected;
    var row := db.uploads[u];
    var request := row.request;
    if request.sourceAsset == "" || request.sourceResource == "" || request.filename == [] || request.mimeType == []
       || !ValidBlake3(request.blake3) || request.parts == []
       || row.asset !in db.assets || db.assets[row.asset].source != request.sourceAsset {
      return false, more;
    }
    var total := 0;
    for position := 0 to |request.parts|
      invariant total == PartsSize(request.parts[..position]) <= U64_MAX
      invariant forall i :: 0 <= i < position ==> PartSound(request, i)
      invariant Collected(expected, more, u, request.parts, position)
    {
      var part := request.parts[position];
      if !PartSound(request, position) {
        return false, more;
      }
      assert request.parts[..position + 1] == request.parts[..position] + [part];
      PartsSizeAppend(request.parts[..position], part);
      PartsSizePrefix(request.parts, position + 1);
      if total + part.size > U64_MAX {
        return false, more;
      }
      total := total + part.size;
      if (u, part.index) in more {
        assert false;
        return false, more;
      }
      more := more[(u, part.index) := (part.size, part.blake3)];
    }
    assert request.parts[..|request.parts|] == request.parts;
    return total == request.size, more;
  }

  /** Part rows come by primary key, in the order of their index. */
  ghost predicate IndexOrdered(parts: seq<PartRow>) {
    forall i, j :: 0 <= i < j < |parts| ==> parts[i].spec.index < parts[j].spec.index
  }

  /** Every row is the entry of its index in the request. */
  ghost predicate RowsMatch(row: Upload) {
    forall j :: 0 <= j < |row.parts| ==> RowMatches(row, j)
  }

  predicate RowMatches(row: Upload, j: nat)
    requires j < |row.parts|
  {
    var spec := row.parts[j].spec;
    spec.index < |row.request.parts| && spec == row.request.parts[spec.index]
  }

  ghost predicate HasRow(row: Upload, index: nat) {
    exists j :: 0 <= j < |row.parts| && row.parts[j].spec.index == index
  }

  lemma {:induction false} OrderedRowsCover(row: Upload, j: nat)
    requires IndexOrdered(row.parts) && RowsMatch(row) && j <= |row.parts|
    requires forall i :: 0 <= i < |row.request.parts| ==> HasRow(row, i)
    ensures forall k :: 0 <= k < j ==> row.parts[k].spec.index == k
  {
    if j > 0 {
      OrderedRowsCover(row, j - 1);
      assert j >= 2 ==> row.parts[j - 2].spec.index < row.parts[j - 1].spec.index;
      assert RowMatches(row, j - 1) && HasRow(row, j - 1);
      var k :| 0 <= k < |row.parts| && row.parts[k].spec.index == j - 1;
      assert k <= j - 1;
    }
  }

  /** Matching rows that leave no entry over are the manifest, row for row. */
  lemma RowsAreManifest(row: Upload)
    requires IndexOrdered(row.parts)
    requires forall i :: 0 <= i < |row.request.parts| ==> row.request.parts[i].index == i
    ensures RowsMatch(row) && (forall i :: 0 <= i < |row.request.parts| ==> HasRow(row, i)) <==> ManifestRows(row)
  {
    if RowsMatch(row) && forall i :: 0 <= i < |row.request.parts| ==> HasRow(row, i) {
      OrderedRowsCover(row, |row.parts|);
      var n := |row.request.parts|;
      if n > 0 {
        assert HasRow(row, n - 1);
      }
      assert |row.parts| > n ==> RowMatches(row, n);
      forall j | 0 <= j < |row.parts| ensures row.parts[j].spec == row.request.parts[j] {
        assert RowMatches(row, j);
      }
    }
    if ManifestRows(row) {
      forall i | 0 <= i < |row.request.parts| ensures HasRow(row, i) {
        assert row.parts[i].spec.index == i;
      }
    }
  }

  /** The rows of one upload in the second loop of `validate_upload_manifests`:
      each takes its entry out of what is expected, and its file, once received,
      must be there. */
  method CheckRows(row: Upload, u: Id, index: FileIndex, expected: Expected, durable: set<Key>)
    returns (ok: bool, left: Expected, durable': set<Key>)
    requires IndexOrdered(row.parts)
    requires forall i: nat {:trigger (u, i) in expected} :: (u, i) in expected <==> i < |row.request.parts|
    requires forall i: nat {:trigger (u, i) in expected} :: (u, i) in expected ==>
      expected[(u, i)] == (row.request.parts[i].size, row.request.parts[i].blake3) && row.request.parts[i].index == i
      && ValidBlake3(row.request.parts[i].blake3)
    ensures ok <==> forall j :: 0 <= j < |row.parts| ==> RowMatches(row, j) && RowStored(row, u, index, j)
    ensures ok ==> forall v: Id, i: nat {:trigger (v, i) in left} ::
      ((v, i) in left <==> (v, i) in expected && !(v == u && HasRow(row, i)))
      && ((v, i) in left ==> left[(v, i)] == expected[(v, i)])
    ensures ok ==> forall key: Key ::
      key in durable' <==> key in durable || (key.PartFile? && key.upload == u && ReceivedRow(row, key.index))
  {
    left, durable' := expected, durable;
    for k := 0 to |row.parts|
      invariant forall j :: 0 <= j < k ==> RowMatches(row, j) && RowStored(row, u, index, j)
      invariant forall v: Id, i: nat {:trigger (v, i) in left} ::
        ((v, i) in left <==>
          (v, i) in expected && !(v == u && exists j :: 0 <= j < k && row.parts[j].spec.index == i))
        && ((v, i) in left ==> left[(v, i)] == expected[(v, i)])
      invariant forall key: Key ::
        key in durable'
        <==> key in durable
             || (key.PartFile? && key.upload == u && exists j :: 0 <= j < k && ReceivedAs(row, j, key.index))
    {
      var PartRow(spec, received) := row.parts[k];
      if (u, spec.index) !in left {
        assert !RowMatches(row, k);
        return false, left, durable';
      }
      var entry := left[(u, spec.index)];
      left := left - {(u, spec.index)};
      if entry != (spec.size, spec.blake3) {
        assert (u, spec.index) in expected && !RowMatches(row, k);
        return false, left, durable';
      }
      assert RowMatches(row, k);
      if received {
        if !ValidBlake3(spec.blake3) || !Describes(index, PartFile(u, spec.index), spec.size, Lower(spec.blake3)) {
          ValidBlake3Lower(spec.blake3);
          return false, left, durable';
        }
        ValidBlake3Lower(spec.blake3);
        durable' := durable' + {PartFile(u, spec.index)};
        assert ReceivedAs(row, k, spec.index);
      }
    }
    return true, left, durable';
  }

  predicate RowStored(row: Upload, u: Id, index: FileIndex, j: nat)
    requires j < |row.parts|
  {
    var PartRow(spec, received) := row.parts[j];
    received ==> Describes(index, PartFile(u, spec.index), spec.size, spec.blake3)
  }

  ghost predicate ReceivedRow(row: Upload, index: nat) {
    exists j :: 0 <= j < |row.parts| && ReceivedAs(row, j, index)
  }

  ghost predicate RowsChecked(row: Upload, u: Id, index: FileIndex) {
    forall j :: 0 <= j < |row.parts| ==> RowMatches(row, j) && RowStored(row, u, index, j)
  }

  ghost predicate RowsCover(row: Upload) {
    forall i :: 0 <= i < |row.request.parts| ==> HasRow(row, i)
  }

  /** What the second loop checks of an upload is what the protocol keeps. */
  lemma CheckedIffSound(cfg: Config, files: Files, index: FileIndex, u: Id, row: Upload)
    requires Indexes(cfg, files, index) && IndexOrdered(row.parts)
    requires forall i :: 0 <= i < |row.request.parts| ==> PartSound(row.request, i)
    ensures RowsChecked(row, u, index) && RowsCover(row) <==> ManifestRows(row) && PartsOnDisk(cfg, files, u, row)
  {
    assert forall i :: 0 <= i < |row.request.parts| && PartSound(row.request, i) ==> row.request.parts[i].index == i;
    RowsAreManifest(row);
    forall j | 0 <= j < |row.parts|
      ensures RowStored(row, u, index, j) <==> (row.parts[j].received ==> PartStored(cfg, files, u, row.parts[j].spec))
    {
      var spec := row.parts[j].spec;
      DescribesIffMatches(cfg, files, index, PartFile(u, spec.index), spec.size, spec.blake3);
    }
  }

  /** `validate_upload_manifests`: requests, rows and part files agree. */
  method ValidateUploadManifests(cfg: Config, db: Db, files: Files, index: FileIndex) returns (ok: bool)
    requires Indexes(cfg, files, index)
    requires forall u :: u in db.uploads ==> IndexOrdered(db.uploads[u].parts)
    ensures ok <==> ManifestsSound(cfg, db, files)
  {
    var sound, left := CollectExpected(db);
    if !sound {
      return false;
    }
    forall u | u in db.uploads
      ensures RowsChecked(db.uploads[u], u, index) && RowsCover(db.uploads[u])
         <==> ManifestRows(db.uploads[u]) && PartsOnDisk(cfg, files, u, db.uploads[u])
    {
      assert RequestSound(db, db.uploads[u]);
      CheckedIffSound(cfg, files, index, u, db.uploads[u]);
    }
    hide PartsOnDisk, ManifestRows, RequestSound;
    var checked, left', durable := CheckAllRows(db, index, left);
    if !checked {
      return false;
    }
    LeftoverIffUncovered(db, left');
    var disk := set key | key in index && key.PartFile?;
    assert disk == durable <==> PartsAccounted(db, files) by {
      DurableIsOnDisk(db, index, durable);
      AccountedIff(cfg, db, files, index, durable);
    }
    return left' == map[] && disk == durable;
  }

  /** What is still expected once the rows of the uploads in `seen` are checked. */
  ghost predicate StillExpects(db: Db, seen: set<Id>, left: Expected)
    requires seen <= db.uploads.Keys
  {
    && (forall v: Id, i: nat {:trigger (v, i) in left} ::
          (v, i) in left <==>
            v in db.uploads && i < |db.uploads[v].request.parts| && !(v in seen && HasRow(db.uploads[v], i)))
    && (forall v: Id, i: nat {:trigger (v, i) in left} :: (v, i) in left ==>
          left[(v, i)] == (db.uploads[v].request.parts[i].size, db.uploads[v].request.parts[i].blake3))
  }

  ghost predicate DurableOf(db: Db, seen: set<Id>, durable: set<Key>)
    requires seen <= db.uploads.Keys
  {
    forall key: Key ::
      key in durable <==> key.PartFile? && key.upload in seen && ReceivedRow(db.uploads[key.upload], key.index)
  }

  /** Before its turn, everything an upload's request calls for is expected. */
  lemma NotYetChecked(db: Db, seen: set<Id>, left: Expected, u: Id)
    requires seen <= db.uploads.Keys && StillExpects(db, seen, left) && u in db.uploads && u !in seen
    requires RequestSound(db, db.uploads[u])
    ensures var row := db.uploads[u];
      (forall i: nat {:trigger (u, i) in left} :: (u, i) in left <==> i < |row.request.parts|)
      && forall i: nat {:trigger (u, i) in left} :: (u, i) in left ==>
           left[(u, i)] == (row.request.parts[i].size, row.request.parts[i].blake3)
           && row.request.parts[i].index == i && ValidBlake3(row.request.parts[i].blake3)
  {
    var row := db.uploads[u];
    assert forall i :: 0 <= i < |row.request.parts| && PartSound(row.request, i) ==>
      row.request.parts[i].index == i && ValidBlake3(row.request.parts[i].blake3);
  }

  method CheckAllRows(db: Db, index: FileIndex, expected: Expected)
    returns (ok: bool, left: Expected, durable: set<Key>)
    requires Expects(db, db.uploads.Keys, expected)
    requires forall u :: u in db.uploads ==> RequestSound(db, db.uploads[u]) && IndexOrdered(db.uploads[u].parts)
    ensures ok <==> forall u :: u in db.uploads ==> RowsChecked(db.uploads[u], u, index)
    ensures ok ==> StillExpects(db, db.uploads.Keys, left) && DurableOf(db, db.uploads.Keys, durable)
  {
    hide RequestSound, HasRow, ReceivedRow, ValidBlake3, RowMatches, RowStored, IndexOrdered;
    left, durable := expected, {};
    var rest := db.uploads.Keys;
    while rest != {}
      invariant rest <= db.uploads.Keys
      invariant forall u :: u in db.uploads.Keys - rest ==> RowsChecked(db.uploads[u], u, index)
      invariant StillExpects(db, db.uploads.Keys - rest, left) && DurableOf(db, db.uploads.Keys - rest, durable)
      decreases |rest|
    {
      var u :| u in rest;
      var row := db.uploads[u];
      NotYetChecked(db, db.uploads.Keys - rest, left, u);
      var checked, left', durable' := CheckRows(row, u, index, left, durable);
      if !checked {
        assert !RowsChecked(row, u, index);
        return false, left, durable;
      }
      rest := rest - {u};
      left, durable := left', durable';
    }
    assert db.uploads.Keys - rest == db.uploads.Keys;
    return true, left, durable;
  }

  lemma LeftoverIffUncovered(db: Db, left: Expected)
    requires StillExpects(db, db.uploads.Keys, left)
    ensures left == map[] <==> forall u :: u in db.uploads ==> RowsCover(db.uploads[u])
  {
    if left != map[] {
      var key :| key in left;
      assert (key.0, key.1) in left;
      assert !RowsCover(db.uploads[key.0]);
    } else {
      forall u, i | u in db.uploads && 0 <= i < |db.uploads[u].request.parts| ensures HasRow(db.uploads[u], i) {
        assert (u, i as nat) !in left;
      }
    }
  }

  lemma DurableIsOnDisk(db: Db, index: FileIndex, durable: set<Key>)
    requires DurableOf(db, db.uploads.Keys, durable)
    requires forall u :: u in db.uploads ==> RowsChecked(db.uploads[u], u, index)
    ensures forall key :: key in durable ==> key in index && key.PartFile?
  {
    forall key | key in durable ensures key in index {
      var row := db.uploads[key.upload];
      var j :| 0 <= j < |row.parts| && ReceivedAs(row, j, key.index);
      assert RowStored(row, key.upload, index, j);
    }
  }

  lemma AccountedIff(cfg: Config, db: Db, files: Files, index: FileIndex, durable: set<Key>)
    requires Indexes(cfg, files, index) && DurableOf(db, db.uploads.Keys, durable)
    requires forall key :: key in durable ==> key in index && key.PartFile?
    ensures (set key | key in index && key.PartFile?) == durable <==> PartsAccounted(db, files)
  {
    var disk := set key | key in index && key.PartFile?;
    if disk == durable {
      forall key | key in files && key.PartFile?
        ensures key.upload in db.uploads && ReceivedRow(db.uploads[key.upload], key.index)
      {
        assert key in disk;
      }
    }
    if PartsAccounted(db, files) {
      forall key | key in disk ensures key in durable {
        assert ReceivedRow(db.uploads[key.upload], key.index);
      }
    }
  }

  /** One row of `validate_active_commits`. */
  method CheckActive(cfg: Config, db: Db, files: Files, index: FileIndex, u: Id, row: Upload) returns (ok: bool)
    requires Indexes(cfg, files, index)
    ensures ok <==> ActiveSound(cfg, db, files, u, row)
  {
    if row.account !in db.accounts || row.path != Some(db.accounts[row.account].path) || row.blob.None?
       || row.size.None? || row.blake3.None? || !ValidBlake3(row.blake3.value) || row.final.None? {
      return false;
    }
    var path, final, size, blake3 := row.path.value, row.final.value, row.size.value, row.blake3.value;
    if !InScope(path, final) || (row.commit == Started && row.staged.None?) {
      return false;
    }
    DescribesIffMatches(cfg, files, index, final, size, blake3);
    var stageMatches := false;
    if row.staged.Some? {
      var staged := row.staged.value;
      DescribesIffMatches(cfg, files, index, staged, size, blake3);
      if !IsStageOf(path, u, staged) {
        return false;
      }
      stageMatches := Describes(index, staged, size, blake3);
      if staged in index && !stageMatches {
        return false;
      }
    }
    var finalMatches := Describes(index, final, size, blake3);
    if final in index && !finalMatches {
      return false;
    }
    return row.commit == Finalizing ==> stageMatches || finalMatches;
  }

  /** `validate_active_commits`. */
  method ValidateActiveCommits(cfg: Config, db: Db, files: Files, index: FileIndex) returns (ok: bool)
    requires Indexes(cfg, files, index)
    ensures ok <==> forall u :: u in db.uploads && db.uploads[u].commit in {Started, Finalizing} ==>
      ActiveSound(cfg, db, files, u, db.uploads[u])
  {
    hide ActiveSound, Indexes;
    var rest := set u | u in db.uploads && db.uploads[u].commit in {Started, Finalizing};
    while rest != {}
      invariant rest <= db.uploads.Keys
      invariant forall u :: u in rest ==> db.uploads[u].commit in {Started, Finalizing}
      invariant forall u :: u in db.uploads && db.uploads[u].commit in {Started, Finalizing} && u !in rest ==>
        ActiveSound(cfg, db, files, u, db.uploads[u])
      decreases |rest|
    {
      var u :| u in rest;
      var sound := CheckActive(cfg, db, files, index, u, db.uploads[u]);
      if !sound {
        return false;
      }
      rest := rest - {u};
    }
    return true;
  }

  /** The loop over the blob rows. */
  method ValidateBlobs(cfg: Config, db: Db, files: Files, index: FileIndex) returns (ok: bool)
    requires Indexes(cfg, files, index) && HashOk(cfg)
    ensures ok <==> forall b :: b in db.blobs ==> BlobSound(cfg, db, files, b)
  {
    var rest := db.blobs.Keys;
    while rest != {}
      invariant rest <= db.blobs.Keys
      invariant forall b :: b in db.blobs && b !in rest ==> BlobSound(cfg, db, files, b)
      decreases |rest|
    {
      var b :| b in rest;
      var blob := db.blobs[b];
      ValidBlake3Lower(blob.blake3);
      if blob.account !in db.accounts || !InScope(db.accounts[blob.account].path, blob.key)
         || !(ValidBlake3(blob.blake3) && Describes(index, blob.key, blob.size, Lower(blob.blake3))) {
        assert !BlobSound(cfg, db, files, b);
        return false;
      }
      rest := rest - {b};
    }
    return true;
  }

  /** `validate_database_files`. */
  method ValidateDatabaseFiles(cfg: Config, db: Db, files: Files) returns (ok: bool)
    requires HashOk(cfg) && forall u :: u in db.uploads ==> IndexOrdered(db.uploads[u].parts)
    ensures ok <==> Healthy(cfg, db, files)
  {
    hide PathsSound, ManifestsSound, CommittedSound, BlobSound, ActiveSound, Indexes, IndexOrdered, HashOk;
    var index := IndexDataTree(cfg, files);
    var paths := ValidateAccountStoragePaths(db);
    if !paths {
      return false;
    }
    var manifests := ValidateUploadManifests(cfg, db, files, index);
    if !manifests {
      return false;
    }
    if exists u :: u in db.uploads && db.uploads[u].commit == Unknown {
      return false;
    }
    if exists u :: u in db.uploads && db.uploads[u].commit == Committed && !CommittedSound(db, db.uploads[u]) {
      return false;
    }
    if b :| b in db.blobs && (forall r :: r in db.resources ==> db.resources[r].blob != b)
            && (forall u :: u in db.uploads ==> db.uploads[u].blob != Some(b)) {
      assert Orphan(db, b);
      return false;
    }
    assert forall b :: !Orphan(db, b);
    var blobs := ValidateBlobs(cfg, db, files, index);
    if !blobs {
      return false;
    }
    ok := ValidateActiveCommits(cfg, db, files, index);
  }

  // ----- what acceptance promises -------------------------------------------------------------

  lemma HealthyRow(cfg: Config, s: Sys, files: Files, u: Id)
    requires Inv(cfg, s) && Healthy(cfg, s.db, files) && u in s.db.uploads
    ensures RowOk(cfg, s.db, files, u)
  {
    var row := s.db.uploads[u];
    assert RowOk(cfg, s.db, s.files, u);
    if row.commit == Committed {
      assert BlobOk(cfg, s.db, row.blob.value) && BlobSound(cfg, s.db, files, row.blob.value);
    }
    if row.commit == Finalizing {
      assert ActiveSound(cfg, s.db, files, u, row);
    }
  }

  /** For rows a run can leave and files of any origin, acceptance restores the
      invariant of the protocol, but for what it says of objects no row names. */
  lemma HealthyRestoresInvariant(cfg: Config, s: Sys, files: Files)
    requires Inv(cfg, s) && s.calls == map[] && s.puts == map[] && Healthy(cfg, s.db, files)
    ensures Core(cfg, s.(files := files))
  {
    forall u ensures RowOk(cfg, s.db, files, u) {
      if u in s.db.uploads {
        HealthyRow(cfg, s, files, u);
      }
    }
    forall b ensures BlobOk(cfg, s.db, b) {
    }
    forall r ensures ResourceOk(cfg, s.db, files, r) {
      assert ResourceOk(cfg, s.db, s.files, r);
      if r in s.db.resources {
        assert BlobSound(cfg, s.db, files, s.db.resources[r].blob);
      }
    }
  }

  lemma SameKeySameSize(cfg: Config, db: Db, files: Files, u: Id, row: Upload, b: Id)
    requires RowDbOk(db, u, row) && Live(row.commit) && ActiveSound(cfg, db, files, u, row)
    requires IsContent(db, b, row.account, row.request.blake3) && BlobOk(cfg, db, b) && BlobSound(cfg, db, files, b)
    ensures db.blobs[b].size == row.request.size
  {
    hide Lower, ValidBlake3, ManifestRows, RequestOk, Real;
  }

  /** Every blob of a healthy tree has its object, so its size is the object's. */
  lemma HealthySizes(cfg: Config, s: Sys, files: Files, u: Id)
    requires Inv(cfg, s) && Healthy(cfg, s.db, files)
    requires u in s.db.uploads && s.db.uploads[u].commit in {Started, Finalizing}
    ensures SizeRecorded(s.db, s.db.uploads[u].account, s.db.uploads[u].request)
  {
    var row := s.db.uploads[u];
    assert RowOk(cfg, s.db, s.files, u) && ActiveSound(cfg, s.db, files, u, row);
    assert forall b :: b in s.db.blobs ==> BlobOk(cfg, s.db, b) && BlobSound(cfg, s.db, files, b);
    hide Inv, Healthy, RowDbOk, RowFilesOk, BlobOk, BlobSound, ActiveSound;
    forall b | IsContent(s.db, b, row.account, row.request.blake3)
      ensures s.db.blobs[b].size == row.request.size
    {
      SameKeySameSize(cfg, s.db, files, u, row, b);
    }
  }

  /** The object or the stage is there, or the parts make up the content. */
  ghost predicate Recoverable(cfg: Config, db: Db, files: Files, u: Id)
    requires u in db.uploads && db.uploads[u].account in db.accounts
  {
    var row := db.uploads[u];
    ObjectKey(db, row) in files || (row.staged.Some? && row.staged.value in files)
    || Assembled(cfg, files, u, row.request.parts, row.request.size, row.request.blake3).Some?
  }

  lemma HealthyVerdict(cfg: Config, s: Sys, files: Files, u: Id)
    requires Inv(cfg, s) && Healthy(cfg, s.db, files)
    requires u in s.db.uploads && s.db.uploads[u].commit in {Started, Finalizing}
    ensures s.db.uploads[u].account in s.db.accounts
    ensures Verdict(cfg, s.(files := files), u) == if Recoverable(cfg, s.db, files, u) then Committed else Failed
    ensures s.db.uploads[u].commit == Finalizing ==> Recoverable(cfg, s.db, files, u)
  {
    assert RowOk(cfg, s.db, s.files, u) && ActiveSound(cfg, s.db, files, u, s.db.uploads[u]);
    HealthySizes(cfg, s, files, u);
    hide Core, Healthy, Assembled, SizeRecorded, RowOk, ActiveSound;
    ActiveVerdict(cfg, s, files, u);
  }

  lemma ActiveVerdict(cfg: Config, s: Sys, files: Files, u: Id)
    requires u in s.db.uploads && s.db.uploads[u].commit in {Started, Finalizing}
    requires RowOk(cfg, s.db, s.files, u) && ActiveSound(cfg, s.db, files, u, s.db.uploads[u])
    requires SizeRecorded(s.db, s.db.uploads[u].account, s.db.uploads[u].request)
    ensures s.db.uploads[u].account in s.db.accounts
    ensures Verdict(cfg, s.(files := files), u) == if Recoverable(cfg, s.db, files, u) then Committed else Failed
    ensures s.db.uploads[u].commit == Finalizing ==> Recoverable(cfg, s.db, files, u)
  {
    hide Assembled, SizeRecorded, PartsOnDisk, ContentIs, ManifestRows, RequestOk, AllReceived, IsContent;
    SameBlobsSameSizes(s.db, s.(files := files).db, s.db.uploads[u].account, s.db.uploads[u].request);
  }

  /** If the doctor accepts, no interrupted commit is lost: a completion run
      alone commits every upload whose object or stage is there or whose parts
      make up the content, as those of every finalizing one do, and fails the
      others. */
  lemma AcceptanceMeansRecovery(cfg: Config, w: World, s: Sys, files: Files, u: Id, k: nat)
    requires WorldOk(w) && Faultless(w)
    requires Inv(cfg, s) && s.calls == map[] && s.puts == map[] && Healthy(cfg, s.db, files)
    requires u in s.db.uploads && s.db.uploads[u].commit in {Started, Finalizing}
    ensures s.db.uploads[u].account in s.db.accounts
    ensures s.db.uploads[u].commit == Finalizing ==> Recoverable(cfg, s.db, files, u)
    ensures var s0 := s.(files := files, calls := map[u := Load(None)]);
      if Recoverable(cfg, s.db, files, u) then Commits(cfg, w, s0, u, k) else Stops(cfg, w, s0, u, k, Failed)
  {
    HealthyRestoresInvariant(cfg, s, files);
    HealthyVerdict(cfg, s, files, u);
    hide Core, Healthy, Recoverable;
    var s1 := s.(files := files);
    ResumedCompletion(cfg, w, s1, u, k);
    assert s1.calls[u := Load(None)] == map[u := Load(None)];
  }

  /** And no commit is forgotten: a completed upload keeps answering with its
      recorded outcome. */
  lemma AcceptanceKeepsCommits(cfg: Config, w: World, s: Sys, files: Files, u: Id, k: nat)
    requires WorldOk(w) && Faultless(w)
    requires Inv(cfg, s) && s.calls == map[] && s.puts == map[] && Healthy(cfg, s.db, files)
    requires u in s.db.uploads && s.db.uploads[u].commit == Committed
    ensures s.db.uploads[u].resource.Some?
    ensures var (s', _) := Complete(cfg, w, s.(files := files), u, k);
      s'.db == s.db && s'.calls[u] == Returned(Ok(OutcomeOf(s.db.uploads[u])))
  {
    HealthyRestoresInvariant(cfg, s, files);
    assert CommittedSound(s.db, s.db.uploads[u]);
    assert RowOk(cfg, s.db, s.files, u);
    hide Core, Healthy;
    RepeatedCompletion(cfg, w, s.(files := files), u, k);
  }

  // ----- the doctor after a pass ------------------------------------------------------------------

  /** The row and the object of a blob that something committed references. */
  lemma ReferencedIsSound(cfg: Config, s: Sys, b: Id)
    requires Inv(cfg, s) && NonePending(s) && b in s.db.blobs && !Orphan(s.db, b)
    requires forall u :: u in s.db.uploads && s.db.uploads[u].blob == Some(b) ==> s.db.uploads[u].commit == Committed
    ensures BlobSound(cfg, s.db, s.files, b)
  {
    assert BlobOk(cfg, s.db, b);
    var content :| ContentIs(cfg, content, s.db.blobs[b].size, s.db.blobs[b].blake3);
    ValidBlake3Lower(cfg.hash(content));
    if r :| r in s.db.resources && s.db.resources[r].blob == b {
      assert ResourceOk(cfg, s.db, s.files, r);
    } else {
      var u :| u in s.db.uploads && s.db.uploads[u].blob == Some(b);
      assert RowOk(cfg, s.db, s.files, u);
    }
  }

  lemma CommittedIsSoundIff(cfg: Config, s: Sys, u: Id)
    requires Inv(cfg, s) && u in s.db.uploads && s.db.uploads[u].commit == Committed
    ensures CommittedSound(s.db, s.db.uploads[u]) <==> Current(s.db, s.db.uploads[u])
  {
    var row := s.db.uploads[u];
    assert RowOk(cfg, s.db, s.files, u);
    assert BlobOk(cfg, s.db, row.blob.value);
  }

  /** No upload is unknown or failed: what a pass leaves where nothing was amiss. */
  ghost predicate NoneAmiss(s: Sys) {
    forall u :: u in s.db.uploads ==> s.db.uploads[u].commit !in {Unknown, Failed}
  }

  lemma BlobUsersCommitted(cfg: Config, s: Sys, b: Id)
    requires Inv(cfg, s) && NonePending(s) && NoneAmiss(s) && NothingBegun(s) && b in s.db.blobs
    ensures forall u :: u in s.db.uploads && s.db.uploads[u].blob == Some(b) ==> s.db.uploads[u].commit == Committed
  {
  }

  // ----- acceptance, exactly ----------------------------------------------------------------------

  /** Every digest of the request is spelled in lower case. */
  ghost predicate LowerDigests(request: Request) {
    Lower(request.blake3) == request.blake3
    && forall i :: 0 <= i < |request.parts| ==> Lower(request.parts[i].blake3) == request.parts[i].blake3
  }

  /** Of a request the server accepted, the doctor asks no more than lower case. */
  lemma RequestSoundIffLower(cfg: Config, db: Db, row: Upload)
    requires UploadRequestOk(row.request, cfg.maxPart)
    requires row.asset in db.assets && db.assets[row.asset].source == row.request.sourceAsset
    ensures RequestSound(db, row) <==> LowerDigests(row.request)
  {
    var request := row.request;
    ValidBlake3Lower(request.blake3);
    forall i | 0 <= i < |request.parts|
      ensures PartSound(request, i) <==> Lower(request.parts[i].blake3) == request.parts[i].blake3
    {
      ValidBlake3Lower(request.parts[i].blake3);
    }
  }

  lemma ManifestsSoundIff(cfg: Config, s: Sys)
    requires Inv(cfg, s) && RequestsHold(cfg, s)
    ensures ManifestsSound(cfg, s.db, s.files) <==>
      (forall u :: u in s.db.uploads ==> LowerDigests(s.db.uploads[u].request)) && PartsAccounted(s.db, s.files)
  {
    forall u | u in s.db.uploads
      ensures ManifestRows(s.db.uploads[u]) && PartsOnDisk(cfg, s.files, u, s.db.uploads[u])
      ensures RequestSound(s.db, s.db.uploads[u]) <==> LowerDigests(s.db.uploads[u].request)
    {
      assert RowOk(cfg, s.db, s.files, u);
      RequestSoundIffLower(cfg, s.db, s.db.uploads[u]);
    }
    hide Core, RequestsHold, RequestSound, LowerDigests, ManifestRows, PartsOnDisk, PartsAccounted;
  }

  /** Nothing an unfinished commit could finish from is corrupt, and what it
      adopted is there. */
  ghost predicate Unharmed(cfg: Config, s: Sys, u: Id)
    requires u in s.db.uploads && s.db.uploads[u].account in s.db.accounts
  {
    var row := s.db.uploads[u];
    var key := ObjectKey(s.db, row);
    && (key in s.files ==> ContentIs(cfg, s.files[key], row.request.size, row.request.blake3))
    && (row.staged.Some? && row.staged.value in s.files ==>
          ContentIs(cfg, s.files[row.staged.value], row.request.size, row.request.blake3))
    && (row.commit == Finalizing && row.staged.None? ==> key in s.files)
  }

  lemma ActiveSoundIff(cfg: Config, s: Sys, u: Id)
    requires Inv(cfg, s) && u in s.db.uploads && s.db.uploads[u].commit in {Started, Finalizing}
    requires LowerDigests(s.db.uploads[u].request)
    ensures s.db.uploads[u].account in s.db.accounts
    ensures ActiveSound(cfg, s.db, s.files, u, s.db.uploads[u]) <==> Unharmed(cfg, s, u)
  {
    assert RowOk(cfg, s.db, s.files, u);
    ValidBlake3Lower(s.db.uploads[u].request.blake3);
    hide Core, LowerDigests, PartsOnDisk, ManifestRows, ContentIs, IsContent, ValidBlake3, Lower;
  }

  /** Every blob row has its object, of the recorded size. */
  ghost predicate ObjectsPresent(s: Sys) {
    forall b :: b in s.db.blobs ==>
      s.db.blobs[b].key in s.files && |s.files[s.db.blobs[b].key]| == s.db.blobs[b].size
  }

  lemma BlobSoundIff(cfg: Config, s: Sys, b: Id)
    requires Inv(cfg, s) && b in s.db.blobs
    ensures BlobSound(cfg, s.db, s.files, b)
       <==> s.db.blobs[b].key in s.files && |s.files[s.db.blobs[b].key]| == s.db.blobs[b].size
  {
    assert BlobOk(cfg, s.db, b) && ObjectOk(cfg, s.files, s.db.blobs[b].key);
    var content :| ContentIs(cfg, content, s.db.blobs[b].size, s.db.blobs[b].blake3);
    ValidBlake3Lower(cfg.hash(content));
  }

  lemma RowSoundIff(cfg: Config, s: Sys, u: Id)
    requires Inv(cfg, s) && u in s.db.uploads
    ensures s.db.uploads[u].account in s.db.accounts
    ensures s.db.uploads[u].commit == Committed ==>
      (CommittedSound(s.db, s.db.uploads[u]) <==> Current(s.db, s.db.uploads[u]))
    ensures s.db.uploads[u].commit in {Started, Finalizing} && LowerDigests(s.db.uploads[u].request) ==>
      (ActiveSound(cfg, s.db, s.files, u, s.db.uploads[u]) <==> Unharmed(cfg, s, u))
  {
    assert RowOk(cfg, s.db, s.files, u);
    hide Core, CommittedSound, Current, ActiveSound, LowerDigests, Unharmed;
    if s.db.uploads[u].commit == Committed {
      CommittedIsSoundIff(cfg, s, u);
    } else if s.db.uploads[u].commit in {Started, Finalizing} && LowerDigests(s.db.uploads[u].request) {
      ActiveSoundIff(cfg, s, u);
    }
  }

  /** In every state of every run the doctor accepts exactly when account paths
      are sound, digests in lower case, part files accounted for, nothing is
      unknown, committed uploads own their resources, blob rows are referenced
      and have their objects, and unfinished commits are unharmed. */
  lemma DoctorAcceptsIff(cfg: Config, states: seq<Sys>, actions: seq<Action>, i: nat)
    requires CommitSafety.Run(cfg, states, actions) && i < |states|
    ensures var s := states[i];
      && (forall u :: u in s.db.uploads ==> s.db.uploads[u].account in s.db.accounts)
      && (Healthy(cfg, s.db, s.files) <==>
            && PathsSound(s.db)
            && (forall u :: u in s.db.uploads ==> LowerDigests(s.db.uploads[u].request))
            && PartsAccounted(s.db, s.files)
            && (forall u :: u in s.db.uploads ==> s.db.uploads[u].commit != Unknown)
            && AllCurrent(s) && (forall b :: !Orphan(s.db, b)) && ObjectsPresent(s)
            && forall u :: u in s.db.uploads && s.db.uploads[u].commit in {Started, Finalizing} ==> Unharmed(cfg, s, u))
  {
    var s := states[i];
    RunInv(cfg, states, actions, i);
    RequestsStaySound(cfg, states, actions, i);
    hide Run, Inv, RequestsHold, PathsSound, ManifestsSound, PartsAccounted, BlobSound, CommittedSound, Current,
      ActiveSound, LowerDigests, Unharmed, Orphan;
    ManifestsSoundIff(cfg, s);
    forall u | u in s.db.uploads
      ensures s.db.uploads[u].account in s.db.accounts
      ensures s.db.uploads[u].commit == Committed ==>
        (CommittedSound(s.db, s.db.uploads[u]) <==> Current(s.db, s.db.uploads[u]))
      ensures s.db.uploads[u].commit in {Started, Finalizing} && LowerDigests(s.db.uploads[u].request) ==>
        (ActiveSound(cfg, s.db, s.files, u, s.db.uploads[u]) <==> Unharmed(cfg, s, u))
    {
      RowSoundIff(cfg, s, u);
    }
    BlobsSoundIff(cfg, s);
    hide ObjectsPresent;
  }

  lemma BlobsSoundIff(cfg: Config, s: Sys)
    requires Inv(cfg, s)
    ensures (forall b :: b in s.db.blobs ==> BlobSound(cfg, s.db, s.files, b)) <==> ObjectsPresent(s)
  {
    hide Inv, BlobSound;
    forall b | b in s.db.blobs
      ensures BlobSound(cfg, s.db, s.files, b)
         <==> s.db.blobs[b].key in s.files && |s.files[s.db.blobs[b].key]| == s.db.blobs[b].size
    {
      BlobSoundIff(cfg, s, b);
    }
  }

  /** What a reconciliation pass leaves in a run, the doctor accepts exactly when
      account paths are sound, digests in lower case, part files accounted for,
      and every committed upload still owns its resource. */
  lemma SettledIsHealthyIff(cfg: Config, states: seq<Sys>, actions: seq<Action>, i: nat)
    requires CommitSafety.Run(cfg, states, actions) && i < |states| && Settled(states[i]) && NoneAmiss(states[i])
    ensures var s := states[i];
      Healthy(cfg, s.db, s.files) <==>
        && PathsSound(s.db) && (forall u :: u in s.db.uploads ==> LowerDigests(s.db.uploads[u].request))
        && PartsAccounted(s.db, s.files) && AllCurrent(s)
  {
    RunInv(cfg, states, actions, i);
    RequestsStaySound(cfg, states, actions, i);
    ReceivingNamesNoBlob(cfg, states, actions, i);
    hide Run;
    ManifestsSoundIff(cfg, states[i]);
    SettledAccepts(cfg, states[i]);
  }

  lemma SettledAccepts(cfg: Config, s: Sys)
    requires Inv(cfg, s) && Settled(s) && NoneAmiss(s) && NothingBegun(s)
    ensures Healthy(cfg, s.db, s.files) <==> PathsSound(s.db) && ManifestsSound(cfg, s.db, s.files) && AllCurrent(s)
  {
    forall b | b in s.db.blobs ensures BlobSound(cfg, s.db, s.files, b) {
      BlobUsersCommitted(cfg, s, b);
      ReferencedIsSound(cfg, s, b);
    }
    forall u | u in s.db.uploads && s.db.uploads[u].commit == Committed
      ensures CommittedSound(s.db, s.db.uploads[u]) <==> Current(s.db, s.db.uploads[u])
    {
      CommittedIsSoundIff(cfg, s, u);
    }
    hide Core, PathsSound, ManifestsSound, BlobSound, CommittedSound, Current, Swept, StageGone, ActiveSound, Orphan;
  }

  /** A content hash with an upper-case digit passes the server's own check of
      requests, but no run ever commits it, and the doctor refuses its row. */
  lemma UpperCaseNeverCommits(cfg: Config, states: seq<Sys>, actions: seq<Action>, i: nat, u: Id, files: Files)
    requires CommitSafety.Run(cfg, states, actions) && i < |states| && u in states[i].db.uploads
    requires Lower(states[i].db.uploads[u].request.blake3) != states[i].db.uploads[u].request.blake3
    ensures states[i].db.uploads[u].commit != Committed && !Healthy(cfg, states[i].db, files)
  {
    RunInv(cfg, states, actions, i);
    var s := states[i];
    assert RowOk(cfg, s.db, s.files, u);
    ValidBlake3Lower(s.db.uploads[u].request.blake3);
  }
}
