/** The object store: files read and written in chunks, one storage call a
    method. Each call is proved to do what the protocol's steps say it does,
    however short the reads are. */
module Storage {
  import opened Types
  import opened CommitModel
  import opened CommitRuns

  const BUFFER: nat := 1024 * 1024

  /** One `read` into a buffer: any number of bytes, none only at the end. */
  method Read(content: Bytes, pos: nat, room: nat) returns (n: nat)
    requires pos <= |content| && 0 < room
    ensures n <= room && pos + n <= |content|
    ensures n == 0 <==> pos == |content|
  {
    if pos == |content| {
      n := 0;
    } else {
      assert 1 <= 1 <= room && pos + 1 <= |content|;
      n :| 1 <= n <= room && pos + n <= |content|;
    }
  }

  // ----- the body of a part upload ------------------------------------------------------

  /** What arrives from the client, frame by frame. */
  datatype Frame = Data(bytes: Bytes) | Trailers | Broken

  function BodyOf(frames: seq<Frame>): Bytes {
    if frames == [] then []
    else (if frames[0].Data? then frames[0].bytes else []) + BodyOf(frames[1..])
  }

  predicate BodyFits(cfg: Config, spec: PartSpec, frames: seq<Frame>) {
    Broken !in frames && |BodyOf(frames)| <= cfg.maxPart && ContentIs(cfg, BodyOf(frames), spec.size, spec.blake3)
  }

  /** The body arrives whole, is what the entry describes and within the limit,
      and what is there already, if anything, is the same. */
  ghost predicate TakesPart(cfg: Config, files: Files, u: Id, spec: PartSpec, frames: seq<Frame>) {
    (forall i :: 0 <= i < |frames| ==> !frames[i].Broken?)
    && |BodyOf(frames)| == spec.size && spec.size <= cfg.maxPart && cfg.hash(BodyOf(frames)) == spec.blake3
    && var key := PartFile(u, spec.index);
       key in files ==> |files[key]| == spec.size && cfg.hash(files[key]) == spec.blake3
  }

  /** A frame takes the body past the server's limit, before anything else is
      wrong with it. */
  ghost predicate CrossesLimit(cfg: Config, spec: PartSpec, frames: seq<Frame>) {
    exists i :: 0 <= i < |frames| && CrossesAt(cfg, spec, frames, i)
  }

  ghost predicate CrossesAt(cfg: Config, spec: PartSpec, frames: seq<Frame>, i: nat)
    requires i < |frames|
  {
    Broken !in frames[..i + 1] && |BodyOf(frames[..i])| <= spec.size && |BodyOf(frames[..i])| <= cfg.maxPart
    && |BodyOf(frames[..i + 1])| > cfg.maxPart
  }

  lemma {:induction false} BodyAppend(frames: seq<Frame>, frame: Frame)
    ensures BodyOf(frames + [frame]) == BodyOf(frames) + (if frame.Data? then frame.bytes else [])
  {
    var all := frames + [frame];
    var first := (if all[0].Data? then all[0].bytes else []);
    assert BodyOf(all) == first + BodyOf(all[1..]);
    if frames == [] {
      assert all[1..] == [];
    } else {
      BodyAppend(frames[1..], frame);
      assert all[1..] == frames[1..] + [frame] && all[0] == frames[0];
      hide BodyOf;
    }
  }

  lemma {:induction false} BodyPrefix(frames: seq<Frame>, n: nat)
    requires n <= |frames|
    ensures |BodyOf(frames[..n])| <= |BodyOf(frames)|
    decreases |frames| - n
  {
    if n == |frames| {
      assert frames[..n] == frames;
    } else {
      assert frames[..n + 1] == frames[..n] + [frames[n]];
      BodyAppend(frames[..n], frames[n]);
      BodyPrefix(frames, n + 1);
    }
  }

  lemma {:induction false} BodyGrows(frames: seq<Frame>, m: nat, n: nat)
    requires m <= n <= |frames|
    ensures |BodyOf(frames[..m])| <= |BodyOf(frames[..n])|
  {
    BodyPrefix(frames[..n], m);
    assert frames[..n][..m] == frames[..m];
  }

  /** A body that broke off, or outgrew its entry, crosses no limit later. */
  lemma NoCrossingAfter(cfg: Config, spec: PartSpec, frames: seq<Frame>, i: nat)
    requires i < |frames| && forall j :: 0 <= j < i ==> !CrossesAt(cfg, spec, frames, j)
    requires frames[i].Broken? || (spec.size < |BodyOf(frames[..i + 1])| <= cfg.maxPart)
    ensures !CrossesLimit(cfg, spec, frames)
  {
    forall j | i <= j < |frames| ensures !CrossesAt(cfg, spec, frames, j) {
      if frames[i].Broken? {
        assert frames[..j + 1][i] == frames[i];
      } else if j > i {
        BodyGrows(frames, i + 1, j);
      }
    }
  }

  // ----- parts in manifest order ------------------------------------------------------------

  lemma {:induction false} PartContentsAppend(files: Files, u: Id, parts: seq<PartSpec>, part: PartSpec)
    requires PartFile(u, part.index) in files
    ensures PartContents(files, u, parts + [part]) == PartContents(files, u, parts) + files[PartFile(u, part.index)]
  {
    if parts == [] {
      assert [part][1..] == [];
      assert PartContents(files, u, [part]) == files[PartFile(u, part.index)] + PartContents(files, u, []);
    } else {
      PartContentsAppend(files, u, parts[1..], part);
      assert (parts + [part])[1..] == parts[1..] + [part];
    }
  }

  class LocalStorage {
    const cfg: Config
    var files: Files

    constructor (cfg: Config)
      ensures this.cfg == cfg && files == map[]
    {
      this.cfg := cfg;
      files := map[];
    }

    /** `existing_file_matches`: stops as soon as the file proves too long. */
    method ExistingFileMatches(key: Key, size: nat, blake3: string) returns (m: Option<bool>)
      ensures m.None? <==> key !in files
      ensures m.Some? ==> m.value == ContentIs(cfg, files[key], size, blake3)
    {
      if key !in files {
        return None;
      }
      var content := files[key];
      var total, hashed := 0, [];
      while true
        invariant total <= |content| && total <= size && hashed == content[..total]
        decreases |content| - total
      {
        var read := Read(content, total, BUFFER);
        if read == 0 {
          break;
        }
        if total + read > size {
          return Some(false);
        }
        assert content[..total + read] == content[..total] + content[total..total + read];
        hashed := hashed + content[total..total + read];
        total := total + read;
      }
      assert hashed == content;
      return Some(total == size && cfg.hash(hashed) == blake3);
    }

    /** `inspect_object`. */
    method InspectObject(path: string, key: Key, size: nat, blake3: string, fault: Fault)
      returns (r: Result<ObjectState, Refusal>)
      ensures r == if fault != Works then Err(StorageError)
                   else if !InScope(path, key) then Err(BadRequest)
                   else Ok(InspectFile(cfg, files, key, size, blake3))
    {
      if fault != Works {
        return Err(StorageError);
      }
      if !InScope(path, key) {
        return Err(BadRequest);
      }
      var m := ExistingFileMatches(key, size, blake3);
      return Ok(if m.None? then Missing else if m.value then Matches else Mismatch);
    }

    /** `inspect_commit_stage`. */
    method InspectCommitStage(path: string, u: Id, key: Key, size: nat, blake3: string, fault: Fault)
      returns (r: Result<ObjectState, Refusal>)
      ensures r == if fault != Works then Err(StorageError)
                   else if !IsStageOf(path, u, key) then Err(BadRequest)
                   else Ok(InspectFile(cfg, files, key, size, blake3))
    {
      if fault != Works {
        return Err(StorageError);
      }
      if !IsStageOf(path, u, key) {
        return Err(BadRequest);
      }
      var m := ExistingFileMatches(key, size, blake3);
      return Ok(if m.None? then Missing else if m.value then Matches else Mismatch);
    }

    /** `put_part`: stream the body into a private file, check it against the
        manifest entry, and link it without replacing what is there. */
    method PutPart(u: Id, spec: PartSpec, frames: seq<Frame>) returns (r: Result<(), Refusal>)
      modifies this
      ensures files == if BodyFits(cfg, spec, frames)
                       then LinkPart(old(files), PartFile(u, spec.index), BodyOf(frames)) else old(files)
      ensures r.Ok? <==> BodyFits(cfg, spec, frames) && PartStored(cfg, files, u, spec)
      ensures r.Ok? <==> TakesPart(cfg, old(files), u, spec, frames)
      ensures r.Err? ==>
        r.error == if BodyFits(cfg, spec, frames) then Conflict
                   else if CrossesLimit(cfg, spec, frames) then TooLarge else BadRequest
    {
      var key := PartFile(u, spec.index);
      var temporary: Bytes := [];
      for i := 0 to |frames|
        invariant temporary == BodyOf(frames[..i]) && Broken !in frames[..i]
        invariant |temporary| <= cfg.maxPart && |temporary| <= spec.size
        invariant files == old(files)
        invariant forall j :: 0 <= j < i ==> !CrossesAt(cfg, spec, frames, j)
      {
        if frames[i].Broken? {
          assert frames[i] in frames;
          NoCrossingAfter(cfg, spec, frames, i);
          return Err(BadRequest);
        }
        assert frames[..i + 1] == frames[..i] + [frames[i]];
        BodyAppend(frames[..i], frames[i]);
        if frames[i].Data? {
          BodyPrefix(frames, i + 1);
          if |temporary| + |frames[i].bytes| > cfg.maxPart {
            assert CrossesAt(cfg, spec, frames, i);
            return Err(TooLarge);
          }
          if |temporary| + |frames[i].bytes| > spec.size {
            NoCrossingAfter(cfg, spec, frames, i);
            return Err(BadRequest);
          }
          temporary := temporary + frames[i].bytes;
        }
      }
      assert frames[..|frames|] == frames;
      if |temporary| != spec.size || cfg.hash(temporary) != spec.blake3 {
        return Err(BadRequest);
      }
      if key !in files {
        files := files[key := temporary];
        return Ok(());
      }
      var existing := ExistingFileMatches(key, spec.size, spec.blake3);
      if existing == Some(true) {
        return Ok(());
      }
      return Err(Conflict);
    }

    /** One part copied into the stage; false if it no longer matches. */
    method CopyPart(u: Id, part: PartSpec, staged: Key, output: Bytes) returns (ok: bool, output': Bytes)
      requires staged.StageFile? && PartFile(u, part.index) in files
      requires staged in files && files[staged] == output
      modifies this
      ensures ok <==> PartStored(cfg, old(files), u, part)
      ensures output' == output + old(files)[PartFile(u, part.index)]
      ensures files == old(files)[staged := output']
    {
      var input := files[PartFile(u, part.index)];
      var partSize := 0;
      output' := output;
      while true
        invariant partSize <= |input| && output' == output + input[..partSize]
        invariant files == old(files)[staged := output']
        decreases |input| - partSize
      {
        var read := Read(input, partSize, BUFFER);
        if read == 0 {
          break;
        }
        assert input[..partSize + read] == input[..partSize] + input[partSize..partSize + read];
        output' := output' + input[partSize..partSize + read];
        files := files[staged := output'];
        partSize := partSize + read;
      }
      assert input[..partSize] == input;
      ok := partSize == part.size && cfg.hash(input) == part.blake3;
    }

    /** Copy the parts in manifest order until one no longer matches. */
    method CopyParts(u: Id, parts: seq<PartSpec>, staged: Key) returns (ok: bool, output: Bytes)
      requires staged.StageFile?
      modifies this
      ensures ok <==> forall j :: 0 <= j < |parts| ==> PartStored(cfg, old(files), u, parts[j])
      ensures ok ==> output == PartContents(old(files), u, parts)
      ensures files == old(files)[staged := output]
    {
      ghost var before := files;
      output := [];
      files := files[staged := output];
      for i := 0 to |parts|
        invariant files == before[staged := output]
        invariant output == PartContents(before, u, parts[..i])
        invariant forall j :: 0 <= j < i ==> PartStored(cfg, before, u, parts[j])
      {
        if PartFile(u, parts[i].index) !in files {
          assert !PartStored(cfg, before, u, parts[i]);
          return false, output;
        }
        assert parts[..i + 1] == parts[..i] + [parts[i]];
        PartContentsAppend(before, u, parts[..i], parts[i]);
        var matches;
        matches, output := CopyPart(u, parts[i], staged, output);
        if !matches {
          assert !PartStored(cfg, before, u, parts[i]);
          return false, output;
        }
      }
      assert parts[..|parts|] == parts;
      return true, output;
    }

    /** `assemble_commit`: reuse a stage that already holds the content, or
        write one in place from the stored parts and check it on the way. */
    method AssembleCommit(path: string, u: Id, parts: seq<PartSpec>, staged: Key, size: nat, blake3: string,
                          fault: Fault)
      returns (r: Result<(), Refusal>)
      modifies this
      ensures fault != Works ==> r == Err(StorageError) && files == old(files)
      ensures fault == Works && !IsStageOf(path, u, staged) ==> r == Err(BadRequest) && files == old(files)
      ensures fault == Works && IsStageOf(path, u, staged) ==>
        if InspectFile(cfg, old(files), staged, size, blake3) == Matches then r.Ok? && files == old(files)
        else match Assembled(cfg, old(files), u, parts, size, blake3)
             case Some(content) => r.Ok? && files == old(files)[staged := content]
             case None => r == Err(Conflict) && files == old(files) - {staged}
    {
      var seen := InspectCommitStage(path, u, staged, size, blake3, fault);
      if seen.Err? {
        return Err(seen.error);
      }
      if seen.value == Matches {
        return Ok(());
      }
      ghost var before := files;
      var ok, output := CopyParts(u, parts, staged);
      if !ok || |output| != size || cfg.hash(output) != blake3 {
        files := files - {staged};
        assert files == before - {staged};
        return Err(Conflict);
      }
      return Ok(());
    }

    /** `publish_commit`. A failure may strike before or after the link. */
    method PublishCommit(path: string, u: Id, staged: Key, final: Key, size: nat, blake3: string, fault: Fault)
      returns (ok: bool)
      modifies this
      ensures var valid := IsStageOf(path, u, staged) && InScope(path, final)
                           && InspectFile(cfg, old(files), staged, size, blake3) == Matches;
        && files == (if valid && fault != Fails && final !in old(files)
                     then old(files)[final := old(files)[staged]] else old(files))
        && (ok <==> valid && fault == Works && InspectFile(cfg, files, final, size, blake3) == Matches)
    {
      if fault == Fails {
        return false;
      }
      var stage := InspectCommitStage(path, u, staged, size, blake3, Works);
      if stage != Ok(Matches) || !InScope(path, final) {
        return false;
      }
      if final !in files {
        files := files[final := files[staged]];
      }
      if fault == FailsLate {
        return false;
      }
      var published := InspectObject(path, final, size, blake3, Works);
      return published == Ok(Matches);
    }

    /** `remove_commit_stage`. */
    method RemoveCommitStage(path: string, u: Id, staged: Key, fault: Fault) returns (ok: bool)
      modifies this
      ensures files == if IsStageOf(path, u, staged) && fault != Fails then old(files) - {staged} else old(files)
      ensures ok <==> IsStageOf(path, u, staged) && fault == Works
    {
      if !IsStageOf(path, u, staged) || fault == Fails {
        return false;
      }
      files := files - {staged};
      return fault == Works;
    }

    /** `cleanup_orphan_staging`: every stage in the account's directory that no
        upload references is removed; every other file stays. */
    method CleanupOrphanStaging(path: string, referenced: set<Key>) returns (removed: nat)
      modifies this
      ensures files == map key | key in old(files) && !(key.StageFile? && key.path == path && key !in referenced)
                         :: old(files)[key]
      ensures removed == |old(files)| - |files|
    {
      var listed := set key | key in files && key.StageFile? && key.path == path;
      ghost var before := files;
      removed := 0;
      while listed != {}
        invariant listed <= before.Keys
        invariant forall key :: key in listed ==> key in files && key.StageFile? && key.path == path
        invariant forall key :: key in files ==> key in before && files[key] == before[key]
        invariant forall key :: key in before && key !in files ==>
          key.StageFile? && key.path == path && key !in referenced
        invariant forall key :: key in files && key.StageFile? && key.path == path && key !in listed ==>
          key in referenced
        invariant removed == |before| - |files|
        decreases |listed|
      {
        var key :| key in listed;
        listed := listed - {key};
        if key !in referenced {
          assert files.Keys == (files - {key}).Keys + {key};
          assert |files.Keys| == |(files - {key}).Keys| + 1;
          files := files - {key};
          removed := removed + 1;
        }
      }
    }
  }
}
