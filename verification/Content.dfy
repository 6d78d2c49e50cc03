/** The client's splitter and restorer, and the promise the whole system is
    for: what the server publishes is the source file, byte for byte. */
module Content {
  import opened Types
  import opened CommitModel
  import opened CommitInvariant
  import opened CommitRuns
  import opened Storage

  const MAX_PART_BYTES: nat := 64 * 1024 * 1024
  const MAX_CONTENT_PARTS: nat := 4096

  // ----- what a split is --------------------------------------------------------------

  /** Full parts and a last one that may be short; an empty file is one empty part. */
  function Chunks(source: Bytes, partSize: nat): (chunks: seq<Bytes>)
    requires 0 < partSize
    ensures chunks != []
    decreases |source|
  {
    if |source| <= partSize then [source]
    else [source[..partSize]] + Chunks(source[partSize..], partSize)
  }

  function SpecOf(cfg: Config, index: nat, chunk: Bytes): PartSpec {
    PartSpec(index, |chunk|, cfg.hash(chunk))
  }

  function Manifest(cfg: Config, chunks: seq<Bytes>): (parts: seq<PartSpec>)
    ensures |parts| == |chunks| && forall i :: 0 <= i < |chunks| ==> parts[i] == SpecOf(cfg, i, chunks[i])
  {
    seq(|chunks|, i requires 0 <= i < |chunks| => SpecOf(cfg, i, chunks[i]))
  }

  lemma {:induction false} ChunksJoin(source: Bytes, partSize: nat)
    requires 0 < partSize
    ensures Concat(Chunks(source, partSize)) == source
    ensures forall i :: 0 <= i < |Chunks(source, partSize)| ==>
      var chunk := Chunks(source, partSize)[i];
      |chunk| <= partSize && (chunk == [] ==> source == [])
    decreases |source|
  {
    if |source| > partSize {
      ChunksJoin(source[partSize..], partSize);
      assert source == source[..partSize] + source[partSize..];
    } else {
      assert Concat([source]) == source + Concat([]);
    }
  }

  function DivCeil(a: nat, b: nat): nat
    requires 0 < b
  {
    (a + b - 1) / b
  }

  lemma Multiple(b: int, d: int)
    requires 0 < b
    ensures d >= 1 ==> b * d >= b
    ensures d <= -1 ==> b * d <= -b
  {
    if d >= 1 {
      assert b * d == b + b * (d - 1);
    } else if d <= -1 {
      assert b * d == -b + b * (d + 1);
    }
  }

  lemma QuotientIsUnique(b: int, q: int, r: int, q': int, r': int)
    requires b * q + r == b * q' + r' && 0 <= r < b && 0 <= r' < b
    ensures q == q'
  {
    assert b * (q - q') == r' - r;
    Multiple(b, q - q');
  }

  lemma DivCeilStep(a: nat, b: nat)
    requires 0 < b < a
    ensures DivCeil(a, b) == 1 + DivCeil(a - b, b)
  {
    var x := a - 1;
    var y := x + b;
    assert x == b * (x / b) + x % b && y == b * (y / b) + y % b;
    assert b * (x / b + 1) == b * (x / b) + b;
    QuotientIsUnique(b, x / b + 1, x % b, y / b, y % b);
  }

  /** How many parts a file makes: the budget check on its size is exact. */
  lemma {:induction false} ChunkCount(source: Bytes, partSize: nat)
    requires 0 < partSize
    ensures |Chunks(source, partSize)| == if source == [] then 1 else DivCeil(|source|, partSize)
    decreases |source|
  {
    if |source| > partSize {
      ChunkCount(source[partSize..], partSize);
      DivCeilStep(|source|, partSize);
    } else if source != [] {
      assert partSize <= |source| + partSize - 1 < 2 * partSize;
    }
  }

  // ----- prepare_file -------------------------------------------------------------------

  datatype ContentError = InvalidPartSize | TooManyParts | Integrity | Io

  datatype Prepared = Prepared(size: nat, blake3: string, parts: seq<PartSpec>)

  /** Fill the buffer from `pos`, however short the reads are. */
  method Fill(source: Bytes, pos: nat, buffer: array<byte>) returns (filled: nat)
    requires pos <= |source| && 0 < buffer.Length
    modifies buffer
    ensures filled == (if |source| - pos < buffer.Length then |source| - pos else buffer.Length)
    ensures buffer[..filled] == source[pos..pos + filled]
  {
    filled := 0;
    while filled < buffer.Length
      invariant filled <= buffer.Length && pos + filled <= |source|
      invariant forall i :: 0 <= i < filled ==> buffer[i] == source[pos + i]
      decreases buffer.Length - filled
    {
      var read := Read(source, pos + filled, buffer.Length - filled);
      if read == 0 {
        break;
      }
      forall i | 0 <= i < read {
        buffer[filled + i] := source[pos + filled + i];
      }
      filled := filled + read;
    }
  }

  /** `prepare_file`. `declared` is the length the file had when it was opened;
      the bytes read may be more or fewer. */
  method PrepareFile(cfg: Config, source: Bytes, declared: nat, partSize: nat)
    returns (r: Result<Prepared, ContentError>, disk: map<nat, Bytes>)
    ensures !(0 < partSize <= MAX_PART_BYTES) ==> r == Err(InvalidPartSize)
    ensures 0 < partSize <= MAX_PART_BYTES ==>
      var chunks := Chunks(source, partSize);
      r == if DivCeil(declared, partSize) > MAX_CONTENT_PARTS || |chunks| > MAX_CONTENT_PARTS
           then Err(TooManyParts)
           else Ok(Prepared(|source|, cfg.hash(source), Manifest(cfg, chunks)))
    ensures r.Ok? ==>
      (forall i: nat :: i in disk <==> i < |r.value.parts|)
      && forall i :: 0 <= i < |r.value.parts| ==> disk[i] == Chunks(source, partSize)[i]
  {
    disk := map[];
    if partSize == 0 || partSize > MAX_PART_BYTES {
      return Err(InvalidPartSize), disk;
    }
    if DivCeil(declared, partSize) > MAX_CONTENT_PARTS {
      return Err(TooManyParts), disk;
    }
    ghost var chunks := Chunks(source, partSize);
    var parts: seq<PartSpec> := [];
    var pos := 0;
    var more := true;
    while more
      invariant pos <= |source| && |parts| <= MAX_CONTENT_PARTS && |parts| <= |chunks|
      invariant parts == Manifest(cfg, chunks[..|parts|])
      invariant forall i: nat :: i in disk <==> i < |parts|
      invariant forall i :: 0 <= i < |parts| ==> disk[i] == chunks[i]
      invariant parts == [] ==> pos == 0
      invariant if more && (pos < |source| || parts == []) then chunks[|parts|..] == Chunks(source[pos..], partSize)
                else |parts| == |chunks| && pos == |source|
      decreases more, |source| - pos
    {
      if |parts| == MAX_CONTENT_PARTS {
        var probe := Read(source, pos, 1);
        if probe != 0 {
          return Err(TooManyParts), disk;
        }
        break;
      }
      var buffer := new byte[partSize];
      var filled := Fill(source, pos, buffer);
      if filled == 0 && parts != [] {
        break;
      }
      var bytes := buffer[..filled];
      ChunkHead(source, partSize, pos, chunks, |parts|);
      disk := disk[|parts| := bytes];
      parts := parts + [SpecOf(cfg, |parts|, bytes)];
      pos := pos + filled;
      if filled < partSize {
        more := false;
      }
    }
    assert chunks[..|parts|] == chunks;
    assert source[..pos] == source;
    return Ok(Prepared(pos, cfg.hash(source[..pos]), parts)), disk;
  }

  /** The next part is the next chunk, and the rest are those of the rest. */
  lemma ChunkHead(source: Bytes, partSize: nat, pos: nat, chunks: seq<Bytes>, k: nat)
    requires 0 < partSize && pos <= |source| && k < |chunks|
    requires chunks[k..] == Chunks(source[pos..], partSize)
    ensures var n := if |source| - pos < partSize then |source| - pos else partSize;
      chunks[k] == source[pos..pos + n]
      && (pos + n < |source| ==> k + 1 < |chunks| && chunks[k + 1..] == Chunks(source[pos + n..], partSize))
      && (pos + n == |source| ==> k + 1 == |chunks|)
  {
    var rest := source[pos..];
    assert chunks[k] == chunks[k..][0];
    if |rest| > partSize {
      assert rest[partSize..] == source[pos + partSize..];
      assert chunks[k + 1..] == chunks[k..][1..];
    } else {
      assert |chunks[k..]| == 1;
    }
  }

  // ----- restore_file -------------------------------------------------------------------

  /** The client's disk, as far as restoring a download touches it. */
  class Disk {
    var files: map<string, Bytes>

    constructor (files: map<string, Bytes>)
      ensures this.files == files
    {
      this.files := files;
    }

    /** `restore_file`: copy the download beside its destination, check it, and
        only then rename it into place. */
    method RestoreFile(cfg: Config, downloaded: string, output: string, temporary: string, size: nat, blake3: string)
      returns (r: Result<(), ContentError>)
      requires downloaded != temporary && output != temporary
      modifies this
      ensures downloaded !in old(files) ==> r == Err(Io) && files == old(files)
      ensures downloaded in old(files) ==>
        if ContentIs(cfg, old(files)[downloaded], size, blake3)
        then r == Ok(()) && files == (old(files) - {temporary})[output := old(files)[downloaded]]
        else r == Err(Integrity) && files == old(files) - {temporary}
    {
      if downloaded !in files {
        return Err(Io);
      }
      var input := files[downloaded];
      files := files[temporary := []];
      var total, restored := 0, [];
      while true
        invariant total <= |input| && restored == input[..total]
        invariant files == old(files)[temporary := restored]
        decreases |input| - total
      {
        var read := Read(input, total, BUFFER);
        if read == 0 {
          break;
        }
        assert input[..total + read] == input[..total] + input[total..total + read];
        restored := restored + input[total..total + read];
        files := files[temporary := restored];
        total := total + read;
      }
      assert restored == input;
      if total != size || cfg.hash(restored) != blake3 {
        files := files - {temporary};
        return Err(Integrity);
      }
      files := (files - {temporary})[output := files[temporary]];
      assert files == (old(files) - {temporary})[output := input];
      return Ok(());
    }
  }

  /** What is restored under the size and hash of a source is that source, and
      nothing else is, unless it happens to share the source's digest. */
  lemma RestoredIsTheSource(cfg: Config, source: Bytes, downloaded: Bytes)
    requires CollisionFree(cfg, {source, downloaded})
    ensures ContentIs(cfg, downloaded, |source|, cfg.hash(source)) <==> downloaded == source
  {
    assert source in {source, downloaded} && downloaded in {source, downloaded};
  }
}
