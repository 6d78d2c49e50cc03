/** Values shared by every part of the model: bytes, identifiers, content
    hashes and the failure-compatible result types. */
module Types {

  datatype Option<+T> = None | Some(value: T)

  datatype Result<+R, +E> = Ok(value: R) | Err(error: E)

  newtype byte = x: int | 0 <= x < 256

  type Bytes = seq<byte>

  /** A UUID; only identity matters to the protocol. */
  type Id = nat

  const I64_MAX: nat := 0x7fff_ffff_ffff_ffff
  const U64_MAX: nat := 0xffff_ffff_ffff_ffff

  /** What the server is configured with. BLAKE3 is any function from bytes to
      a lower-case hexadecimal digest. */
  datatype Config = Config(hash: Bytes -> string, maxPart: nat)

  function LowerChar(c: char): char {
    if 'A' <= c <= 'Z' then c + 32 as char else c
  }

  /** `to_ascii_lowercase`. */
  function Lower(s: string): string {
    seq(|s|, i requires 0 <= i < |s| => LowerChar(s[i]))
  }

  predicate IsHexDigit(c: char) {
    '0' <= c <= '9' || 'a' <= c <= 'f' || 'A' <= c <= 'F'
  }

  predicate IsBlake3(s: string) {
    |s| == 64 && forall i :: 0 <= i < |s| ==> IsHexDigit(s[i])
  }

  /** Every digest the hash produces is canonical: 64 lower-case hex digits. */
  ghost predicate HashOk(cfg: Config) {
    forall b: Bytes :: IsBlake3(cfg.hash(b)) && Lower(cfg.hash(b)) == cfg.hash(b)
  }

  /** No two of these contents share a digest. */
  ghost predicate CollisionFree(cfg: Config, contents: set<Bytes>) {
    forall a, b :: a in contents && b in contents && cfg.hash(a) == cfg.hash(b) ==> a == b
  }

  datatype PartSpec = PartSpec(index: nat, size: nat, blake3: string)

  function PartsSize(parts: seq<PartSpec>): nat {
    if parts == [] then 0 else parts[0].size + PartsSize(parts[1..])
  }

  lemma {:induction false} PartsSizeAppend(parts: seq<PartSpec>, part: PartSpec)
    ensures PartsSize(parts + [part]) == PartsSize(parts) + part.size
  {
    if parts == [] {
      assert [part][1..] == [];
    } else {
      PartsSizeAppend(parts[1..], part);
      assert (parts + [part])[1..] == parts[1..] + [part];
    }
  }

  lemma {:induction false} PartsSizePrefix(parts: seq<PartSpec>, n: nat)
    requires n <= |parts|
    ensures PartsSize(parts[..n]) <= PartsSize(parts)
    decreases |parts| - n
  {
    if n == |parts| {
      assert parts[..n] == parts;
    } else {
      assert parts[..n + 1] == parts[..n] + [parts[n]];
      PartsSizeAppend(parts[..n], parts[n]);
      PartsSizePrefix(parts, n + 1);
    }
  }

  function Concat(chunks: seq<Bytes>): Bytes {
    if chunks == [] then [] else chunks[0] + Concat(chunks[1..])
  }

  /** The content a file holds is the one a size and a digest describe. */
  predicate ContentIs(cfg: Config, content: Bytes, size: nat, blake3: string) {
    |content| == size && cfg.hash(content) == blake3
  }
}
