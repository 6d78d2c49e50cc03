/** Storage keys as the server writes them: relative paths below the data
    directory. What the protocol model calls a key is shown to be exactly one
    such path, and the server's textual checks to be the model's. */
module StorageKeys {
  import opened Types
  import opened CommitModel
  import opened CommitInvariant

  // ----- components ---------------------------------------------------------------------

  function Split(s: string): (components: seq<string>)
    ensures components != [] && forall c :: c in components ==> '/' !in c
    decreases |s|
  {
    if s == [] then [[]]
    else
      var rest := Split(s[1..]);
      if s[0] == '/' then [[]] + rest else [[s[0]] + rest[0]] + rest[1..]
  }

  function Join(components: seq<string>): string
    requires components != []
  {
    if |components| == 1 then components[0] else components[0] + "/" + Join(components[1..])
  }

  lemma {:induction false} SplitWord(word: string)
    requires '/' !in word
    ensures Split(word) == [word]
  {
    if word != [] {
      SplitWord(word[1..]);
      assert [word[0]] + word[1..] == word;
    }
  }

  lemma {:induction false} SplitAppend(a: string, b: string)
    ensures Split(a + "/" + b) == Split(a) + Split(b)
  {
    hide Split;
    var whole := a + "/" + b;
    SplitCons(whole);
    if a == [] {
      SplitEmpty();
      assert whole[1..] == b;
    } else {
      SplitAppend(a[1..], b);
      assert whole[1..] == a[1..] + "/" + b && whole[0] == a[0];
      SplitCons(a);
      Regroup(Split(a[1..]), Split(b), a[0]);
    }
  }

  lemma Regroup(ra: seq<string>, rb: seq<string>, c: char)
    requires ra != []
    ensures [[]] + (ra + rb) == ([[]] + ra) + rb
    ensures [[c] + (ra + rb)[0]] + (ra + rb)[1..] == ([[c] + ra[0]] + ra[1..]) + rb
  {
    assert (ra + rb)[1..] == ra[1..] + rb;
  }

  lemma SplitEmpty()
    ensures Split([]) == [[]]
  {
  }

  lemma SplitCons(s: string)
    requires s != []
    ensures var rest := Split(s[1..]);
      Split(s) == if s[0] == '/' then [[]] + rest else [[s[0]] + rest[0]] + rest[1..]
  {
  }

  lemma {:induction false} JoinSplit(s: string)
    ensures Join(Split(s)) == s
  {
    if s != [] {
      JoinSplit(s[1..]);
      var rest := Split(s[1..]);
      if s[0] == '/' {
        assert Split(s)[1..] == rest;
      } else {
        assert Split(s)[1..] == rest[1..];
      }
    }
  }

  /** A path and its components determine each other. */
  lemma SameSplit(a: string, b: string)
    ensures Split(a) == Split(b) <==> a == b
  {
    JoinSplit(a);
    JoinSplit(b);
  }

  // ----- StorageKey::parse -----------------------------------------------------------------

  predicate IsSpace(c: char) {
    c in {' ', '\t', '\n', '\r', '\U{0B}', '\U{0C}', '\U{85}', '\U{A0}', '\U{1680}', '\U{2028}', '\U{2029}',
          '\U{202F}', '\U{205F}', '\U{3000}'}
    || '\U{2000}' <= c <= '\U{200A}'
  }

  predicate IsControl(c: char) {
    c < ' ' || '\U{7F}' <= c <= '\U{9F}'
  }

  predicate Trimmed(s: string) {
    s != [] ==> !IsSpace(s[0]) && !IsSpace(s[|s| - 1])
  }

  predicate ComponentOk(c: string) {
    c != [] && c != "." && c != ".." && c[0] != '.' && Trimmed(c)
  }

  const MAX_KEY: nat := 4096

  predicate CharsOk(s: string) {
    forall c :: c in s ==> c != '\\' && c != ':' && !IsControl(c)
  }

  predicate ParseOk(raw: string) {
    raw != [] && |raw| <= MAX_KEY && Trimmed(raw) && raw[0] != '/' && CharsOk(raw)
    && forall c :: c in Split(raw) ==> ComponentOk(c)
  }

  // ----- the checks on keys ----------------------------------------------------------------------

  predicate IsStrictDescendant(child: string, parent: string) {
    Split(parent) < Split(child)
  }

  /** `account_paths_overlap`, for two keys that parse. */
  predicate Overlap(first: string, second: string) {
    first == second || IsStrictDescendant(first, second) || IsStrictDescendant(second, first)
  }

  /** `scoped_blob_key`. */
  predicate ScopedBlobKey(account: string, key: string) {
    ParseOk(account) && ParseOk(key) && IsStrictDescendant(key, account)
  }

  /** The hyphenated form, as `Uuid::parse_str` accepts it at this length. */
  predicate IsUuid(s: string) {
    |s| == 36 && forall i :: 0 <= i < 36 ==> if i in {8, 13, 18, 23} then s[i] == '-' else IsHexDigit(s[i])
  }

  /** `is_commit_stage_name`. */
  predicate IsCommitStageName(name: string) {
    var prefix, suffix := "commit-", ".stage";
    |name| == |prefix| + 73 + |suffix|
    && name[..|prefix|] == prefix && name[|name| - |suffix|..] == suffix
    && var value := name[|prefix|..|name| - |suffix|];
       value[36] == '-' && IsUuid(value[..36]) && IsUuid(value[37..])
  }

  predicate StartsWith(s: string, prefix: string) {
    prefix <= s
  }

  /** `commit_stage_key`. */
  predicate CommitStageKey(account: string, upload: string, key: string) {
    ParseOk(account) && ParseOk(key)
    && var components := Split(key);
       var name := components[|components| - 1];
       components[..|components| - 1] == Split(account) + ["staging"]
       && StartsWith(name, "commit-" + upload + "-") && IsCommitStageName(name)
  }

  // ----- where a key leads ----------------------------------------------------------------

  /** Where a relative path leads, component by component, from the directory it
      is joined to; None if it climbs out. */
  function Resolve(components: seq<string>): Option<seq<string>> {
    if components == [] then Some([])
    else
      var above, last := Resolve(components[..|components| - 1]), components[|components| - 1];
      if above.None? || last == "" || last == "." then above
      else if last != ".." then Some(above.value + [last])
      else if above.value == [] then None
      else Some(above.value[..|above.value| - 1])
  }

  lemma {:induction false} PlainResolves(components: seq<string>)
    requires forall c :: c in components ==> c != "" && c != "." && c != ".."
    ensures Resolve(components) == Some(components)
  {
    if components != [] {
      var above, last := components[..|components| - 1], components[|components| - 1];
      assert components == above + [last] && last in components;
      forall c | c in above ensures c != "" && c != "." && c != ".." {
        assert c in components;
      }
      PlainResolves(above);
    }
  }

  /** A key that parses leads to no place but its own, below the directory it is
      joined to, and a scoped one below its account's directory. */
  lemma KeysLeadWhereTheySay(account: string, key: string)
    requires ParseOk(key)
    ensures Resolve(Split(key)) == Some(Split(key)) && Resolve(Split(key)).value != []
    ensures '\\' !in key && ':' !in key && key[0] != '/'
    ensures ScopedBlobKey(account, key) ==> Split(account) < Resolve(Split(key)).value
  {
    PlainResolves(Split(key));
  }

  // ----- isolation ----------------------------------------------------------------------------------

  lemma PrefixesOverlap(a: seq<string>, b: seq<string>, c: seq<string>)
    requires a <= c && b <= c
    ensures a <= b || b <= a
  {
    if |a| <= |b| {
      assert a == c[..|a|] == b[..|a|];
    } else {
      assert b == c[..|b|] == a[..|b|];
    }
  }

  /** No key is in scope for two accounts whose paths do not overlap. */
  lemma BlobKeyHasOneOwner(first: string, second: string, key: string)
    requires ScopedBlobKey(first, key) && ScopedBlobKey(second, key) && first != second
    ensures Overlap(first, second)
  {
    PrefixesOverlap(Split(first), Split(second), Split(key));
    SameSplit(first, second);
  }

  /** No stage key is accepted for two accounts or for two uploads. */
  lemma StageKeyHasOneOwner(account: string, upload: string, account': string, upload': string, key: string)
    requires IsUuid(upload) && IsUuid(upload')
    requires CommitStageKey(account, upload, key) && CommitStageKey(account', upload', key)
    ensures account == account' && upload == upload'
  {
    var components := Split(key);
    var name := components[|components| - 1];
    var front := components[..|components| - 1];
    assert Split(account) == front[..|front| - 1] == Split(account');
    SameSplit(account, account');
    assert upload == ("commit-" + upload + "-")[7..43] == name[7..43] == ("commit-" + upload' + "-")[7..43] == upload';
  }

  // ----- numbers in names ------------------------------------------------------------------------------

  function Decimal(n: nat): (s: string)
    ensures s != [] && forall c :: c in s ==> '0' <= c <= '9'
  {
    var digit := [('0' as int + n % 10) as char];
    if n < 10 then digit else Decimal(n / 10) + digit
  }

  function Zeros(n: nat): (s: string)
    ensures |s| == n && forall c :: c in s ==> c == '0'
  {
    seq(n, _ => '0')
  }

  /** The format of a part's index: decimal, at least eight digits. */
  function Pad8(n: nat): (s: string)
    ensures s != [] && forall c :: c in s ==> '0' <= c <= '9'
  {
    var s := Decimal(n);
    if |s| < 8 then Zeros(8 - |s|) + s else s
  }

  function ValueOf(s: string): int {
    if s == [] then 0 else 10 * ValueOf(s[..|s| - 1]) + (s[|s| - 1] as int - '0' as int)
  }

  lemma {:induction false} DecimalValue(zeros: nat, n: nat)
    ensures ValueOf(Zeros(zeros) + Decimal(n)) == n
  {
    var digit := [('0' as int + n % 10) as char];
    var s := Zeros(zeros) + Decimal(n);
    if n < 10 {
      assert s[..|s| - 1] == Zeros(zeros);
      ZerosValue(zeros);
    } else {
      DecimalValue(zeros, n / 10);
      assert s == (Zeros(zeros) + Decimal(n / 10)) + digit;
      assert s[..|s| - 1] == Zeros(zeros) + Decimal(n / 10);
    }
  }

  lemma {:induction false} ZerosValue(n: nat)
    ensures ValueOf(Zeros(n)) == 0
  {
    if n > 0 {
      ZerosValue(n - 1);
      assert Zeros(n)[..n - 1] == Zeros(n - 1);
    }
  }

  lemma PadValue(n: nat)
    ensures ValueOf(Pad8(n)) == n
  {
    var s := Decimal(n);
    DecimalValue(if |s| < 8 then 8 - |s| else 0, n);
    hide ValueOf, Decimal;
    assert Zeros(0) + s == s;
  }

  lemma PadInjective(m: nat, n: nat)
    requires Pad8(m) == Pad8(n)
    ensures m == n
  {
    PadValue(m);
    PadValue(n);
  }

  // ----- rendering keys -----------------------------------------------------------------------------------

  /** How these UUIDs print: 36 characters, one name each. */
  ghost predicate NamesOk(names: Id -> string, ids: set<Id>) {
    (forall i :: i in ids ==> IsUuid(names(i)))
    && forall i, j :: i in ids && j in ids && names(i) == names(j) ==> i == j
  }

  /** The UUIDs a key mentions. */
  function KeyIds(key: Key): set<Id> {
    match key
    case PartFile(upload, _) => {upload}
    case StageFile(_, upload, nonce) => {upload, nonce}
    case ObjectFile(_, _, _) => {}
  }

  predicate AccountPathOk(path: string) {
    ParseOk(path) && Split(path)[0] != "uploads"
  }

  ghost predicate KeyOk(key: Key) {
    match key
    case PartFile(_, _) => true
    case StageFile(path, _, _) => AccountPathOk(path)
    case ObjectFile(path, shelf, digest) =>
      AccountPathOk(path) && |shelf| == 2 && (forall c :: c in shelf ==> IsHexDigit(c)) && IsBlake3(digest)
  }

  function StageName(names: Id -> string, upload: Id, nonce: Id): string {
    "commit-" + names(upload) + "-" + names(nonce) + ".stage"
  }

  function PartName(index: nat): string {
    Pad8(index) + ".part"
  }

  function Render(names: Id -> string, key: Key): string {
    match key
    case PartFile(upload, index) => "uploads" + "/" + (names(upload) + "/" + PartName(index))
    case StageFile(path, upload, nonce) => path + "/" + ("staging" + "/" + StageName(names, upload, nonce))
    case ObjectFile(path, shelf, digest) => path + "/" + ("objects" + "/" + (shelf + "/" + digest))
  }

  ghost function Components(names: Id -> string, key: Key): seq<string> {
    match key
    case PartFile(upload, index) => ["uploads", names(upload), PartName(index)]
    case StageFile(path, upload, nonce) => Split(path) + ["staging", StageName(names, upload, nonce)]
    case ObjectFile(path, shelf, digest) => Split(path) + ["objects", shelf, digest]
  }

  lemma Words(names: Id -> string, key: Key)
    requires NamesOk(names, KeyIds(key)) && KeyOk(key)
    ensures key.PartFile? ==> '/' !in names(key.upload) && '/' !in PartName(key.index)
    ensures key.StageFile? ==> '/' !in StageName(names, key.upload, key.nonce)
    ensures key.ObjectFile? ==> '/' !in key.shelf && '/' !in key.digest
  {
    if !key.ObjectFile? {
      assert IsUuid(names(key.upload));
    }
    if key.StageFile? {
      assert IsUuid(names(key.nonce));
    }
  }

  lemma TwoWords(a: string, b: string)
    requires '/' !in a && '/' !in b
    ensures Split(a + "/" + b) == [a, b]
  {
    SplitWord(a);
    SplitWord(b);
    SplitAppend(a, b);
  }

  lemma ThreeWords(a: string, b: string, c: string)
    requires '/' !in a && '/' !in b && '/' !in c
    ensures Split(a + "/" + (b + "/" + c)) == [a, b, c]
  {
    hide Split;
    SplitWord(a);
    TwoWords(b, c);
    SplitAppend(a, b + "/" + c);
  }

  lemma RenderSplits(names: Id -> string, key: Key)
    requires NamesOk(names, KeyIds(key)) && KeyOk(key)
    ensures Split(Render(names, key)) == Components(names, key)
  {
    Words(names, key);
    hide Split, PartName, StageName, IsUuid, NamesOk, KeyOk;
    match key
    case PartFile(upload, index) =>
      ThreeWords("uploads", names(upload), PartName(index));
    case StageFile(path, upload, nonce) =>
      TwoWords("staging", StageName(names, upload, nonce));
      SplitAppend(path, "staging" + "/" + StageName(names, upload, nonce));
    case ObjectFile(path, shelf, digest) =>
      ThreeWords("objects", shelf, digest);
      SplitAppend(path, "objects" + "/" + (shelf + "/" + digest));
  }

  function Last(components: seq<string>): string
    requires components != []
  {
    components[|components| - 1]
  }

  /** The last component tells the three kinds of key apart. */
  lemma NamesDiffer(names: Id -> string, key: Key)
    requires NamesOk(names, KeyIds(key)) && KeyOk(key)
    ensures var name := Last(Components(names, key));
      && (key.PartFile? <==> |name| >= 5 && name[|name| - 5..] == ".part")
      && (key.StageFile? <==> IsCommitStageName(name))
      && (key.ObjectFile? <==> '.' !in name)
  {
    match key
    case PartFile(_, index) =>
      var name := PartName(index);
      assert name[|name| - 5] == '.' && name[|name| - 1] == 't';
    case StageFile(_, upload, nonce) =>
      StageNameOk(names, upload, nonce);
      var name := StageName(names, upload, nonce);
      assert name[80..] == ".stage" && name[80] in name;
      assert name[81..][4] == name[85] == 'e' && ".part"[4] == 't';
    case ObjectFile(_, _, digest) =>
      assert forall c :: c in digest ==> IsHexDigit(c);
      assert digest[|digest| - 5..][0] == digest[59] && digest[59] in digest;
  }

  lemma StageNameOk(names: Id -> string, upload: Id, nonce: Id)
    requires NamesOk(names, {upload, nonce})
    ensures var name := StageName(names, upload, nonce);
      IsCommitStageName(name) && |name| == 86 && name[7..43] == names(upload) && name[44..80] == names(nonce)
  {
    assert IsUuid(names(upload)) && IsUuid(names(nonce));
    var name := StageName(names, upload, nonce);
    var value := name[7..80];
    assert value == names(upload) + "-" + names(nonce);
    assert value[..36] == names(upload) && value[37..] == names(nonce);
  }

  /** What the model calls different keys are different paths: its files are
      the server's files. */
  lemma RenderInjective(names: Id -> string, a: Key, b: Key)
    requires NamesOk(names, KeyIds(a) + KeyIds(b)) && KeyOk(a) && KeyOk(b)
    ensures Render(names, a) == Render(names, b) <==> a == b
  {
    if Render(names, a) == Render(names, b) {
      RenderSplits(names, a);
      RenderSplits(names, b);
      NamesDiffer(names, a);
      NamesDiffer(names, b);
      SameComponents(names, a, b);
    }
  }

  lemma SameComponents(names: Id -> string, a: Key, b: Key)
    requires NamesOk(names, KeyIds(a) + KeyIds(b)) && KeyOk(a) && KeyOk(b)
    requires Components(names, a) == Components(names, b)
    requires a.PartFile? == b.PartFile? && a.StageFile? == b.StageFile?
    ensures a == b
  {
    var parts := Components(names, a);
    hide Split, PartName, StageName;
    if a.PartFile? {
      SamePartName(a.index, b.index);
      assert names(a.upload) == parts[1] == names(b.upload);
    } else {
      var tail := if a.StageFile? then 2 else 3;
      assert Split(a.path) == parts[..|parts| - tail] == Split(b.path);
      SameSplit(a.path, b.path);
      if a.StageFile? {
        assert StageName(names, a.upload, a.nonce) == parts[|parts| - 1] == StageName(names, b.upload, b.nonce);
        StageNameOk(names, a.upload, a.nonce);
        StageNameOk(names, b.upload, b.nonce);
      } else {
        assert a.shelf == parts[|parts| - 2] == b.shelf && a.digest == parts[|parts| - 1] == b.digest;
      }
    }
  }

  lemma SamePartName(m: nat, n: nat)
    requires PartName(m) == PartName(n)
    ensures m == n
  {
    assert Pad8(m) == PartName(m)[..|PartName(m)| - 5] == PartName(n)[..|PartName(n)| - 5] == Pad8(n);
    PadInjective(m, n);
  }

  // ----- rendered keys and the server's checks ------------------------------------------------------------

  /** A word of name characters that starts and ends well. */
  predicate WordOk(s: string) {
    s != [] && s[0] != '.' && forall c :: c in s ==> NameChar(c)
  }

  predicate NameChar(c: char) {
    '0' <= c <= '9' || 'a' <= c <= 'z' || 'A' <= c <= 'Z' || c == '-' || c == '.'
  }

  lemma WordsOk(a: string, b: string)
    requires WordOk(a) && forall c :: c in b ==> NameChar(c)
    ensures WordOk(a + b)
  {
  }

  lemma WordIsComponent(s: string)
    requires WordOk(s)
    ensures ComponentOk(s) && CharsOk(s)
  {
    assert s[0] in s && s[|s| - 1] in s;
  }

  lemma UuidWord(s: string)
    requires IsUuid(s)
    ensures WordOk(s)
  {
    assert s[0] in s;
    forall c | c in s ensures NameChar(c) {
      var i :| 0 <= i < |s| && s[i] == c;
    }
  }

  /** The words a key adds to its account's path are well formed. */
  lemma KeyWords(names: Id -> string, key: Key)
    requires NamesOk(names, KeyIds(key)) && KeyOk(key)
    ensures key.PartFile? ==> WordOk(names(key.upload)) && WordOk(PartName(key.index))
    ensures key.StageFile? ==> WordOk(StageName(names, key.upload, key.nonce))
    ensures key.ObjectFile? ==> WordOk(key.shelf) && WordOk(key.digest)
  {
    match key
    case PartFile(upload, index) =>
      UuidWord(names(upload));
      assert Pad8(index)[0] in Pad8(index);
      WordsOk(Pad8(index), ".part");
    case StageFile(_, upload, nonce) =>
      UuidWord(names(upload));
      UuidWord(names(nonce));
      WordsOk("commit-", names(upload));
      WordsOk("commit-" + names(upload), "-");
      WordsOk("commit-" + names(upload) + "-", names(nonce));
      WordsOk("commit-" + names(upload) + "-" + names(nonce), ".stage");
    case ObjectFile(_, shelf, digest) =>
      assert shelf[0] in shelf && digest[0] in digest;
      assert forall c :: c in digest ==> IsHexDigit(c);
  }

  lemma ComponentsOk(names: Id -> string, key: Key)
    requires NamesOk(names, KeyIds(key)) && KeyOk(key)
    ensures forall c :: c in Components(names, key) ==> ComponentOk(c)
    ensures CharsOk(Render(names, key))
  {
    KeyWords(names, key);
    WordIsComponent("uploads");
    WordIsComponent("staging");
    WordIsComponent("objects");
    hide Split, ComponentOk, WordOk, PartName, StageName, IsUuid, NamesOk, IsSpace, IsControl;
    match key
    case PartFile(upload, index) =>
      WordIsComponent(names(upload));
      WordIsComponent(PartName(index));
      SlashChars(names(upload), PartName(index));
      SlashChars("uploads", names(upload) + "/" + PartName(index));
    case StageFile(path, upload, nonce) =>
      WordIsComponent(StageName(names, upload, nonce));
      SlashChars("staging", StageName(names, upload, nonce));
      SlashChars(path, "staging" + "/" + StageName(names, upload, nonce));
    case ObjectFile(path, shelf, digest) =>
      WordIsComponent(shelf);
      WordIsComponent(digest);
      SlashChars(shelf, digest);
      SlashChars("objects", shelf + "/" + digest);
      SlashChars(path, "objects" + "/" + (shelf + "/" + digest));
  }

  lemma SlashChars(a: string, b: string)
    requires CharsOk(a) && CharsOk(b)
    ensures CharsOk(a + "/" + b)
  {
  }

  /** A rendered key parses, as long as it is not too long. */
  lemma RenderParses(names: Id -> string, key: Key)
    requires NamesOk(names, KeyIds(key)) && KeyOk(key)
    ensures ParseOk(Render(names, key)) <==> |Render(names, key)| <= MAX_KEY
  {
    RenderSplits(names, key);
    ComponentsOk(names, key);
    RenderedEnds(names, key);
  }

  lemma RenderedEnds(names: Id -> string, key: Key)
    requires NamesOk(names, KeyIds(key)) && KeyOk(key)
    ensures var s := Render(names, key); s != [] && Trimmed(s) && s[0] != '/'
  {
    var s := Render(names, key);
    match key
    case PartFile(_, index) =>
      assert s[0] == "uploads"[0] && s[|s| - 1] == PartName(index)[|PartName(index)| - 1] == 't';
    case StageFile(path, upload, nonce) =>
      var name := StageName(names, upload, nonce);
      assert s[0] == path[0] && s[|s| - 1] == name[|name| - 1] == 'e';
    case ObjectFile(path, _, digest) =>
      assert s[0] == path[0] && s[|s| - 1] == digest[63] && IsHexDigit(digest[63]);
  }

  /** `scoped_blob_key` is the model's scope, for accounts that do not overlap. */
  lemma ScopeIsTextual(names: Id -> string, path: string, key: Key)
    requires NamesOk(names, KeyIds(key)) && AccountPathOk(path) && KeyOk(key) && |Render(names, key)| <= MAX_KEY
    requires !key.PartFile? && key.path != path ==> !Overlap(path, key.path)
    ensures ScopedBlobKey(path, Render(names, key)) <==> InScope(path, key)
  {
    RenderSplits(names, key);
    RenderParses(names, key);
    var parts := Components(names, key);
    if key.PartFile? {
      assert parts[0] == "uploads";
    } else {
      assert Split(key.path) <= parts;
      if key.path != path && Split(path) <= parts {
        PrefixesOverlap(Split(path), Split(key.path), parts);
        SameSplit(path, key.path);
      }
    }
  }

  /** A stage lies in the staging directory of its own account, and no other. */
  lemma StageParent(names: Id -> string, path: string, key: Key)
    requires key.StageFile?
    ensures var parts := Components(names, key);
      parts[|parts| - 1] == StageName(names, key.upload, key.nonce)
      && (parts[..|parts| - 1] == Split(path) + ["staging"] <==> key.path == path)
  {
    hide Split, StageName;
    var parts := Components(names, key);
    assert parts[..|parts| - 1] == Split(key.path) + ["staging"];
    assert (Split(path) + ["staging"])[..|Split(path)|] == Split(path);
    assert (Split(key.path) + ["staging"])[..|Split(key.path)|] == Split(key.path);
    SameSplit(path, key.path);
  }

  /** `commit_stage_key` is the model's ownership of stages. */
  lemma StageIsTextual(names: Id -> string, path: string, upload: Id, key: Key)
    requires NamesOk(names, KeyIds(key) + {upload}) && AccountPathOk(path) && KeyOk(key)
    requires |Render(names, key)| <= MAX_KEY
    ensures CommitStageKey(path, names(upload), Render(names, key)) <==> IsStageOf(path, upload, key)
  {
    FewerNames(names, KeyIds(key) + {upload}, KeyIds(key));
    hide Split, Render, StageName, IsCommitStageName, ParseOk, KeyOk, IsUuid, NamesOk;
    RenderSplits(names, key);
    RenderParses(names, key);
    NamesDiffer(names, key);
    if key.StageFile? {
      StageParent(names, path, key);
      assert KeyIds(key) + {upload} == {key.upload, key.nonce, upload};
      StagePrefix(names, key.upload, key.nonce, upload);
    }
  }

  lemma FewerNames(names: Id -> string, ids: set<Id>, fewer: set<Id>)
    requires NamesOk(names, ids) && fewer <= ids
    ensures NamesOk(names, fewer)
  {
  }

  lemma StagePrefix(names: Id -> string, owner: Id, nonce: Id, upload: Id)
    requires NamesOk(names, {owner, nonce, upload})
    ensures StartsWith(StageName(names, owner, nonce), "commit-" + names(upload) + "-") <==> owner == upload
  {
    var name, prefix := StageName(names, owner, nonce), "commit-" + names(upload) + "-";
    StageNameOk(names, owner, nonce);
    assert IsUuid(names(upload)) && |prefix| == 44 && prefix[7..43] == names(upload);
    assert name == ("commit-" + names(owner) + "-") + (names(nonce) + ".stage");
    assert name[..44][7..43] == name[7..43];
  }

  /** What `cleanup_orphan_staging` finds in an account's staging directory. */
  lemma ListedStages(names: Id -> string, path: string, key: Key)
    requires NamesOk(names, KeyIds(key)) && AccountPathOk(path) && KeyOk(key)
    ensures var parts := Split(Render(names, key));
      parts[..|parts| - 1] == Split(path) + ["staging"] && IsCommitStageName(Last(parts))
      <==> key.StageFile? && key.path == path
  {
    RenderSplits(names, key);
    NamesDiffer(names, key);
    hide Split, Render, StageName, IsCommitStageName, KeyOk;
    if key.StageFile? {
      StageParent(names, path, key);
    }
  }

  // ----- commit_keys -----------------------------------------------------------------------------------

  /** `commit_keys`: a stage key under a new UUID, and the final key. */
  function CommitKeys(names: Id -> string, path: string, upload: Id, blake3: string, nonce: Id)
    : Result<(string, string), Refusal>
  {
    if !IsBlake3(blake3) || !ParseOk(path) then Err(BadRequest)
    else
      var staged := path + "/" + ("staging" + "/" + StageName(names, upload, nonce));
      var final := path + "/" + ("objects" + "/" + (blake3[..2] + "/" + Lower(blake3)));
      if !ParseOk(staged) || !ParseOk(final) then Err(BadRequest) else Ok((staged, final))
  }

  /** The keys of a commit are those of the model, each accepted for its own
      account and upload; the final key alone identifies account and content. */
  lemma CommitKeysAreTheModels(names: Id -> string, path: string, upload: Id, blake3: string, nonce: Id)
    requires NamesOk(names, {upload, nonce}) && AccountPathOk(path)
    ensures var r := CommitKeys(names, path, upload, blake3, nonce);
      && (r.Ok? <==> IsBlake3(blake3) && |path| + 95 <= MAX_KEY)
      && (r.Ok? ==>
            && r.value == (Render(names, StageFile(path, upload, nonce)), Render(names, ObjectFor(path, blake3)))
            && CommitStageKey(path, names(upload), r.value.0) && ScopedBlobKey(path, r.value.1))
  {
    if IsBlake3(blake3) {
      LowerHex(blake3);
      var staged, final := StageFile(path, upload, nonce), ObjectFor(path, blake3);
      StageNameOk(names, upload, nonce);
      assert |Render(names, staged)| == |path| + 95 && |Render(names, final)| == |path| + 76;
      RenderParses(names, staged);
      RenderParses(names, final);
      if |path| + 95 <= MAX_KEY {
        StageIsTextual(names, path, upload, staged);
        ScopeIsTextual(names, path, final);
      }
    }
  }

  lemma LowerHex(s: string)
    requires IsBlake3(s)
    ensures IsBlake3(Lower(s)) && forall c :: c in s[..2] ==> IsHexDigit(c)
  {
    forall i | 0 <= i < 64 ensures IsHexDigit(Lower(s)[i]) {
      assert IsHexDigit(s[i]);
    }
  }

  /** Final keys of canonical hashes are injective in account path and hash. */
  lemma FinalKeysAreInjective(names: Id -> string, path: string, blake3: string, path': string, blake3': string)
    requires AccountPathOk(path) && AccountPathOk(path')
    requires IsBlake3(blake3) && Lower(blake3) == blake3 && IsBlake3(blake3') && Lower(blake3') == blake3'
    ensures Render(names, ObjectFor(path, blake3)) == Render(names, ObjectFor(path', blake3'))
       <==> path == path' && blake3 == blake3'
  {
    LowerHex(blake3);
    LowerHex(blake3');
    RenderInjective(names, ObjectFor(path, blake3), ObjectFor(path', blake3'));
  }

  /** Without that, they are not: spellings of one digest that agree on the
      first two digits share one final key. */
  lemma SpellingsShareAKey(path: string, blake3: string, blake3': string)
    requires IsBlake3(blake3) && IsBlake3(blake3') && Lower(blake3) == Lower(blake3')
    ensures ObjectFor(path, blake3) == ObjectFor(path, blake3') <==> blake3[..2] == blake3'[..2]
  {
  }
}
